/** Execution slots: two limits, the counters that enforce them and the Workers parked behind them. */
module Capacity {
  import opened Collections

  datatype Caps = Caps(all: int, each: int)

  /** `held` and `leaked` are auxiliary: who holds a slot, for which session, and
      how many slots of a session were counted without anybody being left to release them. */
  datatype Slots = Slots(
    total: int, bySession: map<string, nat>, held: map<string, string>, leaked: map<string, nat>)

  /** `own` says that the waiter belongs to the present registration of its id and not to an earlier one. */
  datatype Waiter = Waiter(id: string, session: string, own: bool, done: bool)

  datatype State = State(slots: Slots, waiters: seq<Waiter>)

  datatype Step =
    | Acquire(id: string, session: string, own: bool)   // one turn of the acquire loop
    | Release(id: string)
    | Forget(id: string)                     // the record is pruned
    | Reregister(id: string)                 // the id is registered anew
    | Resume(k: nat)                         // a waiter that is done leaves the list
    | Cancel(k: nat)                         // a parked Worker is cancelled

  const EMPTY := State(Slots(0, map[], map[], map[]), [])

  predicate Blocked(s: Slots, caps: Caps, session: string) {
    s.total >= caps.all || CountAt(s.bySession, session) >= caps.each
  }

  function Bump(m: map<string, nat>, k: string): map<string, nat> {
    m[k := CountAt(m, k) + 1]
  }

  function Acquired(s: Slots, id: string, session: string): Slots {
    Slots(s.total + 1, Bump(s.bySession, session), s.held[id := session],
          if id in s.held then Bump(s.leaked, s.held[id]) else s.leaked)
  }

  function Released(s: Slots, id: string): Slots {
    if id !in s.held then s
    else
      var session := s.held[id];
      Slots(Max(0, s.total - 1), s.bySession[session := Max(0, CountAt(s.bySession, session) - 1)],
            s.held - {id}, s.leaked)
  }

  function Forgotten(s: Slots, id: string): Slots {
    if id !in s.held then s
    else s.(held := s.held - {id}, leaked := Bump(s.leaked, s.held[id]))
  }

  function WakeAll(w: seq<Waiter>): (r: seq<Waiter>)
    ensures |r| == |w| && forall i :: 0 <= i < |w| ==> r[i] == w[i].(done := true)
  {
    if w == [] then [] else [w[0].(done := true)] + WakeAll(w[1..])
  }

  /** From a new registration on, waiters of earlier ones are on their own. */
  function Disowned(w: seq<Waiter>, id: string): (r: seq<Waiter>)
    ensures |r| == |w| && forall i :: 0 <= i < |w| ==> r[i] == w[i].(own := w[i].own && w[i].id != id)
  {
    if w == [] then [] else [w[0].(own := w[0].own && w[0].id != id)] + Disowned(w[1..], id)
  }

  function Apply(s: State, caps: Caps, step: Step): State {
    match step
    case Acquire(id, session, own) =>
      if Blocked(s.slots, caps, session) then s.(waiters := s.waiters + [Waiter(id, session, own, false)])
      else s.(slots := Acquired(s.slots, id, session))
    case Release(id) =>
      if id !in s.slots.held then s else State(Released(s.slots, id), WakeAll(s.waiters))
    case Forget(id) => s.(slots := Forgotten(s.slots, id))
    case Reregister(id) => State(Forgotten(s.slots, id), Disowned(s.waiters, id))
    case Resume(k) =>
      if k < |s.waiters| && s.waiters[k].done then s.(waiters := s.waiters[..k] + s.waiters[k + 1..]) else s
    case Cancel(k) =>
      if k < |s.waiters| then s.(waiters := s.waiters[k := s.waiters[k].(done := true)]) else s
  }

  function Run(s: State, caps: Caps, steps: seq<Step>): State
    decreases |steps|
  {
    if steps == [] then s else Run(Apply(s, caps, steps[0]), caps, steps[1..])
  }

  /** Holders of slots in one session. */
  ghost function Holders(held: map<string, string>, session: string): set<string> {
    set id | id in held && held[id] == session
  }

  /** The counters add up, respect both limits and account for every holder and every leak. */
  ghost predicate Exact(s: Slots, caps: Caps) {
    && s.total == Sum(s.bySession)
    && s.total <= caps.all
    && forall t :: Balanced(s, caps, t)
  }

  ghost predicate Balanced(s: Slots, caps: Caps, t: string) {
    && CountAt(s.bySession, t) <= caps.each
    && CountAt(s.bySession, t) == |Holders(s.held, t)| + CountAt(s.leaked, t)
  }

  /** Every waiter that has not been woken really has to wait. */
  ghost predicate NoLostWakeup(s: State, caps: Caps) {
    forall i :: 0 <= i < |s.waiters| && !s.waiters[i].done ==> Blocked(s.slots, caps, s.waiters[i].session)
  }

  /** A new holder counts for its own session only. */
  lemma NewHolder(held: map<string, string>, id: string, session: string)
    requires id !in held
    ensures |Holders(held[id := session], session)| == |Holders(held, session)| + 1
  {
    assert id !in Holders(held, session);
    assert Holders(held[id := session], session) == Holders(held, session) + {id};
  }

  lemma OtherHolders(held: map<string, string>, id: string, session: string, t: string)
    requires id in held ==> held[id] == session
    requires id in held || t != session
    ensures Holders(held[id := session], t) == Holders(held, t)
  {
  }

  lemma HoldersAfterRemoval(held: map<string, string>, id: string, t: string)
    requires id in held
    ensures |Holders(held - {id}, t)| == |Holders(held, t)| - (if t == held[id] then 1 else 0)
  {
    assert Holders(held - {id}, t) == Holders(held, t) - {id};
  }

  lemma {:induction false} CountBelowSum(m: map<string, nat>, k: string)
    ensures CountAt(m, k) <= Sum(m)
  {
    if k in m {
      SumRemove(m, k);
    }
  }

  /** Releasing never meets a counter that is already zero, so the clamps never act. */
  lemma ClampsNeverAct(s: Slots, caps: Caps, id: string)
    requires Exact(s, caps) && id in s.held
    ensures s.total >= 1 && CountAt(s.bySession, s.held[id]) >= 1
  {
    var t := s.held[id];
    assert Balanced(s, caps, t);
    assert id in Holders(s.held, t);
    CountBelowSum(s.bySession, t);
  }

  /** Acquiring again under the same session only leaks; the record of a Worker never changes its session. */
  predicate SameSession(s: Slots, step: Step) {
    step.Acquire? && step.id in s.held ==> s.held[step.id] == step.session
  }

  lemma AcquireKeepsExact(s: Slots, caps: Caps, id: string, session: string)
    requires Exact(s, caps) && !Blocked(s, caps, session)
    requires id in s.held ==> s.held[id] == session
    ensures Exact(Acquired(s, id, session), caps)
  {
    var r := Acquired(s, id, session);
    SumUpdate(s.bySession, session, CountAt(s.bySession, session) + 1);
    forall t
      ensures Balanced(r, caps, t)
    {
      assert Balanced(s, caps, t);
      if id in s.held || t != session {
        OtherHolders(s.held, id, session, t);
      } else {
        NewHolder(s.held, id, session);
      }
    }
  }

  lemma ReleaseKeepsExact(s: Slots, caps: Caps, id: string)
    requires Exact(s, caps) && id in s.held
    ensures Exact(Released(s, id), caps)
  {
    var r, session := Released(s, id), s.held[id];
    ClampsNeverAct(s, caps, id);
    SumUpdate(s.bySession, session, CountAt(s.bySession, session) - 1);
    forall t
      ensures Balanced(r, caps, t)
    {
      ReleaseBalances(s, caps, id, t);
    }
  }

  lemma ReleaseBalances(s: Slots, caps: Caps, id: string, t: string)
    requires id in s.held && Balanced(s, caps, t) && CountAt(s.bySession, s.held[id]) >= 1
    ensures Balanced(Released(s, id), caps, t)
  {
    HoldersAfterRemoval(s.held, id, t);
  }

  lemma ForgetKeepsExact(s: Slots, caps: Caps, id: string)
    requires Exact(s, caps)
    ensures Exact(Forgotten(s, id), caps)
  {
    if id in s.held {
      var r := Forgotten(s, id);
      forall t
        ensures Balanced(r, caps, t)
      {
        assert Balanced(s, caps, t);
        HoldersAfterRemoval(s.held, id, t);
      }
    }
  }

  /** Every turn of every interleaving keeps the accounts and wakes whoever could run. */
  lemma StepKeepsAccounts(s: State, caps: Caps, step: Step)
    requires Exact(s.slots, caps) && NoLostWakeup(s, caps) && SameSession(s.slots, step)
    ensures Exact(Apply(s, caps, step).slots, caps) && NoLostWakeup(Apply(s, caps, step), caps)
  {
    match step
    case Acquire(id, session, _) =>
      if !Blocked(s.slots, caps, session) {
        AcquireKeepsExact(s.slots, caps, id, session);
      }
    case Release(id) =>
      if id in s.slots.held {
        ReleaseKeepsExact(s.slots, caps, id);
      }
    case Forget(id) => ForgetKeepsExact(s.slots, caps, id);
    case Reregister(id) => ForgetKeepsExact(s.slots, caps, id);
    case Resume(k) =>
    case Cancel(k) =>
  }

  ghost predicate WellFormed(s: State, caps: Caps, steps: seq<Step>)
    decreases |steps|
  {
    steps == [] || (SameSession(s.slots, steps[0]) && WellFormed(Apply(s, caps, steps[0]), caps, steps[1..]))
  }

  lemma {:induction false} RunKeepsAccounts(s: State, caps: Caps, steps: seq<Step>)
    requires Exact(s.slots, caps) && NoLostWakeup(s, caps) && WellFormed(s, caps, steps)
    ensures Exact(Run(s, caps, steps).slots, caps) && NoLostWakeup(Run(s, caps, steps), caps)
    decreases |steps|
  {
    if steps != [] {
      StepKeepsAccounts(s, caps, steps[0]);
      RunKeepsAccounts(Apply(s, caps, steps[0]), caps, steps[1..]);
    }
  }

  lemma EmptyIsExact(caps: Caps)
    requires caps.all >= 1 && caps.each >= 1
    ensures Exact(EMPTY.slots, caps) && NoLostWakeup(EMPTY, caps)
  {
    forall t
      ensures Balanced(EMPTY.slots, caps, t)
    {
      assert Holders(map[], t) == {};
    }
  }

  /** A Worker acquires only while holding nothing, and its record goes only after its slot. */
  predicate Disciplined(s: State, caps: Caps, step: Step) {
    match step
    case Acquire(id, session, _) => Blocked(s.slots, caps, session) || id !in s.slots.held
    case Forget(id) => id !in s.slots.held
    case Reregister(id) => id !in s.slots.held
    case _ => true
  }

  ghost predicate AllDisciplined(s: State, caps: Caps, steps: seq<Step>)
    decreases |steps|
  {
    steps == [] || (Disciplined(s, caps, steps[0]) && AllDisciplined(Apply(s, caps, steps[0]), caps, steps[1..]))
  }

  lemma {:induction false} LeaksCountLapses(s: State, caps: Caps, steps: seq<Step>)
    ensures forall t :: CountAt(Run(s, caps, steps).slots.leaked, t) >= CountAt(s.slots.leaked, t)
    ensures AllDisciplined(s, caps, steps) ==> Run(s, caps, steps).slots.leaked == s.slots.leaked
    ensures !AllDisciplined(s, caps, steps) ==>
              exists t :: CountAt(Run(s, caps, steps).slots.leaked, t) > CountAt(s.slots.leaked, t)
    decreases |steps|
  {
    if steps != [] {
      var next := Apply(s, caps, steps[0]);
      LeaksCountLapses(next, caps, steps[1..]);
      if !Disciplined(s, caps, steps[0]) {
        var t := s.slots.held[steps[0].id];
        assert CountAt(next.slots.leaked, t) == CountAt(s.slots.leaked, t) + 1;
        assert CountAt(Run(s, caps, steps).slots.leaked, t) > CountAt(s.slots.leaked, t);
      }
    }
  }

  /** Over a whole run the counters equal the holders exactly if and only if every step was disciplined. */
  lemma CountersEqualHoldersIffDisciplined(caps: Caps, steps: seq<Step>)
    requires caps.all >= 1 && caps.each >= 1 && WellFormed(EMPTY, caps, steps)
    ensures var end := Run(EMPTY, caps, steps).slots;
            AllDisciplined(EMPTY, caps, steps)
            <==> forall t :: CountAt(end.bySession, t) == |Holders(end.held, t)|
  {
    EmptyIsExact(caps);
    RunKeepsAccounts(EMPTY, caps, steps);
    LeaksCountLapses(EMPTY, caps, steps);
    var end := Run(EMPTY, caps, steps).slots;
    forall t
      ensures CountAt(end.bySession, t) == |Holders(end.held, t)| + CountAt(end.leaked, t)
    {
      assert Balanced(end, caps, t);
    }
    if !AllDisciplined(EMPTY, caps, steps) {
      var t :| CountAt(end.leaked, t) > 0;
      assert CountAt(end.bySession, t) != |Holders(end.held, t)|;
    }
  }
}
