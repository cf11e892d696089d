/** Wait plans over whole runs.

    A plan is built, its Workers are waited for, and then it is marked
    consumed, unless the wait fails.  Other operations run in between; the
    session lock keeps two plans of one session apart. */
module WaitPlans {
  import opened Collections

  /** What a Worker's record says about waiting for it. */
  datatype Wait = Wait(session: string, turn: string, join: bool, consumed: bool)

  type Waits = map<string, Wait>

  /** A plan that is being waited for, and its place among all plans. */
  datatype Open = Open(ids: set<string>, number: nat)

  /** `serial` numbers registrations, `plans` are the registrations that each plan was built from, and `givenUp` are
      the places of plans whose wait failed.  These and `next` are auxiliary. */
  datatype State = State(
    waits: Waits, open: map<string, Open>, serial: map<string, nat>, next: nat, plans: seq<set<nat>>, givenUp: set<nat>)

  const START := State(map[], map[], map[], 0, [], {})

  /** Every record, but for that of `id`, was there before and waits for the same; a registered record is new. */
  predicate Derives(now: Waits, before: Waits, id: Option<string>) {
    && (forall x :: x in now && id != Some(x) ==> x in before && now[x] == before[x])
    && (id.Some? ==> id.value in now && !now[id.value].consumed)
  }

  function Waited(w: Waits, ids: set<string>): Waits {
    map x | x in w :: if x in ids then w[x].(consumed := true) else w[x]
  }

  /** The Workers that a turn has to wait for. */
  function Due(w: Waits, session: string, turn: string): set<string> {
    set x | x in w && w[x].session == session && w[x].turn == turn && w[x].join && !w[x].consumed
  }

  /** `Change` is any other operation of the task manager, `registered` the Worker it registers, if any. */
  datatype Step =
    | Change(now: Waits, registered: Option<string>)
    | Build(session: string, turn: string)
    | Close(session: string)
    | GiveUp(session: string)

  function Serials(serial: map<string, nat>, ids: set<string>): set<nat> {
    set x | x in ids && x in serial :: serial[x]
  }

  function Next(s: State, step: Step): State {
    match step
    case Change(now, registered) =>
      if !Derives(now, s.waits, registered) then s
      else if registered.None? then s.(waits := now)
      else s.(waits := now, serial := s.serial[registered.value := s.next], next := s.next + 1)
    case Build(session, turn) =>
      var ids := Due(s.waits, session, turn);
      if session in s.open || ids == {} then s
      else s.(open := s.open[session := Open(ids, |s.plans|)], plans := s.plans + [Serials(s.serial, ids)])
    case Close(session) =>
      if session !in s.open then s
      else s.(waits := Waited(s.waits, s.open[session].ids), open := s.open - {session})
    case GiveUp(session) =>
      if session !in s.open then s
      else s.(open := s.open - {session}, givenUp := s.givenUp + {s.open[session].number})
  }

  function Run(s: State, steps: seq<Step>): State
    decreases |steps|
  {
    if steps == [] then s else Run(Next(s, steps[0]), steps[1..])
  }

  // ------------------------------------------------------------ invariants

  predicate Numbered(s: State) {
    && s.waits.Keys <= s.serial.Keys
    && (forall x :: x in s.serial ==> s.serial[x] < s.next)
    && (forall x, y :: x in s.serial && y in s.serial && x != y ==> s.serial[x] != s.serial[y])
    && (forall i, n :: 0 <= i < |s.plans| && n in s.plans[i] ==> n < s.next)
    && (forall session :: session in s.open ==> s.open[session].number < |s.plans|)
    && (forall i :: i in s.givenUp ==> i < |s.plans|)
  }

  predicate InPlan(s: State, session: string, x: string) {
    session in s.open && x in s.open[session].ids
  }

  /** Plan number `i` was built from this registration and its wait did not fail. */
  predicate Covers(s: State, i: nat, n: nat) {
    i < |s.plans| && i !in s.givenUp && n in s.plans[i]
  }

  /** A registration in such a plan is consumed or in the plan that is open for its session. */
  ghost predicate Accounted(s: State)
    requires Numbered(s)
  {
    forall x, i: nat :: x in s.waits && Covers(s, i, s.serial[x]) ==>
      s.waits[x].consumed || (InPlan(s, s.waits[x].session, x) && s.open[s.waits[x].session].number == i)
  }

  /** Each plan has somebody, and nobody who is in an earlier one whose wait did not fail. */
  ghost predicate Apart(s: State) {
    && (forall i :: 0 <= i < |s.plans| ==> s.plans[i] != {})
    && (forall i: nat, j: nat, n :: i < j < |s.plans| && Covers(s, i, n) ==> n !in s.plans[j])
  }

  ghost predicate Ok(s: State) {
    Numbered(s) && Accounted(s) && Apart(s)
  }

  /** A new plan covers only registrations that were in no plan, but for plans whose wait failed. */
  lemma BuildIsNew(s: State, session: string, turn: string, n: nat, i: nat)
    requires Ok(s) && session !in s.open && n in Serials(s.serial, Due(s.waits, session, turn))
    ensures !Covers(s, i, n) && n < s.next
  {
    var x :| x in Due(s.waits, session, turn) && s.serial[x] == n;
    assert !InPlan(s, session, x);
  }

  lemma BuildKeepsApart(s: State, session: string, turn: string)
    requires Ok(s)
    ensures Apart(Next(s, Build(session, turn)))
  {
    var r, ids := Next(s, Build(session, turn)), Due(s.waits, session, turn);
    if session !in s.open && ids != {} {
      var added := Serials(s.serial, ids);
      var y :| y in ids;
      assert s.serial[y] in added;
      forall i: nat, j: nat, n: nat | i < j < |r.plans| && Covers(r, i, n)
        ensures n !in r.plans[j]
      {
        assert Covers(s, i, n);
        if j == |s.plans| && n in added {
          BuildIsNew(s, session, turn, n, i);
        }
      }
    }
  }

  lemma BuildKeepsAccounted(s: State, session: string, turn: string)
    requires Ok(s)
    ensures Numbered(Next(s, Build(session, turn))) && Accounted(Next(s, Build(session, turn)))
  {
    var r, ids := Next(s, Build(session, turn)), Due(s.waits, session, turn);
    if session !in s.open && ids != {} {
      forall x, i: nat | x in s.waits && Covers(r, i, s.serial[x])
        ensures s.waits[x].consumed
                || (InPlan(r, s.waits[x].session, x) && r.open[s.waits[x].session].number == i)
      {
        if i < |s.plans| {
          assert Covers(s, i, s.serial[x]);
        } else {
          assert s.serial[x] in Serials(s.serial, ids);
        }
      }
    }
  }

  lemma ChangeKeepsOk(s: State, now: Waits, registered: Option<string>)
    requires Ok(s)
    ensures Ok(Next(s, Change(now, registered)))
  {
    var r := Next(s, Change(now, registered));
    if Derives(now, s.waits, registered) {
      forall x, i: nat | x in now && Covers(r, i, r.serial[x])
        ensures now[x].consumed || (InPlan(r, now[x].session, x) && r.open[now[x].session].number == i)
      {
        assert Covers(s, i, r.serial[x]);
        assert registered != Some(x);
      }
      SamePlans(s, r);
    }
  }

  /** Plans stay apart if none was built; more of them may have failed. */
  lemma SamePlans(s: State, r: State)
    requires Apart(s) && r.plans == s.plans && s.givenUp <= r.givenUp
    ensures Apart(r)
  {
    forall i: nat, j: nat, n: nat | i < j < |r.plans| && Covers(r, i, n)
      ensures n !in r.plans[j]
    {
      assert Covers(s, i, n);
    }
  }

  lemma CloseKeepsOk(s: State, session: string)
    requires Ok(s)
    ensures Ok(Next(s, Close(session)))
  {
    if session in s.open {
      var r := Next(s, Close(session));
      forall x, i: nat | x in r.waits && Covers(r, i, r.serial[x])
        ensures r.waits[x].consumed || (InPlan(r, r.waits[x].session, x) && r.open[r.waits[x].session].number == i)
      {
        assert Covers(s, i, s.serial[x]);
      }
      SamePlans(s, r);
    }
  }

  lemma GiveUpKeepsOk(s: State, session: string)
    requires Ok(s)
    ensures Ok(Next(s, GiveUp(session)))
  {
    if session in s.open {
      var r := Next(s, GiveUp(session));
      forall x, i: nat | x in r.waits && Covers(r, i, r.serial[x])
        ensures r.waits[x].consumed || (InPlan(r, r.waits[x].session, x) && r.open[r.waits[x].session].number == i)
      {
        assert Covers(s, i, s.serial[x]);
      }
      SamePlans(s, r);
    }
  }

  lemma StepKeepsOk(s: State, step: Step)
    requires Ok(s)
    ensures Ok(Next(s, step))
  {
    match step
    case Change(now, registered) => ChangeKeepsOk(s, now, registered);
    case Build(session, turn) =>
      BuildKeepsApart(s, session, turn);
      BuildKeepsAccounted(s, session, turn);
    case Close(session) => CloseKeepsOk(s, session);
    case GiveUp(session) => GiveUpKeepsOk(s, session);
  }

  lemma {:induction false} RunKeepsOk(s: State, steps: seq<Step>)
    requires Ok(s)
    ensures Ok(Run(s, steps))
    decreases |steps|
  {
    if steps != [] {
      StepKeepsOk(s, steps[0]);
      RunKeepsOk(Next(s, steps[0]), steps[1..]);
    }
  }

  /** Over every run two plans share a registration only if the wait for the earlier one failed, and there are no more
      plans than registrations and failed waits: the loop that builds plans ends unless Workers keep registering. */
  lemma PlannedOnceUnlessGivenUp(steps: seq<Step>, i: nat, j: nat, n: nat)
    ensures var s := Run(START, steps);
            && (i < j < |s.plans| && n in s.plans[i] && n in s.plans[j] ==> i in s.givenUp)
            && |s.plans| <= s.next + |s.givenUp|
  {
    RunKeepsOk(START, steps);
    var s := Run(START, steps);
    if i < j < |s.plans| && n in s.plans[i] && n in s.plans[j] {
      assert !Covers(s, i, n);
    }
    forall i: nat, j: nat, n: nat | i < j < |s.plans| && i !in s.givenUp && n in s.plans[i]
      ensures n !in s.plans[j]
    {
      assert Covers(s, i, n);
    }
    KeptSize(s.plans, s.givenUp);
    assert Before(s.givenUp, |s.plans|) == s.givenUp;
    forall n | n in Kept(s.plans, s.givenUp)
      ensures n < s.next
    {
      var i := KeptFrom(s.plans, s.givenUp, n);
      assert Covers(s, i, n);
    }
    BelowSize(Kept(s.plans, s.givenUp), s.next);
  }

  /** Building a plan now would put a registration into it that is in a plan whose wait failed. */
  ghost predicate Repeats(s: State, step: Step) {
    && step.Build? && step.session !in s.open
    && exists i, n :: i in s.givenUp && i < |s.plans| && n in s.plans[i]
                      && n in Serials(s.serial, Due(s.waits, step.session, step.turn))
  }

  /** A new plan shares a registration with an earlier one exactly when it shares one with a plan whose wait failed. */
  lemma BuildRepeatsIff(s: State, session: string, turn: string)
    requires Ok(s) && session !in s.open && Due(s.waits, session, turn) != {}
    ensures var added := Serials(s.serial, Due(s.waits, session, turn));
            (exists i, n :: 0 <= i < |s.plans| && n in s.plans[i] && n in added)
            <==> (exists i, n :: i in s.givenUp && i < |s.plans| && n in s.plans[i] && n in added)
  {
    var added := Serials(s.serial, Due(s.waits, session, turn));
    forall i: nat, n: nat | i < |s.plans| && n in s.plans[i] && n in added
      ensures i in s.givenUp
    {
      BuildIsNew(s, session, turn, n, i);
    }
  }

  /** No registration is in two plans. */
  ghost predicate NoneTwice(plans: seq<set<nat>>) {
    forall i: nat, j: nat, n: nat :: i < j < |plans| && n in plans[i] ==> n !in plans[j]
  }

  lemma StepKeepsNoneTwiceIff(s: State, step: Step)
    requires Ok(s) && NoneTwice(s.plans)
    ensures NoneTwice(Next(s, step).plans) <==> !Repeats(s, step)
    ensures s.plans <= Next(s, step).plans
  {
    if step.Build? && step.session !in s.open && Due(s.waits, step.session, step.turn) != {} {
      var added := Serials(s.serial, Due(s.waits, step.session, step.turn));
      var r := Next(s, step);
      BuildRepeatsIff(s, step.session, step.turn);
      assert r.plans[|s.plans|] == added;
      if Repeats(s, step) {
        var i, n :| 0 <= i < |s.plans| && n in s.plans[i] && n in added;
        assert r.plans[i] == s.plans[i];
      }
    }
  }

  ghost predicate NeverRepeats(s: State, steps: seq<Step>)
    decreases |steps|
  {
    steps == [] || (!Repeats(s, steps[0]) && NeverRepeats(Next(s, steps[0]), steps[1..]))
  }

  lemma {:induction false} PlansGrow(s: State, steps: seq<Step>)
    ensures s.plans <= Run(s, steps).plans
    decreases |steps|
  {
    if steps != [] {
      PlansGrow(Next(s, steps[0]), steps[1..]);
    }
  }

  /** Over every run no registration is in two plans if and only if no plan is built with somebody who is in a plan
      whose wait failed. */
  lemma {:induction false} PlannedOnceIff(s: State, steps: seq<Step>)
    requires Ok(s) && NoneTwice(s.plans)
    ensures NoneTwice(Run(s, steps).plans) <==> NeverRepeats(s, steps)
    decreases |steps|
  {
    if steps != [] {
      var n := Next(s, steps[0]);
      StepKeepsNoneTwiceIff(s, steps[0]);
      StepKeepsOk(s, steps[0]);
      if NoneTwice(n.plans) {
        PlannedOnceIff(n, steps[1..]);
      } else {
        PlansGrow(n, steps[1..]);
        StaysTwice(n.plans, Run(n, steps[1..]).plans);
      }
    }
  }

  lemma StaysTwice(plans: seq<set<nat>>, more: seq<set<nat>>)
    requires plans <= more && !NoneTwice(plans)
    ensures !NoneTwice(more)
  {
    var i: nat, j: nat, n: nat :| i < j < |plans| && n in plans[i] && n in plans[j];
    assert more[i] == plans[i] && more[j] == plans[j];
  }

  /** A run in which a registration is in two plans: the wait for the first one fails. */
  lemma GivenUpIsPlannedAgain(id: string, session: string, turn: string)
    ensures var w := map[id := Wait(session, turn, true, false)];
            var s := Run(START, [Change(w, Some(id)), Build(session, turn), GiveUp(session), Build(session, turn)]);
            s.plans == [{0}, {0}] && s.givenUp == {0} && s.next == 1
  {
    var w := map[id := Wait(session, turn, true, false)];
    var steps := [Change(w, Some(id)), Build(session, turn), GiveUp(session), Build(session, turn)];
    var first := Next(START, Change(w, Some(id)));
    FirstPlan(id, session, turn);
    var planned := Next(first, Build(session, turn));
    var again := Next(planned, GiveUp(session));
    assert Serials(again.serial, {id}) == {0} && Due(w, session, turn) == {id};
    RunFour(START, steps);
  }

  lemma FirstPlan(id: string, session: string, turn: string)
    ensures var w := map[id := Wait(session, turn, true, false)];
            var s := Next(Next(START, Change(w, Some(id))), Build(session, turn));
            && s == State(w, map[session := Open({id}, 0)], map[id := 0], 1, [{0}], {})
            && Due(w, session, turn) == {id} && Serials(map[id := 0], {id}) == {0}
  {
    var w := map[id := Wait(session, turn, true, false)];
    assert Due(w, session, turn) == {id};
    var serial: map<string, nat> := map[id := 0];
    assert serial[id] in Serials(serial, {id});
    assert Serials(serial, {id}) == {0};
    var first := Next(START, Change(w, Some(id)));
    assert first == State(w, map[], serial, 1, [], {});
    assert Next(first, Build(session, turn)).plans == [{0}];
  }

  lemma RunFour(s: State, steps: seq<Step>)
    requires |steps| == 4
    ensures Run(s, steps) == Next(Next(Next(Next(s, steps[0]), steps[1]), steps[2]), steps[3])
  {
    var two := steps[1..][1..];
    assert two == [steps[2], steps[3]] && two[1..] == [steps[3]] && two[1..][1..] == [];
    assert forall t :: Run(t, two) == Next(Next(t, steps[2]), steps[3]) by {
      forall t
        ensures Run(t, two) == Next(Next(t, steps[2]), steps[3])
      {
        assert Run(Next(t, two[0]), two[1..]) == Next(Next(t, two[0]), two[1]);
      }
    }
    assert Run(s, steps) == Run(Next(s, steps[0]), steps[1..]);
    assert Run(Next(s, steps[0]), steps[1..]) == Run(Next(Next(s, steps[0]), steps[1]), two);
  }

  /** The registrations in plans whose wait did not fail. */
  function Kept(plans: seq<set<nat>>, gone: set<nat>): set<nat> {
    if plans == [] then {}
    else
      var last := |plans| - 1;
      Kept(plans[..last], gone) + (if last in gone then {} else plans[last])
  }

  lemma {:induction false} KeptFrom(plans: seq<set<nat>>, gone: set<nat>, n: nat) returns (i: nat)
    requires n in Kept(plans, gone)
    ensures i < |plans| && i !in gone && n in plans[i]
  {
    i := |plans| - 1;
    if i in gone || n !in plans[i] {
      i := KeptFrom(plans[..i], gone, n);
    }
  }

  function Before(gone: set<nat>, k: nat): set<nat> {
    set i | i in gone && i < k
  }

  lemma BeforeNext(gone: set<nat>, k: nat)
    ensures |Before(gone, k + 1)| == |Before(gone, k)| + (if k in gone then 1 else 0)
  {
    assert Before(gone, k + 1) == Before(gone, k) + (if k in gone then {k} else {});
  }

  ghost predicate NoneShared(plans: seq<set<nat>>, gone: set<nat>) {
    && (forall i :: 0 <= i < |plans| ==> plans[i] != {})
    && (forall i: nat, j: nat, n: nat :: i < j < |plans| && i !in gone && n in plans[i] ==> n !in plans[j])
  }

  lemma FrontShares(plans: seq<set<nat>>, gone: set<nat>)
    requires NoneShared(plans, gone) && plans != []
    ensures NoneShared(plans[..|plans| - 1], gone)
    ensures Kept(plans[..|plans| - 1], gone) !! plans[|plans| - 1] && |plans[|plans| - 1]| > 0
  {
    var kept, last := Kept(plans[..|plans| - 1], gone), plans[|plans| - 1];
    forall n | n in kept
      ensures n !in last
    {
      var i := KeptFrom(plans[..|plans| - 1], gone, n);
      assert plans[i] == plans[..|plans| - 1][i];
    }
  }

  lemma {:induction false} KeptSize(plans: seq<set<nat>>, gone: set<nat>)
    requires NoneShared(plans, gone)
    ensures |plans| <= |Kept(plans, gone)| + |Before(gone, |plans|)|
    decreases |plans|
  {
    if plans != [] {
      var last: nat := |plans| - 1;
      FrontShares(plans, gone);
      KeptSize(plans[..last], gone);
      BeforeNext(gone, last);
    }
  }

  lemma {:induction false} BelowSize(ns: set<nat>, n: nat)
    requires forall k :: k in ns ==> k < n
    ensures |ns| <= n
    decreases n
  {
    if n == 0 {
      assert ns == {};
    } else {
      var last: nat := n - 1;
      BelowSize(ns - {last}, last);
      assert ns <= (ns - {last}) + {last};
    }
  }

  // --------------------------------------------------- consumed but unplanned

  predicate Planned(s: State, n: nat) {
    exists i :: 0 <= i < |s.plans| && n in s.plans[i]
  }

  /** The registration counts as waited for, or will when an open plan closes. */
  ghost predicate Marked(s: State, x: string)
    requires x in s.waits
  {
    s.waits[x].consumed || exists session :: InPlan(s, session, x)
  }

  /** Nobody is passed over: what is consumed, or will be when an open plan closes, was there when a plan was built
      from it. */
  ghost predicate NobodySkipped(s: State)
    requires Numbered(s)
  {
    forall x :: x in s.waits && Marked(s, x) ==> Planned(s, s.serial[x])
  }

  /** The step registers a Worker under an id that an open plan is waiting for. */
  ghost predicate Overlaps(s: State, step: Step) {
    && step.Change? && step.registered.Some? && Derives(step.now, s.waits, step.registered)
    && exists session :: InPlan(s, session, step.registered.value)
  }

  /** A registration is passed over exactly when its id is in a plan that is open at that moment: closing the
      plan marks ids, and so the new attempt, which was not there when the plan was built.  The open plan collects
      results by id, so it may take one of the new attempt, but nobody waits for that. */
  lemma SkippedIffOverlapping(s: State, step: Step)
    requires Ok(s) && NobodySkipped(s)
    ensures Ok(Next(s, step))
    ensures NobodySkipped(Next(s, step)) <==> !Overlaps(s, step)
  {
    StepKeepsOk(s, step);
    match step
    case Change(now, registered) => ChangeSkips(s, now, registered);
    case Build(session, turn) => BuildSkipsNobody(s, session, turn);
    case Close(session) => CloseSkipsNobody(s, session);
    case GiveUp(session) => GiveUpSkipsNobody(s, session);
  }

  /** Nobody is passed over, now and after every step. */
  ghost predicate NeverSkipped(s: State, steps: seq<Step>)
    requires Ok(s)
    decreases |steps|
  {
    && NobodySkipped(s)
    && (steps != [] ==> (StepKeepsOk(s, steps[0]); NeverSkipped(Next(s, steps[0]), steps[1..])))
  }

  ghost predicate NeverOverlaps(s: State, steps: seq<Step>)
    decreases |steps|
  {
    steps == [] || (!Overlaps(s, steps[0]) && NeverOverlaps(Next(s, steps[0]), steps[1..]))
  }

  /** Over every run nobody is ever passed over if and only if nobody is registered under an id of an open plan. */
  lemma {:induction false} NeverSkippedIff(s: State, steps: seq<Step>)
    requires Ok(s) && NobodySkipped(s)
    ensures NeverSkipped(s, steps) <==> NeverOverlaps(s, steps)
    decreases |steps|
  {
    if steps != [] {
      SkippedIffOverlapping(s, steps[0]);
      if !Overlaps(s, steps[0]) {
        NeverSkippedIff(Next(s, steps[0]), steps[1..]);
      }
    }
  }

  /** A run in which a registration is passed over: it replaces the Worker of an open plan.  In the end it counts as
      waited for, and no plan was or will be built from it. */
  lemma SkippedFromStart(id: string, session: string, turn: string)
    ensures var w := map[id := Wait(session, turn, true, false)];
            var s := Run(START, [Change(w, Some(id)), Build(session, turn), Change(w, Some(id)), Close(session)]);
            && id in s.waits && s.waits[id].consumed && id in s.serial && s.serial[id] == 1
            && s.plans == [{0}] && Due(s.waits, session, turn) == {}
  {
    var w := map[id := Wait(session, turn, true, false)];
    FirstPlan(id, session, turn);
    RunFour(START, [Change(w, Some(id)), Build(session, turn), Change(w, Some(id)), Close(session)]);
  }

  lemma ChangeSkips(s: State, now: Waits, registered: Option<string>)
    requires Ok(s) && NobodySkipped(s) && Ok(Next(s, Change(now, registered)))
    ensures NobodySkipped(Next(s, Change(now, registered))) <==> !Overlaps(s, Change(now, registered))
  {
    var r := Next(s, Change(now, registered));
    if Overlaps(s, Change(now, registered)) {
      var session :| InPlan(s, session, registered.value);
      assert InPlan(r, session, registered.value);
      assert r.serial[registered.value] == s.next;
      assert !Planned(r, s.next);
    } else if Derives(now, s.waits, registered) {
      forall x | x in now && Marked(r, x)
        ensures Planned(r, r.serial[x])
      {
        assert registered != Some(x) by {
          if registered == Some(x) {
            var session :| InPlan(r, session, x);
            assert InPlan(s, session, x);
          }
        }
        StillMarked(s, r, x);
        PlannedStays(s, r, s.serial[x]);
      }
    }
  }

  /** No plan was opened and nobody consumed, so whoever is marked was marked before. */
  lemma StillMarked(s: State, r: State, x: string)
    requires x in s.waits && x in r.waits && Marked(r, x)
    requires r.waits[x].consumed ==> s.waits[x].consumed
    requires forall session :: session in r.open ==> session in s.open && r.open[session] == s.open[session]
    ensures Marked(s, x)
  {
    if !s.waits[x].consumed {
      var session :| InPlan(r, session, x);
      assert InPlan(s, session, x);
    }
  }

  lemma PlannedStays(s: State, r: State, n: nat)
    requires Planned(s, n) && s.plans <= r.plans
    ensures Planned(r, n)
  {
    var i :| 0 <= i < |s.plans| && n in s.plans[i];
    assert r.plans[i] == s.plans[i];
  }

  lemma BuildSkipsNobody(s: State, session: string, turn: string)
    requires Ok(s) && NobodySkipped(s) && Ok(Next(s, Build(session, turn)))
    ensures NobodySkipped(Next(s, Build(session, turn)))
  {
    var r := Next(s, Build(session, turn));
    forall x | x in s.waits && Marked(r, x)
      ensures Planned(r, s.serial[x])
    {
      if Marked(s, x) {
        PlannedStays(s, r, s.serial[x]);
      } else {
        var t :| InPlan(r, t, x);
        assert !InPlan(s, t, x);
        assert s.serial[x] in r.plans[|s.plans|];
      }
    }
  }

  lemma CloseSkipsNobody(s: State, session: string)
    requires Ok(s) && NobodySkipped(s) && Ok(Next(s, Close(session)))
    ensures NobodySkipped(Next(s, Close(session)))
  {
    var r := Next(s, Close(session));
    forall x | x in s.waits && Marked(r, x)
      ensures Planned(r, s.serial[x])
    {
      if r.waits[x].consumed {
        assert s.waits[x].consumed || InPlan(s, session, x);
      } else {
        StillMarked(s, r, x);
      }
      PlannedStays(s, r, s.serial[x]);
    }
  }

  lemma GiveUpSkipsNobody(s: State, session: string)
    requires Ok(s) && NobodySkipped(s) && Ok(Next(s, GiveUp(session)))
    ensures NobodySkipped(Next(s, GiveUp(session)))
  {
    var r := Next(s, GiveUp(session));
    forall x | x in s.waits && Marked(r, x)
      ensures Planned(r, s.serial[x])
    {
      StillMarked(s, r, x);
      PlannedStays(s, r, s.serial[x]);
    }
  }
}

/** The operations of the task manager as steps of the wait-plan model. */
module WaitPlansOfRegistry {
  import opened Collections
  import opened WorkerLifecycle
  import Cancellation
  import opened WorkerRegistry
  import WaitPlans

  function Everybody(m: Registry): Records {
    m.terminal + m.active
  }

  function WaitOf(t: Task): WaitPlans.Wait {
    WaitPlans.Wait(t.session, t.turn, t.join, t.waitConsumed)
  }

  function WaitsIn(all: Records): WaitPlans.Waits {
    map x | x in all :: WaitOf(all[x])
  }

  /** The set a plan is built from and the set the model calls due are the same. */
  lemma JoinedIsDue(all: Records, session: string, turn: string)
    ensures Joined(all, session, turn) == WaitPlans.Due(WaitsIn(all), session, turn)
  {
  }

  ghost predicate Fewer(now: Records, before: Records) {
    forall x :: x in now ==> x in before && WaitOf(now[x]) == WaitOf(before[x])
  }

  lemma FewerDerives(now: Records, before: Records)
    requires Fewer(now, before)
    ensures WaitPlans.Derives(WaitsIn(now), WaitsIn(before), None)
  {
  }

  /** A record changed in its own table. */
  lemma PutFewer(m: Registry, id: string, t: Task)
    requires Find(m, id).Some? && WaitOf(t) == WaitOf(Find(m, id).value)
    ensures Fewer(Everybody(Put(m, id, t)), Everybody(m))
  {
    if id in m.active {
      ActiveFewer(m.terminal, m.active, id, t);
    } else {
      TerminalFewer(m.terminal, m.active, id, t);
    }
  }

  lemma ActiveFewer(terminal: Records, active: Records, id: string, t: Task)
    requires id in active && WaitOf(t) == WaitOf(active[id])
    ensures Fewer(terminal + active[id := t], terminal + active)
  {
  }

  lemma TerminalFewer(terminal: Records, active: Records, id: string, t: Task)
    requires id !in active && id in terminal && WaitOf(t) == WaitOf(terminal[id])
    ensures Fewer(terminal[id := t] + active, terminal + active)
  {
  }

  lemma {:induction false} CleanFewer(m: Registry, c: Config, now: int, todo: seq<string>, removed: nat)
    ensures var r := CleanFrom(m, c, now, todo, removed);
            r.active == m.active && (forall x :: x in r.terminal ==> x in m.terminal && r.terminal[x] == m.terminal[x])
    decreases |todo|
  {
    if todo != [] {
      CleanFewer(m, c, now, todo[1..], removed);
      CleanFewer(Pruned(m, todo[0]), c, now, todo[1..], removed + 1);
    }
  }

  lemma FiledFewer(m: Registry, id: string, t: Task)
    requires Find(m, id).Some? && WaitOf(t) == WaitOf(Find(m, id).value)
    ensures Fewer(Everybody(Filed(m, id, t)), Everybody(m))
  {
  }

  lemma CompleteFewer(m: Registry, c: Config, id: string, status: Status, reason: string, now: int)
    ensures Fewer(Everybody(CompleteTurn(m, c, id, status, reason, now)), Everybody(m))
  {
    if CompletionOutcome(m, id, status) == Done {
      var t := Find(m, id).value;
      var last := if Terminal(t.status) then t else Moved(t, c.traceLimit, status, reason, now);
      var filed := Filed(m, id, last);
      FiledFewer(m, id, last);
      CleanFewer(filed, c, now, filed.order, 0);
    }
  }

  lemma StopFewer(m: Registry, c: Config, id: string, reason: string)
    ensures Fewer(Everybody(StopTurn(m, c, id, reason)), Everybody(m))
  {
    if id in m.active {
      StoppedFewer(m.active, c.traceLimit, Cancellation.Subtree(ParentsIn(m.active), id), {id}, reason, m.terminal);
    }
  }

  lemma StoppedFewer(
    m: Records, limit: int, ids: set<string>, roots: set<string>, reason: string, terminal: Records)
    ensures Fewer(terminal + StoppedRecords(m, limit, ids, roots, reason), terminal + m)
  {
  }

  lemma ReleaseFewer(m: Registry, c: Config, id: string)
    ensures Fewer(Everybody(ReleaseTurn(m, c, id)), Everybody(m))
  {
    var t := Find(m, id);
    if t.Some? && t.value.holdsSlot {
      PutFewer(m, id, Traced(t.value.(holdsSlot := false), c.traceLimit, "capacity_released"));
    }
  }

  lemma AcquireFewer(m: Registry, c: Config, id: string, own: bool)
    ensures Fewer(Everybody(AcquireTurn(m, c, id, own)), Everybody(m))
  {
    if id in m.active {
      var t := m.active[id];
      ActiveFewer(m.terminal, m.active, id, Traced(t, c.traceLimit, "capacity_wait"));
      ActiveFewer(m.terminal, m.active, id, Started(t, c.traceLimit));
    }
  }

  lemma TransitionFewer(m: Registry, c: Config, id: string, status: Status, reason: string, now: int)
    ensures Fewer(Everybody(Transitioned(m, c, id, status, reason, now)), Everybody(m))
  {
    if Find(m, id).Some? {
      PutFewer(m, id, Moved(Find(m, id).value, c.traceLimit, status, reason, now));
    }
  }

  lemma AttemptFewer(m: Registry, c: Config, id: string, attempt: nat)
    ensures Fewer(Everybody(AttemptSet(m, c, id, attempt)), Everybody(m))
  {
    if id in m.active {
      PutFewer(m, id, Traced(m.active[id].(attempt := attempt), c.traceLimit, "attempt_started"));
    }
  }

  lemma RegisterDerives(m: Registry, id: string, t: Task)
    requires !t.waitConsumed
    ensures WaitPlans.Derives(WaitsIn(Everybody(Registered(m, id, t))), WaitsIn(Everybody(m)), Some(id))
  {
  }

  lemma ConsumeWaits(m: Registry, c: Config, ids: set<string>)
    ensures WaitsIn(Everybody(Apply(m, c, Consume(ids)))) == WaitPlans.Waited(WaitsIn(Everybody(m)), ids)
  {
    ConsumedMerge(m.terminal, m.active, ids);
    ConsumedWaits(Everybody(m), ids);
  }

  lemma ConsumedMerge(terminal: Records, active: Records, ids: set<string>)
    ensures Consumed(terminal, ids) + Consumed(active, ids) == Consumed(terminal + active, ids)
  {
  }

  lemma ConsumedWaits(all: Records, ids: set<string>)
    ensures WaitsIn(Consumed(all, ids)) == WaitPlans.Waited(WaitsIn(all), ids)
  {
  }

  /** Every operation of the task manager but consuming a plan is a `Change`. */
  lemma OpIsChange(m: Registry, c: Config, op: Op)
    requires !op.Consume?
    ensures WaitPlans.Derives(
              WaitsIn(Everybody(Apply(m, c, op))), WaitsIn(Everybody(m)),
              if op.Register? then Some(op.id) else None)
  {
    match op
    case Register(id, session, turn, parent, join, mode, quorum, waitTimeout) =>
      RegisterDerives(m, id,
        NewTask(session, turn, parent, join, mode, quorum, waitTimeout, Attempt(m, id), c.traceLimit));
    case Transition(id, status, reason, now) => TransitionFewer(m, c, id, status, reason, now);
    case SetAttempt(id, attempt) => AttemptFewer(m, c, id, attempt);
    case Acquire(id, own) => AcquireFewer(m, c, id, own);
    case Resume(k) =>
    case Release(id) => ReleaseFewer(m, c, id);
    case Stop(id, reason) => StopFewer(m, c, id, reason);
    case Complete(id, status, reason, now) => CompleteFewer(m, c, id, status, reason, now);
    case Clean(now) => CleanFewer(m, c, now, m.order, 0);
    if !op.Register? {
      FewerDerives(Everybody(Apply(m, c, op)), Everybody(m));
    }
  }

  // ------------------------------------------------- whole runs with plans

  /** The manager together with the plans that are being waited for, by session. */
  datatype World = World(m: Registry, open: map<string, set<string>>)

  const NOBODY := World(EMPTY, map[])

  /** An operation of the manager, or a turn that builds its next plan, is done with it or fails while it waits. */
  datatype Act =
    | Manage(op: Op)
    | Plan(session: string, turn: string)
    | Finish(session: string)
    | Fail(session: string)

  /** Only a plan that is done consumes Workers. */
  ghost function Acted(w: World, c: Config, act: Act): World {
    match act
    case Manage(op) => if op.Consume? then w else w.(m := Apply(w.m, c, op))
    case Plan(session, turn) => if Builds(w, act) then w.(open := w.open[session := Joined(Everybody(w.m), session, turn)]) else w
    case Finish(session) =>
      if session in w.open then World(Apply(w.m, c, Consume(w.open[session])), w.open - {session}) else w
    case Fail(session) => w.(open := w.open - {session})
  }

  /** A turn builds a plan if it has somebody to wait for and its session waits for no other plan. */
  predicate Builds(w: World, act: Act) {
    act.Plan? && act.session !in w.open && Joined(Everybody(w.m), act.session, act.turn) != {}
  }

  ghost function Play(w: World, c: Config, acts: seq<Act>): World
    decreases |acts|
  {
    if acts == [] then w else Play(Acted(w, c, acts[0]), c, acts[1..])
  }

  ghost function StepsOf(w: World, c: Config, act: Act): seq<WaitPlans.Step> {
    match act
    case Manage(op) =>
      if op.Consume? then []
      else [WaitPlans.Change(WaitsIn(Everybody(Apply(w.m, c, op))), if op.Register? then Some(op.id) else None)]
    case Plan(session, turn) => [WaitPlans.Build(session, turn)]
    case Finish(session) => [WaitPlans.Close(session)]
    case Fail(session) => [WaitPlans.GiveUp(session)]
  }

  ghost function AllSteps(w: World, c: Config, acts: seq<Act>): seq<WaitPlans.Step>
    decreases |acts|
  {
    if acts == [] then [] else StepsOf(w, c, acts[0]) + AllSteps(Acted(w, c, acts[0]), c, acts[1..])
  }

  ghost predicate Matches(w: World, s: WaitPlans.State) {
    && s.waits == WaitsIn(Everybody(w.m))
    && s.open.Keys == w.open.Keys && forall session :: session in w.open ==> s.open[session].ids == w.open[session]
  }

  predicate Registers(act: Act) {
    act.Manage? && act.op.Register?
  }

  /** One act is one step of the plan model; it counts as a plan, a registration or a failure there exactly when it
      is one. */
  ghost predicate IsStep(w: World, c: Config, act: Act, s: WaitPlans.State, r: WaitPlans.State) {
    && Matches(Acted(w, c, act), r)
    && |r.plans| == |s.plans| + (if Builds(w, act) then 1 else 0)
    && r.next == s.next + (if Registers(act) then 1 else 0)
    && |r.givenUp| <= |s.givenUp| + (if act.Fail? then 1 else 0)
  }

  lemma ManageIsStep(w: World, c: Config, op: Op, s: WaitPlans.State)
    requires Matches(w, s) && !op.Consume?
    ensures IsStep(w, c, Manage(op), s, WaitPlans.Next(s, StepsOf(w, c, Manage(op))[0]))
  {
    OpIsChange(w.m, c, op);
  }

  lemma PlanIsStep(w: World, c: Config, session: string, turn: string, s: WaitPlans.State)
    requires Matches(w, s)
    ensures IsStep(w, c, Act.Plan(session, turn), s, WaitPlans.Next(s, WaitPlans.Build(session, turn)))
  {
    JoinedIsDue(Everybody(w.m), session, turn);
  }

  lemma FinishIsStep(w: World, c: Config, session: string, s: WaitPlans.State)
    requires Matches(w, s)
    ensures IsStep(w, c, Finish(session), s, WaitPlans.Next(s, WaitPlans.Close(session)))
  {
    if session in w.open {
      ConsumeWaits(w.m, c, w.open[session]);
    }
  }

  lemma FailIsStep(w: World, c: Config, session: string, s: WaitPlans.State)
    requires Matches(w, s)
    ensures IsStep(w, c, Fail(session), s, WaitPlans.Next(s, WaitPlans.GiveUp(session)))
  {
  }

  lemma ActIsStep(w: World, c: Config, act: Act, s: WaitPlans.State)
    requires Matches(w, s)
    ensures IsStep(w, c, act, s, WaitPlans.Run(s, StepsOf(w, c, act)))
  {
    if StepsOf(w, c, act) != [] {
      RunOne(s, StepsOf(w, c, act)[0]);
    }
    match act
    case Manage(op) =>
      if !op.Consume? {
        ManageIsStep(w, c, op, s);
      }
    case Plan(session, turn) => PlanIsStep(w, c, session, turn, s);
    case Finish(session) => FinishIsStep(w, c, session, s);
    case Fail(session) => FailIsStep(w, c, session, s);
  }

  lemma RunOne(s: WaitPlans.State, step: WaitPlans.Step)
    ensures WaitPlans.Run(s, [step]) == WaitPlans.Next(s, step)
  {
    assert [step][1..] == [];
  }

  lemma {:induction false} RunConcat(s: WaitPlans.State, a: seq<WaitPlans.Step>, b: seq<WaitPlans.Step>)
    ensures WaitPlans.Run(s, a + b) == WaitPlans.Run(WaitPlans.Run(s, a), b)
    decreases |a|
  {
    if a == [] {
      assert a + b == b;
    } else {
      assert (a + b)[1..] == a[1..] + b;
      RunConcat(WaitPlans.Next(s, a[0]), a[1..], b);
    }
  }

  ghost function PlansBuilt(w: World, c: Config, acts: seq<Act>): nat
    decreases |acts|
  {
    if acts == [] then 0
    else (if Builds(w, acts[0]) then 1 else 0) + PlansBuilt(Acted(w, c, acts[0]), c, acts[1..])
  }

  function Registrations(acts: seq<Act>): nat {
    if acts == [] then 0 else (if Registers(acts[0]) then 1 else 0) + Registrations(acts[1..])
  }

  function Failures(acts: seq<Act>): nat {
    if acts == [] then 0 else (if acts[0].Fail? then 1 else 0) + Failures(acts[1..])
  }

  /** Every run of the manager with plans is a run of the plan model. */
  lemma {:induction false} PlayIsRun(w: World, c: Config, acts: seq<Act>, s: WaitPlans.State)
    requires Matches(w, s)
    ensures var r := WaitPlans.Run(s, AllSteps(w, c, acts));
            && Matches(Play(w, c, acts), r)
            && |r.plans| == |s.plans| + PlansBuilt(w, c, acts)
            && r.next == s.next + Registrations(acts)
            && |r.givenUp| <= |s.givenUp| + Failures(acts)
    decreases |acts|
  {
    if acts != [] {
      var first, rest := StepsOf(w, c, acts[0]), AllSteps(Acted(w, c, acts[0]), c, acts[1..]);
      ActIsStep(w, c, acts[0], s);
      RunConcat(s, first, rest);
      PlayIsRun(Acted(w, c, acts[0]), c, acts[1..], WaitPlans.Run(s, first));
    }
  }

  /** So over every run of the manager the turns build no more plans than Workers were registered and waits failed. */
  lemma PlansAreFew(c: Config, acts: seq<Act>)
    ensures PlansBuilt(NOBODY, c, acts) <= Registrations(acts) + Failures(acts)
  {
    assert WaitsIn(Everybody(EMPTY)) == map[];
    PlayIsRun(NOBODY, c, acts, WaitPlans.START);
    WaitPlans.PlannedOnceUnlessGivenUp(AllSteps(NOBODY, c, acts), 0, 0, 0);
  }
}
