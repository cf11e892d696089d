/** The state of the task manager as a value, what each of its operations does to it, and what every run keeps.

    Each operation is related to the smaller models it drives: one step of the
    slot accounting (`Capacity`), one step of the finished-Worker store
    (`Retention`) and one legal move of a Worker's record (`WorkerLifecycle`). */
module WorkerRegistry {
  import opened Collections
  import opened WorkerLifecycle
  import Cancellation
  import Capacity
  import Retention

  type Records = map<string, Task>

  datatype Config = Config(caps: Capacity.Caps, limits: Retention.Limits, traceLimit: int)

  /** `leaked` is auxiliary: slots per session that were counted but that nobody can release any more. */
  datatype Registry = Registry(
    active: Records, terminal: Records, order: seq<string>,
    total: int, bySession: map<string, nat>, waiters: seq<Capacity.Waiter>, leaked: map<string, nat>,
    cancellations: nat)

  const EMPTY := Registry(map[], map[], [], 0, map[], [], map[], 0)

  // ---------------------------------------------------------------- views

  function Find(m: Registry, id: string): Option<Task> {
    if id in m.active then Some(m.active[id]) else if id in m.terminal then Some(m.terminal[id]) else None
  }

  /** Who holds an execution slot, and for which session. */
  function HeldIn(all: Records): map<string, string> {
    map id | id in all && all[id].holdsSlot :: all[id].session
  }

  function ParentsIn(active: Records): Cancellation.Parents {
    map id | id in active :: active[id].parent
  }

  function FinishTimes(terminal: Records): map<string, int> {
    map id | id in terminal && terminal[id].completedAt.Some? :: terminal[id].completedAt.value
  }

  function Finished(m: Registry): Retention.Finished {
    Retention.Finished(m.order, FinishTimes(m.terminal))
  }

  function Scheduler(m: Registry): Capacity.State {
    Capacity.State(Capacity.Slots(m.total, m.bySession, HeldIn(m.terminal + m.active), m.leaked), m.waiters)
  }

  /** An active Worker has not finished. */
  ghost predicate Live(active: Records) {
    forall id :: id in active ==> !Terminal(active[id].status)
  }

  ghost predicate RecordsOk(m: Registry, c: Config) {
    && m.active.Keys !! m.terminal.Keys
    && (forall id :: id in m.active ==> Recorded(m.active[id], c.traceLimit) && !Terminal(m.active[id].status))
    && (forall id :: id in m.terminal ==>
          && Recorded(m.terminal[id], c.traceLimit) && Terminal(m.terminal[id].status)
          && m.terminal[id].completedAt.Some?)
  }

  ghost predicate SchedulerOk(m: Registry, c: Config) {
    Capacity.Exact(Scheduler(m).slots, c.caps) && Capacity.NoLostWakeup(Scheduler(m), c.caps)
  }

  ghost predicate TablesOk(m: Registry, c: Config) {
    && c.traceLimit >= 1
    && RecordsOk(m, c)
    && Retention.Ok(Finished(m), c.limits)
    && SchedulerOk(m, c)
  }

  /** What every reachable state satisfies: the tables are in order, and requests to stop come to an end. */
  ghost predicate Inv(m: Registry, c: Config) {
    TablesOk(m, c) && Cancellation.Acyclic(ParentsIn(m.active))
  }

  // ----------------------------------------------------------- operations

  /** Puts a record back into the table it came from. */
  function Put(m: Registry, id: string, t: Task): Registry {
    if id in m.active then m.(active := m.active[id := t]) else m.(terminal := m.terminal[id := t])
  }

  function Leak(m: Registry, id: string): map<string, nat> {
    var t := Find(m, id);
    if t.Some? && t.value.holdsSlot then Capacity.Bump(m.leaked, t.value.session) else m.leaked
  }

  /** Registers `t` under `id`; an earlier record of that id is dropped, and with it any slot it still held. */
  function Registered(m: Registry, id: string, t: Task): Registry {
    m.(active := m.active[id := t], terminal := m.terminal - {id}, order := Retention.Drop(m.order, id),
       leaked := Leak(m, id), waiters := Capacity.Disowned(m.waiters, id))
  }

  function Attempt(m: Registry, id: string): nat {
    var previous := Find(m, id);
    if previous.Some? then previous.value.attempt + 1 else 1
  }

  function Pruned(m: Registry, id: string): Registry {
    m.(terminal := m.terminal - {id}, order := Retention.Drop(m.order, id), leaked := Leak(m, id))
  }

  /** The clean-up pass over the rest `todo` of a snapshot, `removed` entries having gone already. */
  function CleanFrom(m: Registry, c: Config, now: int, todo: seq<string>, removed: nat): Registry
    decreases |todo|
  {
    if todo == [] then m
    else
      var id := todo[0];
      var at := FinishTimes(m.terminal);
      var expired := id in at && now - at[id] > c.limits.ttl;
      if expired || |m.order| - removed > c.limits.limit
      then CleanFrom(Pruned(m, id), c, now, todo[1..], removed + 1)
      else CleanFrom(m, c, now, todo[1..], removed)
  }

  function Cleaned(m: Registry, c: Config, now: int): Registry {
    CleanFrom(m, c, now, m.order, 0)
  }

  /** Moves a Worker to the finished ones; `t` is its final record. */
  function Filed(m: Registry, id: string, t: Task): Registry {
    m.(active := m.active - {id}, terminal := m.terminal[id := t], order := Retention.Drop(m.order, id) + [id])
  }

  /** Takes a slot for `id`, whose record becomes `t`. */
  function Admitted(m: Registry, id: string, t: Task): Registry {
    m.(active := m.active[id := t], total := m.total + 1, bySession := Capacity.Bump(m.bySession, t.session),
       leaked := Leak(m, id))
  }

  /** The record of an admitted Worker; one that cannot start running keeps its slot until the release. */
  function Started(t: Task, limit: int): Task {
    var held := t.(holdsSlot := true);
    if MayFollow(t.status, Running) then Moved(held, limit, Running, "capacity_acquired", 0) else held
  }

  /** Parks `id`, whose record becomes `t`. */
  function ParkedBehind(m: Registry, id: string, t: Task, own: bool): Registry {
    m.(active := m.active[id := t], waiters := m.waiters + [Capacity.Waiter(id, t.session, own, false)])
  }

  /** Gives back the slot of `id`, whose record becomes `t`, and wakes everybody who is parked. */
  function Released(m: Registry, id: string, t: Task): Registry {
    Put(m, id, t).(
      total := Max(0, m.total - 1),
      bySession := m.bySession[t.session := Max(0, CountAt(m.bySession, t.session) - 1)],
      waiters := Capacity.WakeAll(m.waiters))
  }

  /** Cancels whoever among `ids` is parked, with the future of the present registration. */
  function CancelWaiters(w: seq<Capacity.Waiter>, ids: set<string>): (r: seq<Capacity.Waiter>)
    ensures |r| == |w|
    ensures forall i :: 0 <= i < |w| ==> r[i] == w[i].(done := w[i].done || (w[i].own && w[i].id in ids))
  {
    if w == [] then []
    else [w[0].(done := w[0].done || (w[0].own && w[0].id in ids))] + CancelWaiters(w[1..], ids)
  }

  function StopReason(m: Records, roots: set<string>, reason: string, id: string): string
    requires id in m
  {
    if id in roots then reason else "parent_cancelled:" + m[id].parent
  }

  function StoppedRecords(m: Records, limit: int, ids: set<string>, roots: set<string>, reason: string): Records {
    map id | id in m :: if id in ids then Stopped(m[id], limit, StopReason(m, roots, reason, id)) else m[id]
  }

  /** Every Worker of `ids` is asked to stop: the `roots` for the given reason, the others because of their parent. */
  function StoppedAll(m: Registry, c: Config, ids: set<string>, roots: set<string>, reason: string): Registry {
    m.(active := StoppedRecords(m.active, c.traceLimit, ids, roots, reason),
       waiters := CancelWaiters(m.waiters, ids),
       cancellations := m.cancellations + |ids|)
  }

  function Consumed(r: Records, ids: set<string>): Records {
    map id | id in r :: if id in ids then r[id].(waitConsumed := true) else r[id]
  }

  // -------------------------------------------- what the operations keep

  lemma HeldAfterUpdate(all: Records, id: string, t: Task)
    ensures HeldIn(all[id := t]) == if t.holdsSlot then HeldIn(all)[id := t.session] else HeldIn(all) - {id}
  {
  }

  lemma HeldAfterRemoval(all: Records, id: string)
    ensures HeldIn(all - {id}) == HeldIn(all) - {id}
  {
  }

  lemma MergeAfterUpdate(terminal: Records, active: Records, id: string, t: Task)
    ensures terminal + active[id := t] == (terminal + active)[id := t]
    ensures (terminal - {id}) + active[id := t] == (terminal + active)[id := t]
    ensures id !in active ==> terminal[id := t] + active == (terminal + active)[id := t]
  {
  }

  predicate SameWorker(a: Task, b: Task) {
    a.session == b.session && a.parent == b.parent && a.completedAt == b.completedAt
  }

  /** The same Workers, with the same slots. */
  ghost predicate Alike(a: Records, b: Records) {
    a.Keys == b.Keys && forall id :: id in a ==> SameWorker(a[id], b[id]) && a[id].holdsSlot == b[id].holdsSlot
  }

  lemma AlikeViews(a: Records, b: Records)
    requires Alike(a, b)
    ensures HeldIn(a) == HeldIn(b) && FinishTimes(a) == FinishTimes(b) && ParentsIn(a) == ParentsIn(b)
  {
  }

  lemma AlikeMerge(a: Records, b: Records, a2: Records, b2: Records)
    requires Alike(a, a2) && Alike(b, b2)
    ensures Alike(a + b, a2 + b2)
  {
  }

  lemma HeldUnchanged(all: Records, id: string, t: Task)
    requires id in all && t.session == all[id].session && t.holdsSlot == all[id].holdsSlot
    ensures HeldIn(all[id := t]) == HeldIn(all)
  {
  }

  lemma ParentsAfterUpdate(active: Records, id: string, t: Task)
    ensures ParentsIn(active[id := t]) == ParentsIn(active)[id := t.parent]
    ensures id in active && active[id].parent == t.parent ==> ParentsIn(active[id := t]) == ParentsIn(active)
  {
  }

  lemma FinishTimesAfterRemoval(terminal: Records, id: string)
    ensures FinishTimes(terminal - {id}) == FinishTimes(terminal) - {id}
  {
  }

  /** A record replaced by one of the same Worker, with the same slot, changes nothing but itself. */
  lemma PutIsLocal(m: Registry, id: string, t: Task)
    requires id in m.active && t.session == m.active[id].session
    requires t.holdsSlot == m.active[id].holdsSlot && t.parent == m.active[id].parent
    ensures Scheduler(Put(m, id, t)) == Scheduler(m)
    ensures Finished(Put(m, id, t)) == Finished(m)
    ensures ParentsIn(Put(m, id, t).active) == ParentsIn(m.active)
  {
    MergeAfterUpdate(m.terminal, m.active, id, t);
    HeldUnchanged(m.terminal + m.active, id, t);
    ParentsAfterUpdate(m.active, id, t);
  }

  lemma PutKeepsInv(m: Registry, c: Config, id: string, t: Task)
    requires TablesOk(m, c) && id in m.active
    requires Recorded(t, c.traceLimit) && !Terminal(t.status)
    requires t.session == m.active[id].session
    requires t.holdsSlot == m.active[id].holdsSlot && t.parent == m.active[id].parent
    ensures TablesOk(Put(m, id, t), c)
  {
    PutIsLocal(m, id, t);
  }

  /** Dropping a record is, for the accounts, forgetting its slot. */
  lemma DropProjects(m: Registry, id: string, all: Records)
    requires m.active.Keys !! m.terminal.Keys
    requires HeldIn(all) == HeldIn(m.terminal + m.active) - {id}
    ensures Capacity.Slots(m.total, m.bySession, HeldIn(all), Leak(m, id))
            == Capacity.Forgotten(Scheduler(m).slots, id)
  {
    var held := HeldIn(m.terminal + m.active);
    if id !in held {
      assert held - {id} == held;
    }
  }

  lemma RegisterProjects(m: Registry, c: Config, id: string, t: Task)
    requires m.active.Keys !! m.terminal.Keys && !t.holdsSlot
    ensures Scheduler(Registered(m, id, t)) == Capacity.Apply(Scheduler(m), c.caps, Capacity.Reregister(id))
    ensures Finished(Registered(m, id, t)) == Retention.Apply(Finished(m), c.limits, Retention.Reregister(id))
    ensures ParentsIn(Registered(m, id, t).active) == ParentsIn(m.active)[id := t.parent]
  {
    var all := m.terminal + m.active;
    MergeAfterUpdate(m.terminal, m.active, id, t);
    HeldAfterUpdate(all, id, t);
    DropProjects(m, id, all[id := t]);
    FinishTimesAfterRemoval(m.terminal, id);
    ParentsAfterUpdate(m.active, id, t);
  }

  lemma RegisterKeepsInv(m: Registry, c: Config, id: string, t: Task)
    requires TablesOk(m, c)
    requires Recorded(t, c.traceLimit) && !Terminal(t.status) && !t.holdsSlot
    ensures TablesOk(Registered(m, id, t), c)
  {
    RegisterProjects(m, c, id, t);
    Capacity.StepKeepsAccounts(Scheduler(m), c.caps, Capacity.Reregister(id));
    Retention.StepKeepsOk(Finished(m), c.limits, Retention.Reregister(id));
    RegisterKeepsRecords(m, c, id, t);
  }

  lemma RegisterKeepsRecords(m: Registry, c: Config, id: string, t: Task)
    requires RecordsOk(m, c)
    requires Recorded(t, c.traceLimit) && !Terminal(t.status)
    ensures RecordsOk(Registered(m, id, t), c)
  {
  }

  lemma PruneProjects(m: Registry, c: Config, id: string)
    requires m.active.Keys !! m.terminal.Keys && id !in m.active
    ensures Scheduler(Pruned(m, id)) == Capacity.Apply(Scheduler(m), c.caps, Capacity.Forget(id))
    ensures FinishTimes(Pruned(m, id).terminal) == FinishTimes(m.terminal) - {id}
  {
    var all := m.terminal + m.active;
    HeldAfterRemoval(all, id);
    assert (m.terminal - {id}) + m.active == all - {id};
    DropProjects(m, id, all - {id});
  }

  lemma {:induction false} DropFromMiddle(a: seq<string>, b: seq<string>)
    requires b != [] && b[0] !in a
    ensures Retention.Drop(a + b, b[0]) == a + b[1..]
  {
    if a == [] {
      assert a + b == b && a + b[1..] == b[1..];
    } else {
      DropFromMiddle(a[1..], b);
      assert (a + b)[1..] == a[1..] + b;
    }
  }

  /** The entries of a snapshot that a pass at `now` finds expired. */
  ghost predicate ExpiredAre(m: Registry, c: Config, now: int, todo: seq<string>, expired: set<string>) {
    var at := FinishTimes(m.terminal);
    forall id :: id in todo ==> (id in expired <==> id in at && now - at[id] > c.limits.ttl)
  }

  ghost predicate OrderOk(m: Registry) {
    Distinct(m.order) && FinishTimes(m.terminal).Keys == Elements(m.order)
  }

  lemma PruneKeepsOrder(m: Registry, kept: seq<string>, todo: seq<string>)
    requires OrderOk(m) && todo != [] && m.order == kept + todo
    ensures OrderOk(Pruned(m, todo[0])) && Pruned(m, todo[0]).order == kept + todo[1..]
    ensures todo[0] !in Pruned(m, todo[0]).order
    ensures FinishTimes(Pruned(m, todo[0]).terminal) == FinishTimes(m.terminal) - {todo[0]}
  {
    var id := todo[0];
    forall i | 0 <= i < |kept|
      ensures kept[i] != id
    {
      assert m.order[i] == kept[i] && m.order[|kept|] == id;
    }
    DropFromMiddle(kept, todo);
    Retention.DropFacts(m.order, id);
    FinishTimesAfterRemoval(m.terminal, id);
    assert id !in Elements(Pruned(m, id).order);
  }

  lemma PruneKeepsExpired(m: Registry, c: Config, now: int, kept: seq<string>, todo: seq<string>, expired: set<string>)
    requires OrderOk(m) && todo != [] && m.order == kept + todo && ExpiredAre(m, c, now, todo, expired)
    ensures ExpiredAre(Pruned(m, todo[0]), c, now, todo[1..], expired)
    ensures ExpiredAre(m, c, now, todo[1..], expired)
  {
    PruneKeepsOrder(m, kept, todo);
    var p := Pruned(m, todo[0]);
    forall id | id in todo[1..]
      ensures id in todo && (id in FinishTimes(m.terminal) ==> id in FinishTimes(p.terminal))
    {
      assert p.order == kept + todo[1..];
      assert id in p.order;
    }
  }

  /** On the order alone the clean-up pass is the retention model's loop. */
  lemma {:induction false} CleanIsLoop(
    m: Registry, c: Config, now: int, kept: seq<string>, todo: seq<string>, removed: nat, expired: set<string>)
    requires OrderOk(m) && m.order == kept + todo && ExpiredAre(m, c, now, todo, expired)
    ensures CleanFrom(m, c, now, todo, removed).order
            == Retention.LoopOrder(m.order, todo, expired, c.limits.limit, removed)
    decreases |todo|
  {
    if todo != [] {
      assert todo[0] in todo;
      PruneKeepsOrder(m, kept, todo);
      PruneKeepsExpired(m, c, now, kept, todo, expired);
      KeepHead(kept, todo);
      CleanIsLoop(Pruned(m, todo[0]), c, now, kept, todo[1..], removed + 1, expired);
      CleanIsLoop(m, c, now, kept + [todo[0]], todo[1..], removed, expired);
    }
  }

  /** The loop leaves what a single sweep leaves that decides entry by entry. */
  lemma {:induction false} LoopIsSweep(kept: seq<string>, todo: seq<string>, expired: set<string>, limit: int, removed: int)
    requires Distinct(kept + todo)
    ensures Retention.LoopOrder(kept + todo, todo, expired, limit, removed)
            == kept + Retention.Sweep(todo, expired, limit, |kept| + |todo| - removed)
    decreases |todo|
  {
    if todo == [] {
      assert kept + [] == kept;
    } else {
      var rest, size := todo[1..], |kept| + |todo| - removed;
      DistinctHead(kept, todo);
      DropFromMiddle(kept, todo);
      KeepHead(kept, todo);
      if todo[0] in expired || size > limit {
        LoopIsSweep(kept, rest, expired, limit, removed + 1);
      } else {
        LoopIsSweep(kept + [todo[0]], rest, expired, limit, removed);
        Associative(kept, [todo[0]], Retention.Sweep(rest, expired, limit, size));
      }
    }
  }

  lemma DistinctHead(kept: seq<string>, todo: seq<string>)
    requires todo != [] && Distinct(kept + todo)
    ensures todo[0] !in kept && Distinct(kept + todo[1..])
  {
    var all, less := kept + todo, kept + todo[1..];
    forall i | 0 <= i < |kept|
      ensures kept[i] != todo[0]
    {
      assert all[i] == kept[i] && all[|kept|] == todo[0];
    }
    forall i, j | 0 <= i < j < |less|
      ensures less[i] != less[j]
    {
      assert less[i] == all[if i < |kept| then i else i + 1];
      assert less[j] == all[if j < |kept| then j else j + 1];
    }
  }

  lemma KeepHead(kept: seq<string>, todo: seq<string>)
    requires todo != []
    ensures kept + todo == (kept + [todo[0]]) + todo[1..]
  {
  }

  lemma {:induction false} CleanRestricts(
    m: Registry, c: Config, now: int, kept: seq<string>, todo: seq<string>, removed: nat)
    requires OrderOk(m) && m.order == kept + todo
    ensures var r := CleanFrom(m, c, now, todo, removed);
            && OrderOk(r) && Elements(r.order) <= Elements(m.order)
            && FinishTimes(r.terminal) == Retention.Restrict(FinishTimes(m.terminal), r.order)
    decreases |todo|
  {
    if todo != [] {
      KeepHead(kept, todo);
      CleanRestricts(m, c, now, kept + [todo[0]], todo[1..], removed);
      PruneKeepsOrder(m, kept, todo);
      CleanRestricts(Pruned(m, todo[0]), c, now, kept, todo[1..], removed + 1);
      PruneRestricts(m, kept, todo, CleanFrom(Pruned(m, todo[0]), c, now, todo[1..], removed + 1));
    }
  }

  /** What a pass leaves after a removal, seen from before the removal. */
  lemma PruneRestricts(m: Registry, kept: seq<string>, todo: seq<string>, r: Registry)
    requires OrderOk(m) && todo != [] && m.order == kept + todo
    requires Elements(r.order) <= Elements(Pruned(m, todo[0]).order)
    requires FinishTimes(r.terminal) == Retention.Restrict(FinishTimes(Pruned(m, todo[0]).terminal), r.order)
    ensures Elements(r.order) <= Elements(m.order)
    ensures FinishTimes(r.terminal) == Retention.Restrict(FinishTimes(m.terminal), r.order)
  {
    PruneKeepsOrder(m, kept, todo);
    assert todo[0] !in Elements(Pruned(m, todo[0]).order);
    assert forall id :: id in r.order ==> id in Elements(r.order);
  }

  /** Cleaning up is one step of the retention model. */
  lemma CleanProjects(m: Registry, c: Config, now: int)
    requires OrderOk(m)
    ensures Finished(Cleaned(m, c, now)) == Retention.Swept(Finished(m), c.limits, now)
  {
    CleanOrder(m, c, now);
    assert m.order == [] + m.order;
    CleanRestricts(m, c, now, [], m.order, 0);
  }

  lemma CleanOrderLoop(m: Registry, c: Config, now: int, expired: set<string>)
    requires OrderOk(m) && expired == Retention.Expired(Finished(m), c.limits, now)
    ensures Cleaned(m, c, now).order == Retention.LoopOrder(m.order, m.order, expired, c.limits.limit, 0)
  {
    assert m.order == [] + m.order;
    CleanIsLoop(m, c, now, [], m.order, 0, expired);
  }

  lemma CleanOrder(m: Registry, c: Config, now: int)
    requires OrderOk(m)
    ensures Cleaned(m, c, now).order
            == Retention.Sweep(m.order, Retention.Expired(Finished(m), c.limits, now), c.limits.limit, |m.order|)
  {
    var expired := Retention.Expired(Finished(m), c.limits, now);
    CleanOrderLoop(m, c, now, expired);
    assert Distinct([] + m.order) && [] + m.order == m.order;
    LoopIsSweep([], m.order, expired, c.limits.limit, 0);
  }

  /** A pass over finished Workers touches nothing else and forgets the slots of those it removes. */
  lemma {:induction false} CleanKeepsAccounts(m: Registry, c: Config, now: int, todo: seq<string>, removed: nat)
    requires RecordsOk(m, c) && SchedulerOk(m, c)
    requires forall id :: id in todo ==> id !in m.active
    ensures var r := CleanFrom(m, c, now, todo, removed);
            && RecordsOk(r, c) && SchedulerOk(r, c)
            && r == m.(terminal := r.terminal, order := r.order, leaked := r.leaked)
            && (forall id :: id in r.terminal ==> id in m.terminal && r.terminal[id] == m.terminal[id])
    decreases |todo|
  {
    if todo != [] {
      var p := Pruned(m, todo[0]);
      PruneProjects(m, c, todo[0]);
      Capacity.StepKeepsAccounts(Scheduler(m), c.caps, Capacity.Forget(todo[0]));
      CleanKeepsAccounts(p, c, now, todo[1..], removed + 1);
      CleanKeepsAccounts(m, c, now, todo[1..], removed);
    }
  }

  lemma CleanKeepsInv(m: Registry, c: Config, now: int)
    requires c.traceLimit >= 1 && RecordsOk(m, c) && SchedulerOk(m, c)
    requires OrderOk(m) && |m.order| <= Max(0, c.limits.limit) + 1
    ensures TablesOk(Cleaned(m, c, now), c)
  {
    CleanProjects(m, c, now);
    Retention.SweptIsOk(Finished(m), c.limits, now);
    forall id | id in m.order
      ensures id !in m.active
    {
      assert id in Elements(m.order);
    }
    CleanKeepsAccounts(m, c, now, m.order, 0);
  }

  // -------------------------------------------------- finishing a Worker

  datatype Outcome = Done | NotFound | Illegal

  /** How completing `id` with `status` ends. */
  function CompletionOutcome(m: Registry, id: string, status: Status): Outcome {
    match Find(m, id)
    case None => NotFound
    case Some(t) => if Terminal(t.status) || MayFollow(t.status, status) then Done else Illegal
  }

  /** Completes a Worker; one that already finished only moves to the end of the order. */
  function CompleteTurn(m: Registry, c: Config, id: string, status: Status, reason: string, now: int): Registry {
    if CompletionOutcome(m, id, status) != Done then m
    else
      var t := Find(m, id).value;
      var final := if Terminal(t.status) then t else Moved(t, c.traceLimit, status, reason, now);
      Cleaned(Filed(m, id, final), c, now)
  }

  lemma FileProjects(m: Registry, c: Config, id: string, t: Task, now: int)
    requires m.active.Keys !! m.terminal.Keys && Find(m, id).Some?
    requires t.session == Find(m, id).value.session && t.holdsSlot == Find(m, id).value.holdsSlot
    requires if id in m.terminal then t == m.terminal[id] && t.completedAt.Some? else t.completedAt == Some(now)
    ensures Scheduler(Filed(m, id, t)) == Scheduler(m)
    ensures Finished(Filed(m, id, t)) == Retention.Moved(Finished(m), id, now)
  {
    var all := m.terminal + m.active;
    assert m.terminal[id := t] + (m.active - {id}) == all[id := t];
    HeldUnchanged(all, id, t);
    FileTimes(m.terminal, id, t);
  }

  lemma FileTimes(terminal: Records, id: string, t: Task)
    requires t.completedAt.Some?
    ensures FinishTimes(terminal[id := t]) == FinishTimes(terminal)[id := t.completedAt.value]
  {
  }

  lemma FileKeepsRecords(m: Registry, c: Config, id: string, t: Task)
    requires RecordsOk(m, c)
    requires Recorded(t, c.traceLimit) && Terminal(t.status) && t.completedAt.Some?
    ensures RecordsOk(Filed(m, id, t), c)
  {
  }

  /** The final record of a completion. */
  lemma FinalRecord(t: Task, c: Config, status: Status, reason: string, now: int)
    requires Recorded(t, c.traceLimit) && Terminal(status) && MayFollow(t.status, status)
    ensures var f := Moved(t, c.traceLimit, status, reason, now);
            Recorded(f, c.traceLimit) && Terminal(f.status) && f.completedAt == Some(now)
  {
    MoveKeepsRecord(t, c.traceLimit, status, reason, now);
  }

  lemma CompleteKeepsInv(m: Registry, c: Config, id: string, status: Status, reason: string, now: int)
    requires TablesOk(m, c) && Terminal(status)
    ensures TablesOk(CompleteTurn(m, c, id, status, reason, now), c)
    ensures CompletionOutcome(m, id, status) == Done ==>
              Finished(CompleteTurn(m, c, id, status, reason, now))
              == Retention.Apply(Finished(m), c.limits, Retention.Finish(id, now, now))
  {
    if CompletionOutcome(m, id, status) == Done {
      var t := Find(m, id).value;
      var final := if Terminal(t.status) then t else Moved(t, c.traceLimit, status, reason, now);
      if !Terminal(t.status) {
        FinalRecord(t, c, status, reason, now);
      }
      FileKeepsRecords(m, c, id, final);
      FileProjects(m, c, id, final, now);
      Retention.MovedFacts(Finished(m), c.limits, id, now);
      var f := Filed(m, id, final);
      CleanProjects(f, c, now);
      CleanKeepsInv(f, c, now);
    }
  }

  // --------------------------------------------------------------- slots

  lemma HeldSession(m: Registry, c: Config, id: string)
    requires m.active.Keys !! m.terminal.Keys && Find(m, id).Some?
    ensures (id in Scheduler(m).slots.held) == Find(m, id).value.holdsSlot
    ensures id in Scheduler(m).slots.held ==> Scheduler(m).slots.held[id] == Find(m, id).value.session
  {
  }

  lemma ActivePutKeepsRecords(m: Registry, c: Config, id: string, t: Task)
    requires RecordsOk(m, c) && id in m.active && Recorded(t, c.traceLimit) && !Terminal(t.status)
    ensures RecordsOk(Put(m, id, t), c)
  {
  }

  lemma TerminalPutKeepsRecords(m: Registry, c: Config, id: string, t: Task)
    requires RecordsOk(m, c) && id in m.terminal && Recorded(t, c.traceLimit)
    requires Terminal(t.status) && t.completedAt.Some?
    ensures RecordsOk(m.(terminal := m.terminal[id := t]), c)
  {
  }

  lemma PutKeepsRecords(m: Registry, c: Config, id: string, t: Task)
    requires RecordsOk(m, c) && Recorded(t, c.traceLimit)
    requires Find(m, id).Some? && t.status == Find(m, id).value.status && t.completedAt == Find(m, id).value.completedAt
    ensures RecordsOk(Put(m, id, t), c)
  {
    if id in m.active {
      ActivePutKeepsRecords(m, c, id, t);
    } else {
      TerminalPutKeepsRecords(m, c, id, t);
    }
  }

  lemma AdmitProjects(m: Registry, c: Config, id: string, t: Task)
    requires m.active.Keys !! m.terminal.Keys && id in m.active
    requires SameWorker(t, m.active[id]) && t.holdsSlot
    requires !Capacity.Blocked(Scheduler(m).slots, c.caps, t.session)
    ensures Scheduler(Admitted(m, id, t)) == Capacity.Apply(Scheduler(m), c.caps, Capacity.Acquire(id, t.session, true))
    ensures Finished(Admitted(m, id, t)) == Finished(m)
    ensures ParentsIn(Admitted(m, id, t).active) == ParentsIn(m.active)
  {
    MergeAfterUpdate(m.terminal, m.active, id, t);
    HeldAfterUpdate(m.terminal + m.active, id, t);
    ParentsAfterUpdate(m.active, id, t);
    HeldSession(m, c, id);
  }

  lemma AdmitKeepsInv(m: Registry, c: Config, id: string, t: Task)
    requires TablesOk(m, c) && id in m.active
    requires SameWorker(t, m.active[id]) && t.holdsSlot
    requires Recorded(t, c.traceLimit) && !Terminal(t.status)
    requires !Capacity.Blocked(Scheduler(m).slots, c.caps, t.session)
    ensures TablesOk(Admitted(m, id, t), c)
  {
    AdmitProjects(m, c, id, t);
    HeldSession(m, c, id);
    Capacity.StepKeepsAccounts(Scheduler(m), c.caps, Capacity.Acquire(id, t.session, true));
    ActivePutKeepsRecords(m, c, id, t);
  }

  lemma StartedIsRecorded(t: Task, limit: int)
    requires Recorded(t, limit) && !Terminal(t.status)
    ensures var r := Started(t, limit);
            && Recorded(r, limit) && !Terminal(r.status) && r.holdsSlot && SameWorker(r, t)
            && (r.status == if MayFollow(t.status, Running) then Running else t.status)
  {
    if MayFollow(t.status, Running) {
      MoveKeepsRecord(t.(holdsSlot := true), limit, Running, "capacity_acquired", 0);
    }
  }

  lemma ParkProjects(m: Registry, c: Config, id: string, t: Task, own: bool)
    requires id in m.active && SameWorker(t, m.active[id]) && t.holdsSlot == m.active[id].holdsSlot
    requires Capacity.Blocked(Scheduler(m).slots, c.caps, t.session)
    ensures Scheduler(ParkedBehind(m, id, t, own)) == Capacity.Apply(Scheduler(m), c.caps, Capacity.Acquire(id, t.session, own))
    ensures Finished(ParkedBehind(m, id, t, own)) == Finished(m)
    ensures ParentsIn(ParkedBehind(m, id, t, own).active) == ParentsIn(m.active)
  {
    PutIsLocal(m, id, t);
  }

  lemma ParkKeepsInv(m: Registry, c: Config, id: string, t: Task, own: bool)
    requires TablesOk(m, c) && id in m.active
    requires SameWorker(t, m.active[id]) && t.holdsSlot == m.active[id].holdsSlot
    requires Recorded(t, c.traceLimit) && !Terminal(t.status)
    requires Capacity.Blocked(Scheduler(m).slots, c.caps, t.session)
    ensures TablesOk(ParkedBehind(m, id, t, own), c)
  {
    ParkProjects(m, c, id, t, own);
    HeldSession(m, c, id);
    Capacity.StepKeepsAccounts(Scheduler(m), c.caps, Capacity.Acquire(id, t.session, own));
    ActivePutKeepsRecords(m, c, id, t);
  }

  lemma ReleaseProjects(m: Registry, c: Config, id: string, t: Task)
    requires m.active.Keys !! m.terminal.Keys && Find(m, id).Some?
    requires SameWorker(t, Find(m, id).value) && !t.holdsSlot && Find(m, id).value.holdsSlot
    ensures Scheduler(Released(m, id, t)) == Capacity.Apply(Scheduler(m), c.caps, Capacity.Release(id))
  {
    MergeAfterUpdate(m.terminal, m.active, id, t);
    HeldAfterUpdate(m.terminal + m.active, id, t);
    HeldSession(m, c, id);
  }

  lemma ReleaseKeepsFinished(m: Registry, id: string, t: Task)
    requires m.active.Keys !! m.terminal.Keys && Find(m, id).Some?
    requires SameWorker(t, Find(m, id).value)
    ensures Finished(Released(m, id, t)) == Finished(m)
  {
    if id in m.terminal {
      SameFinishTimes(m.terminal, id, t);
    }
  }

  lemma SameFinishTimes(terminal: Records, id: string, t: Task)
    requires id in terminal && t.completedAt == terminal[id].completedAt
    ensures FinishTimes(terminal[id := t]) == FinishTimes(terminal)
  {
  }

  lemma ReleaseKeepsInv(m: Registry, c: Config, id: string, t: Task)
    requires TablesOk(m, c) && Find(m, id).Some?
    requires SameWorker(t, Find(m, id).value) && !t.holdsSlot && Find(m, id).value.holdsSlot
    requires Recorded(t, c.traceLimit) && t.status == Find(m, id).value.status
    ensures TablesOk(Released(m, id, t), c)
  {
    ReleaseProjects(m, c, id, t);
    ReleaseKeepsFinished(m, id, t);
    Capacity.StepKeepsAccounts(Scheduler(m), c.caps, Capacity.Release(id));
    PutKeepsRecords(m, c, id, t);
  }

  // -------------------------------------------------------- cancellation

  /** Stopping active Workers moves nobody, frees nothing and wakes only the stopped. */
  lemma StopProjects(m: Registry, c: Config, ids: set<string>, roots: set<string>, reason: string)
    requires m.active.Keys !! m.terminal.Keys
    ensures var r := StoppedAll(m, c, ids, roots, reason);
            && Scheduler(r) == Scheduler(m).(waiters := CancelWaiters(m.waiters, ids))
            && Finished(r) == Finished(m)
            && ParentsIn(r.active) == ParentsIn(m.active)
  {
    var r := StoppedAll(m, c, ids, roots, reason);
    assert Alike(r.active, m.active);
    AlikeViews(r.active, m.active);
    AlikeMerge(m.terminal, r.active, m.terminal, m.active);
    AlikeViews(m.terminal + r.active, m.terminal + m.active);
  }

  lemma StopKeepsInv(m: Registry, c: Config, ids: set<string>, roots: set<string>, reason: string)
    requires TablesOk(m, c)
    ensures TablesOk(StoppedAll(m, c, ids, roots, reason), c)
  {
    StopProjects(m, c, ids, roots, reason);
    StopKeepsRecords(m, c, ids, roots, reason);
  }

  lemma StopKeepsRecords(m: Registry, c: Config, ids: set<string>, roots: set<string>, reason: string)
    requires RecordsOk(m, c)
    ensures RecordsOk(StoppedAll(m, c, ids, roots, reason), c)
    ensures forall id :: id in m.active && id in ids ==>
              StoppedAll(m, c, ids, roots, reason).active[id].status == Cancelling
  {
    var r := StoppedAll(m, c, ids, roots, reason);
    forall id | id in r.active
      ensures Recorded(r.active[id], c.traceLimit) && !Terminal(r.active[id].status)
      ensures id in ids ==> r.active[id].status == Cancelling
    {
      var t := m.active[id];
      assert Recorded(t, c.traceLimit) && !Terminal(t.status);
      StopKeepsRecord(t, c.traceLimit, StopReason(m.active, roots, reason, id));
    }
  }

  /** Stopping one more subtree `b` after those in `a`. */
  lemma StopMore(
    m: Registry, c: Config, a: set<string>, roots: set<string>, reason: string, child: string, b: set<string>)
    requires a !! b && b * roots == b * {child}
    ensures StoppedAll(StoppedAll(m, c, a, roots, reason), c, b, {child}, reason)
            == StoppedAll(m, c, a + b, roots, reason)
  {
    var first := StoppedAll(m, c, a, roots, reason);
    forall x | x in m.active
      ensures StoppedRecords(first.active, c.traceLimit, b, {child}, reason)[x]
              == StoppedRecords(m.active, c.traceLimit, a + b, roots, reason)[x]
    {
      assert x in b ==> (x in roots <==> x in b * roots);
      assert x in b ==> (x == child <==> x in b * {child});
    }
    assert StoppedRecords(first.active, c.traceLimit, b, {child}, reason)
        == StoppedRecords(m.active, c.traceLimit, a + b, roots, reason);
    CancelTwice(m.waiters, a, b);
  }

  lemma CancelTwice(w: seq<Capacity.Waiter>, a: set<string>, b: set<string>)
    ensures CancelWaiters(CancelWaiters(w, a), b) == CancelWaiters(w, a + b)
  {
  }

  /** The root's own request, made before the visit of everything below it. */
  function Begun(m: Registry, c: Config, id: string, reason: string): Registry
    requires id in m.active
  {
    m.(active := m.active[id := Asked(m.active[id], c.traceLimit, reason)], cancellations := m.cancellations + 1)
  }

  /** What is left to do for the root afterwards. */
  function Ended(m: Registry, id: string): Registry
    requires id in m.active
  {
    m.(active := m.active[id := m.active[id].(stopped := true)], waiters := CancelWaiters(m.waiters, {id}))
  }

  lemma BegunKeepsLive(m: Registry, c: Config, id: string, reason: string)
    requires id in m.active && Live(m.active)
    ensures Live(Begun(m, c, id, reason).active)
  {
  }

  lemma BegunKeepsParents(m: Registry, c: Config, id: string, reason: string)
    requires id in m.active
    ensures ParentsIn(Begun(m, c, id, reason).active) == ParentsIn(m.active)
  {
    ParentsAfterUpdate(m.active, id, Asked(m.active[id], c.traceLimit, reason));
  }

  lemma StopKeepsParents(m: Records, limit: int, ids: set<string>, roots: set<string>, reason: string)
    ensures ParentsIn(StoppedRecords(m, limit, ids, roots, reason)) == ParentsIn(m)
  {
    AlikeViews(StoppedRecords(m, limit, ids, roots, reason), m);
  }

  lemma StopRoot(m: Registry, c: Config, id: string, reason: string, below: set<string>, children: set<string>)
    requires id in m.active && id !in below && children <= m.active.Keys
    requires forall x :: x in children ==> m.active[x].parent == id
    ensures Ended(StoppedAll(Begun(m, c, id, reason), c, below, children, "parent_cancelled:" + id), id)
            == StoppedAll(m, c, {id} + below, {id}, reason)
  {
    StopRootRecords(m.active, c.traceLimit, id, reason, below, children);
    CancelTwice(m.waiters, below, {id});
    assert below + {id} == {id} + below;
  }

  lemma StopRootRecords(
    active: Records, limit: int, id: string, reason: string, below: set<string>, children: set<string>)
    requires id in active && id !in below && children <= active.Keys
    requires forall x :: x in children ==> active[x].parent == id
    ensures var begun := active[id := Asked(active[id], limit, reason)];
            var visited := StoppedRecords(begun, limit, below, children, "parent_cancelled:" + id);
            visited[id := visited[id].(stopped := true)] == StoppedRecords(active, limit, {id} + below, {id}, reason)
  {
    var begun := active[id := Asked(active[id], limit, reason)];
    var visited := StoppedRecords(begun, limit, below, children, "parent_cancelled:" + id);
    var whole := StoppedRecords(active, limit, {id} + below, {id}, reason);
    forall x | x in active
      ensures visited[id := visited[id].(stopped := true)][x] == whole[x]
    {
      assert x != id ==> begun[x] == active[x];
    }
    assert visited[id := visited[id].(stopped := true)] == whole;
  }

  /** Asking the root, stopping its children's subtrees and cancelling the root's future stops its subtree. */
  lemma StopTurnByParts(m: Registry, c: Config, id: string, reason: string)
    requires id in m.active && Cancellation.Acyclic(ParentsIn(m.active))
    ensures var children := Cancellation.Children(ParentsIn(m.active), id);
            var below := Cancellation.Below(ParentsIn(m.active), children);
            id in StoppedAll(Begun(m, c, id, reason), c, below, children, "parent_cancelled:" + id).active
            && StopTurn(m, c, id, reason)
               == Ended(StoppedAll(Begun(m, c, id, reason), c, below, children, "parent_cancelled:" + id), id)
  {
    var children := Cancellation.Children(ParentsIn(m.active), id);
    var below := Cancellation.Below(ParentsIn(m.active), children);
    Cancellation.SubtreeIsRootAndBelow(ParentsIn(m.active), id);
    StopRoot(m, c, id, reason, below, children);
  }

  /** Of a Worker's children only the child itself lies in the child's subtree. */
  lemma OnlyRoot(p: Cancellation.Parents, t: string, child: string)
    requires Cancellation.Acyclic(p) && child in Cancellation.Children(p, t)
    ensures Cancellation.Subtree(p, child) * Cancellation.Children(p, t) == Cancellation.Subtree(p, child) * {child}
  {
    forall d | d in Cancellation.Children(p, t) && d != child
      ensures d !in Cancellation.Subtree(p, child)
    {
      assert Cancellation.Climbs(p, d, d, 0);
      Cancellation.SiblingsDisjoint(p, t, child, d);
    }
    assert Cancellation.Climbs(p, child, child, 0);
  }

  /** Stopping the next child extends what is stopped by that child's subtree. */
  lemma StopChild(m: Registry, c: Config, t: string, seen: set<string>, child: string, reason: string)
    requires var p := ParentsIn(m.active);
             && Cancellation.Acyclic(p) && seen <= Cancellation.Children(p, t)
             && child in Cancellation.Children(p, t) - seen
    ensures var p := ParentsIn(m.active);
            var children := Cancellation.Children(p, t);
            var before := StoppedAll(m, c, Cancellation.Below(p, seen), children, reason);
            StopTurn(before, c, child, reason)
            == StoppedAll(m, c, Cancellation.Below(p, seen + {child}), children, reason)
  {
    var p := ParentsIn(m.active);
    var children := Cancellation.Children(p, t);
    var a, b := Cancellation.Below(p, seen), Cancellation.Subtree(p, child);
    Cancellation.BelowGrows(p, t, seen, child);
    OnlyRoot(p, t, child);
    StopMore(m, c, a, children, reason, child, b);
    StopKeepsParents(m.active, c.traceLimit, a, children, reason);
  }

  // ----------------------------------------------------------- wait plans

  datatype Plan = Plan(
    session: string, turn: string, workers: set<string>, mode: WaitMode, quorum: nat, timeout: real)

  predicate Waits(t: Task, session: string, turn: string) {
    t.session == session && t.turn == turn && t.join && !t.waitConsumed
  }

  /** The joined Workers of a turn that no plan has consumed yet. */
  function Joined(all: Records, session: string, turn: string): set<string> {
    set id | id in all && Waits(all[id], session, turn)
  }

  ghost predicate Uses(all: Records, ids: set<string>, mode: WaitMode) {
    exists id :: id in ids && id in all && all[id].mode == mode
  }

  /** A plan covers exactly those Workers; its mode is theirs if they agree and `All` if they do not;
      its quorum can be reached; it waits no longer than any of them allows. */
  ghost predicate Plans(p: Plan, all: Records, session: string, turn: string) {
    var ids := Joined(all, session, turn);
    && p.session == session && p.turn == turn && p.workers == ids
    && (forall mode :: Uses(all, ids, mode) ==> p.mode == mode || (p.mode == All && exists other ::
          other != mode && Uses(all, ids, other)))
    && (p.mode == All || Uses(all, ids, p.mode))
    && 1 <= p.quorum <= |ids|
    && (forall id :: id in ids ==> Min(|ids|, all[id].quorum) <= p.quorum)
    && (exists id :: id in ids && p.quorum == Min(|ids|, all[id].quorum))
    && (forall id :: id in ids ==> p.timeout <= all[id].waitTimeout)
    && (exists id :: id in ids && p.timeout == all[id].waitTimeout)
  }

  method ModesOf(all: Records, ids: set<string>) returns (modes: set<WaitMode>)
    requires ids <= all.Keys
    ensures forall mode :: mode in modes <==> Uses(all, ids, mode)
  {
    modes := {};
    var todo, seen := ids, {};
    while todo != {}
      invariant todo <= ids && seen == ids - todo
      invariant forall mode :: mode in modes <==> Uses(all, seen, mode)
      decreases todo
    {
      var id :| id in todo;
      UsesGrows(all, seen, id);
      modes := modes + {all[id].mode};
      todo, seen := todo - {id}, seen + {id};
    }
    assert seen == ids;
  }

  method LargestQuorum(all: Records, ids: set<string>) returns (quorum: nat)
    requires ids != {} && ids <= all.Keys
    ensures exists id :: id in ids && quorum == all[id].quorum
    ensures forall id :: id in ids ==> all[id].quorum <= quorum
  {
    var id :| id in ids;
    quorum := all[id].quorum;
    var todo := ids - {id};
    while todo != {}
      invariant todo <= ids
      invariant exists x :: x in ids && quorum == all[x].quorum
      invariant forall x :: x in ids - todo ==> all[x].quorum <= quorum
      decreases todo
    {
      id :| id in todo;
      quorum := Max(quorum, all[id].quorum);
      todo := todo - {id};
    }
  }

  method ShortestTimeout(all: Records, ids: set<string>) returns (timeout: real)
    requires ids != {} && ids <= all.Keys
    ensures exists id :: id in ids && timeout == all[id].waitTimeout
    ensures forall id :: id in ids ==> timeout <= all[id].waitTimeout
  {
    var id :| id in ids;
    timeout := all[id].waitTimeout;
    var todo := ids - {id};
    while todo != {}
      invariant todo <= ids
      invariant exists x :: x in ids && timeout == all[x].waitTimeout
      invariant forall x :: x in ids - todo ==> timeout <= all[x].waitTimeout
      decreases todo
    {
      id :| id in todo;
      if all[id].waitTimeout < timeout {
        timeout := all[id].waitTimeout;
      }
      todo := todo - {id};
    }
  }

  /** Builds the wait plan of a turn from every record, finished or not. */
  method BuildWaitPlan(all: Records, session: string, turn: string) returns (r: Option<Plan>)
    requires forall id :: id in all ==> all[id].quorum >= 1
    ensures r.None? <==> Joined(all, session, turn) == {}
    ensures r.Some? ==> Plans(r.value, all, session, turn)
  {
    var ids := Joined(all, session, turn);
    if ids == {} {
      return None;
    }
    var modes := ModesOf(all, ids);
    var quorum := LargestQuorum(all, ids);
    var timeout := ShortestTimeout(all, ids);
    var first :| first in ids;
    var common := all[first].mode;
    assert Uses(all, ids, common);
    var mode := if |modes| == 1 then common else All;
    if |modes| == 1 {
      SubsetSize({common}, modes);
    } else {
      assert modes == {common} + (modes - {common});
      ghost var other :| other in modes - {common};
      assert Uses(all, ids, other);
    }
    SubsetSize({first}, ids);
    r := Some(Plan(session, turn, ids, mode, Min(|ids|, quorum), timeout));
  }

  lemma UsesGrows(all: Records, seen: set<string>, id: string)
    requires id in all
    ensures forall mode :: Uses(all, seen + {id}, mode) <==> Uses(all, seen, mode) || mode == all[id].mode
  {
    forall mode
      ensures Uses(all, seen + {id}, mode) <==> Uses(all, seen, mode) || mode == all[id].mode
    {
      if Uses(all, seen, mode) {
        var x :| x in seen && x in all && all[x].mode == mode;
        assert x in seen + {id};
      }
      if mode == all[id].mode {
        assert id in seen + {id};
      }
    }
  }

  lemma ConsumeProjects(m: Registry, ids: set<string>)
    ensures var r := m.(active := Consumed(m.active, ids), terminal := Consumed(m.terminal, ids));
            && Scheduler(r) == Scheduler(m) && Finished(r) == Finished(m)
            && ParentsIn(r.active) == ParentsIn(m.active)
  {
    var r := m.(active := Consumed(m.active, ids), terminal := Consumed(m.terminal, ids));
    AlikeViews(r.active, m.active);
    AlikeViews(r.terminal, m.terminal);
    AlikeMerge(r.terminal, r.active, m.terminal, m.active);
    AlikeViews(r.terminal + r.active, m.terminal + m.active);
  }

  lemma ConsumeKeepsInv(m: Registry, c: Config, ids: set<string>)
    requires TablesOk(m, c)
    ensures TablesOk(m.(active := Consumed(m.active, ids), terminal := Consumed(m.terminal, ids)), c)
  {
    ConsumeProjects(m, ids);
    ConsumeKeepsRecords(m, c, ids);
  }

  lemma ConsumeKeepsRecords(m: Registry, c: Config, ids: set<string>)
    requires RecordsOk(m, c)
    ensures RecordsOk(m.(active := Consumed(m.active, ids), terminal := Consumed(m.terminal, ids)), c)
  {
    var r := m.(active := Consumed(m.active, ids), terminal := Consumed(m.terminal, ids));
    forall id | id in r.active
      ensures Recorded(r.active[id], c.traceLimit) && !Terminal(r.active[id].status)
    {
      ConsumedIsRecorded(m.active[id], c.traceLimit);
    }
    forall id | id in r.terminal
      ensures Recorded(r.terminal[id], c.traceLimit) && Terminal(r.terminal[id].status)
      ensures r.terminal[id].completedAt.Some?
    {
      ConsumedIsRecorded(m.terminal[id], c.traceLimit);
    }
  }

  lemma ConsumedIsRecorded(t: Task, limit: int)
    requires Recorded(t, limit)
    ensures Recorded(t.(waitConsumed := true), limit)
  {
  }

  /** Consuming a plan leaves its turn with nothing to wait for until another Worker joins. */
  lemma ConsumedPlanIsDone(all: Records, session: string, turn: string)
    ensures Joined(Consumed(all, Joined(all, session, turn)), session, turn) == {}
  {
  }

  // ---------------------------------------------------------------- runs

  /** One operation of the task manager, up to its next suspension. */
  datatype Op =
    | Register(id: string, session: string, turn: string, parent: string, join: bool,
               mode: WaitMode, quorum: int, waitTimeout: real)
    | Transition(id: string, status: Status, reason: string, now: int)
    | SetAttempt(id: string, attempt: nat)
    | Acquire(id: string, own: bool)
    | Resume(k: nat)
    | Release(id: string)
    | Stop(id: string, reason: string)
    | Complete(id: string, status: Status, reason: string, now: int)
    | Clean(now: int)
    | Consume(ids: set<string>)

  /** Terminal statuses are entered through completion only, and nobody is registered under somebody that lies at or
      below it. */
  ghost predicate Sensible(m: Registry, op: Op) {
    match op
    case Transition(_, status, _, _) => !Terminal(status)
    case Complete(_, status, _, _) => Terminal(status)
    case Register(id, _, _, parent, _, _, _, _) =>
      !Cancellation.Under(ParentsIn(m.active)[id := parent], parent, id)
    case _ => true
  }

  function Transitioned(m: Registry, c: Config, id: string, status: Status, reason: string, now: int): Registry {
    var t := Find(m, id);
    if t.Some? && MayFollow(t.value.status, status)
    then Put(m, id, Moved(t.value, c.traceLimit, status, reason, now))
    else m
  }

  function AttemptSet(m: Registry, c: Config, id: string, attempt: nat): Registry {
    if id in m.active
    then Put(m, id, Traced(m.active[id].(attempt := attempt), c.traceLimit, "attempt_started"))
    else m
  }

  function AcquireTurn(m: Registry, c: Config, id: string, own: bool): Registry {
    if id !in m.active then m
    else
      var t := m.active[id];
      if Capacity.Blocked(Scheduler(m).slots, c.caps, t.session)
      then ParkedBehind(m, id, Traced(t, c.traceLimit, "capacity_wait"), own)
      else Admitted(m, id, Started(t, c.traceLimit))
  }

  function ReleaseTurn(m: Registry, c: Config, id: string): Registry {
    var t := Find(m, id);
    if t.None? || !t.value.holdsSlot then m
    else Released(m, id, Traced(t.value.(holdsSlot := false), c.traceLimit, "capacity_released"))
  }

  ghost function StopTurn(m: Registry, c: Config, id: string, reason: string): Registry {
    if id in m.active then StoppedAll(m, c, Cancellation.Subtree(ParentsIn(m.active), id), {id}, reason) else m
  }

  ghost function Apply(m: Registry, c: Config, op: Op): Registry {
    match op
    case Register(id, session, turn, parent, join, mode, quorum, waitTimeout) =>
      Registered(m, id, NewTask(session, turn, parent, join, mode, quorum, waitTimeout, Attempt(m, id), c.traceLimit))
    case Transition(id, status, reason, now) => Transitioned(m, c, id, status, reason, now)
    case SetAttempt(id, attempt) => AttemptSet(m, c, id, attempt)
    case Acquire(id, own) => AcquireTurn(m, c, id, own)
    case Resume(k) => m.(waiters := Capacity.Apply(Scheduler(m), c.caps, Capacity.Resume(k)).waiters)
    case Release(id) => ReleaseTurn(m, c, id)
    case Stop(id, reason) => StopTurn(m, c, id, reason)
    case Complete(id, status, reason, now) => CompleteTurn(m, c, id, status, reason, now)
    case Clean(now) => Cleaned(m, c, now)
    case Consume(ids) => m.(active := Consumed(m.active, ids), terminal := Consumed(m.terminal, ids))
  }

  lemma AcquireKeepsInv(m: Registry, c: Config, id: string, own: bool)
    requires TablesOk(m, c)
    ensures TablesOk(AcquireTurn(m, c, id, own), c)
  {
    if id in m.active {
      var t := m.active[id];
      TracedKeepsRecord(t, t.status, c.traceLimit, "capacity_wait");
      StartedIsRecorded(t, c.traceLimit);
      if Capacity.Blocked(Scheduler(m).slots, c.caps, t.session) {
        ParkKeepsInv(m, c, id, Traced(t, c.traceLimit, "capacity_wait"), own);
      } else {
        AdmitKeepsInv(m, c, id, Started(t, c.traceLimit));
      }
    }
  }

  lemma FoundIsRecorded(m: Registry, c: Config, id: string)
    requires RecordsOk(m, c) && Find(m, id).Some?
    ensures Recorded(Find(m, id).value, c.traceLimit)
  {
  }

  lemma ReleaseTurnKeepsInv(m: Registry, c: Config, id: string)
    requires TablesOk(m, c)
    ensures TablesOk(ReleaseTurn(m, c, id), c)
  {
    if Find(m, id).Some? && Find(m, id).value.holdsSlot {
      FoundIsRecorded(m, c, id);
      ReleaseKeepsRecord(Find(m, id).value, c.traceLimit);
      ReleaseKeepsInv(m, c, id, Traced(Find(m, id).value.(holdsSlot := false), c.traceLimit, "capacity_released"));
    }
  }

  lemma TransitionKeepsInv(m: Registry, c: Config, id: string, status: Status, reason: string, now: int)
    requires TablesOk(m, c) && !Terminal(status)
    ensures TablesOk(Transitioned(m, c, id, status, reason, now), c)
  {
    if id !in m.active {
      FinishedStay(m, c, id, status, reason, now);
    } else {
      TransitionOfActive(m, c, id, status, reason, now);
      if MayFollow(m.active[id].status, status) {
        MoveActive(m, c, id, status, reason, now);
      }
    }
  }

  lemma TransitionOfActive(m: Registry, c: Config, id: string, status: Status, reason: string, now: int)
    requires id in m.active
    ensures Transitioned(m, c, id, status, reason, now)
            == if MayFollow(m.active[id].status, status)
               then Put(m, id, Moved(m.active[id], c.traceLimit, status, reason, now)) else m
  {
  }

  lemma MoveActive(m: Registry, c: Config, id: string, status: Status, reason: string, now: int)
    requires TablesOk(m, c) && !Terminal(status) && id in m.active && MayFollow(m.active[id].status, status)
    ensures TablesOk(Put(m, id, Moved(m.active[id], c.traceLimit, status, reason, now)), c)
  {
    MoveKeepsRecord(m.active[id], c.traceLimit, status, reason, now);
    PutKeepsInv(m, c, id, Moved(m.active[id], c.traceLimit, status, reason, now));
  }

  /** A finished Worker takes no status that is not final. */
  lemma FinishedStay(m: Registry, c: Config, id: string, status: Status, reason: string, now: int)
    requires !Terminal(status) && id !in m.active
    requires id in m.terminal ==> Terminal(m.terminal[id].status)
    ensures Transitioned(m, c, id, status, reason, now) == m
  {
  }

  lemma AttemptKeepsInv(m: Registry, c: Config, id: string, attempt: nat)
    requires TablesOk(m, c)
    ensures TablesOk(AttemptSet(m, c, id, attempt), c)
  {
    if id in m.active {
      var t := m.active[id].(attempt := attempt);
      TracedKeepsRecord(t, t.status, c.traceLimit, "attempt_started");
      PutKeepsInv(m, c, id, Traced(t, c.traceLimit, "attempt_started"));
    }
  }

  /** A new attempt is the last entry of the Worker's trace, and the next registration of its id counts on from it.
      Its status, everybody else and the accounts stay as they were. */
  lemma AttemptIsTraced(m: Registry, c: Config, id: string, attempt: nat)
    requires id in m.active && Recorded(m.active[id], c.traceLimit)
    ensures var r, before := AttemptSet(m, c, id, attempt), m.active[id];
            && r.active.Keys == m.active.Keys && r.terminal == m.terminal
            && (forall x :: x in m.active && x != id ==> r.active[x] == m.active[x])
            && r.active[id].status == before.status
            && |r.active[id].history| == |before.history| + 1 && before.history <= r.active[id].history
            && r.active[id].trace != []
            && r.active[id].trace[|r.active[id].trace| - 1]
               == Entry(|before.history| + 1, before.status, "attempt_started", attempt)
            && Attempt(r, id) == attempt + 1
            && Scheduler(r) == Scheduler(m) && Finished(r) == Finished(m)
  {
    var t := Traced(m.active[id].(attempt := attempt), c.traceLimit, "attempt_started");
    LastEntry(m.active[id], c.traceLimit, attempt, "attempt_started");
    AttemptIsLocal(m, c, id, attempt);
    assert AttemptSet(m, c, id, attempt).active == m.active[id := t];
  }

  lemma AttemptIsLocal(m: Registry, c: Config, id: string, attempt: nat)
    requires id in m.active
    ensures var r := AttemptSet(m, c, id, attempt); Scheduler(r) == Scheduler(m) && Finished(r) == Finished(m)
  {
    PutIsLocal(m, id, Traced(m.active[id].(attempt := attempt), c.traceLimit, "attempt_started"));
  }

  lemma ResumeKeepsInv(m: Registry, c: Config, k: nat)
    requires TablesOk(m, c)
    ensures TablesOk(m.(waiters := Capacity.Apply(Scheduler(m), c.caps, Capacity.Resume(k)).waiters), c)
  {
    Capacity.StepKeepsAccounts(Scheduler(m), c.caps, Capacity.Resume(k));
  }

  lemma OpKeepsTables(m: Registry, c: Config, op: Op)
    requires TablesOk(m, c) && Sensible(m, op)
    ensures TablesOk(Apply(m, c, op), c)
  {
    match op
    case Register(id, session, turn, parent, join, mode, quorum, waitTimeout) =>
      var attempt := Attempt(m, id);
      NewTaskIsRecorded(session, turn, parent, join, mode, quorum, waitTimeout, attempt, c.traceLimit);
      RegisterKeepsInv(m, c, id,
        NewTask(session, turn, parent, join, mode, quorum, waitTimeout, attempt, c.traceLimit));
    case Transition(id, status, reason, now) => TransitionKeepsInv(m, c, id, status, reason, now);
    case SetAttempt(id, attempt) => AttemptKeepsInv(m, c, id, attempt);
    case Acquire(id, own) => AcquireKeepsInv(m, c, id, own);
    case Resume(k) => ResumeKeepsInv(m, c, k);
    case Release(id) => ReleaseTurnKeepsInv(m, c, id);
    case Stop(id, reason) =>
      if id in m.active {
        StopKeepsInv(m, c, Cancellation.Subtree(ParentsIn(m.active), id), {id}, reason);
      }
    case Complete(id, status, reason, now) => CompleteKeepsInv(m, c, id, status, reason, now);
    case Clean(now) => CleanKeepsInv(m, c, now);
    case Consume(ids) => ConsumeKeepsInv(m, c, ids);
  }

  lemma {:induction false} CleanKeepsActive(m: Registry, c: Config, now: int, todo: seq<string>, removed: nat)
    ensures CleanFrom(m, c, now, todo, removed).active == m.active
    decreases |todo|
  {
    if todo != [] {
      CleanKeepsActive(m, c, now, todo[1..], removed);
      CleanKeepsActive(Pruned(m, todo[0]), c, now, todo[1..], removed + 1);
    }
  }

  lemma PutKeepsParents(m: Registry, id: string, t: Task)
    requires id in m.active ==> t.parent == m.active[id].parent
    ensures ParentsIn(Put(m, id, t).active) == ParentsIn(m.active)
  {
    if id in m.active {
      ParentsAfterUpdate(m.active, id, t);
    }
  }

  lemma CompleteParents(m: Registry, c: Config, id: string, status: Status, reason: string, now: int)
    ensures var r := CompleteTurn(m, c, id, status, reason, now);
            ParentsIn(r.active) == ParentsIn(m.active) || ParentsIn(r.active) == ParentsIn(m.active) - {id}
  {
    if CompletionOutcome(m, id, status) == Done {
      var t := Find(m, id).value;
      var filed := Filed(m, id, if Terminal(t.status) then t else Moved(t, c.traceLimit, status, reason, now));
      CleanKeepsActive(filed, c, now, filed.order, 0);
      assert ParentsIn(m.active - {id}) == ParentsIn(m.active) - {id};
    }
  }

  lemma AcquireParents(m: Registry, c: Config, id: string, own: bool)
    ensures ParentsIn(AcquireTurn(m, c, id, own).active) == ParentsIn(m.active)
  {
    if id in m.active {
      ParentsAfterUpdate(m.active, id, Traced(m.active[id], c.traceLimit, "capacity_wait"));
      ParentsAfterUpdate(m.active, id, Started(m.active[id], c.traceLimit));
    }
  }

  lemma ReleaseParents(m: Registry, c: Config, id: string)
    ensures ParentsIn(ReleaseTurn(m, c, id).active) == ParentsIn(m.active)
  {
    if Find(m, id).Some? {
      PutKeepsParents(m, id, Traced(Find(m, id).value.(holdsSlot := false), c.traceLimit, "capacity_released"));
    }
  }

  /** Every operation keeps the parent links among active Workers acyclic, so every request to stop returns. */
  lemma OpKeepsAcyclic(m: Registry, c: Config, op: Op)
    requires m.active.Keys !! m.terminal.Keys && Cancellation.Acyclic(ParentsIn(m.active)) && Sensible(m, op)
    ensures Cancellation.Acyclic(ParentsIn(Apply(m, c, op).active))
  {
    match op
    case Register(id, session, turn, parent, join, mode, quorum, waitTimeout) =>
      ParentsAfterUpdate(m.active, id,
        NewTask(session, turn, parent, join, mode, quorum, waitTimeout, Attempt(m, id), c.traceLimit));
      Cancellation.RemoveKeepsAcyclic(ParentsIn(m.active), id);
      Cancellation.RegisterKeepsAcyclicIff(ParentsIn(m.active), id, parent);
    case Transition(id, status, reason, now) =>
      if Find(m, id).Some? {
        PutKeepsParents(m, id, Moved(Find(m, id).value, c.traceLimit, status, reason, now));
      }
    case SetAttempt(id, attempt) =>
      if id in m.active {
        PutKeepsParents(m, id, Traced(m.active[id].(attempt := attempt), c.traceLimit, "attempt_started"));
      }
    case Acquire(id, own) => AcquireParents(m, c, id, own);
    case Resume(k) =>
    case Release(id) => ReleaseParents(m, c, id);
    case Stop(id, reason) =>
      StopKeepsParents(m.active, c.traceLimit, Cancellation.Subtree(ParentsIn(m.active), id), {id}, reason);
    case Complete(id, status, reason, now) =>
      CompleteParents(m, c, id, status, reason, now);
      Cancellation.RemoveKeepsAcyclic(ParentsIn(m.active), id);
    case Clean(now) => CleanKeepsActive(m, c, now, m.order, 0);
    case Consume(ids) => ConsumeProjects(m, ids);
  }

  /** Every operation keeps every invariant. */
  lemma OpKeepsInv(m: Registry, c: Config, op: Op)
    requires Inv(m, c) && Sensible(m, op)
    ensures Inv(Apply(m, c, op), c)
  {
    OpKeepsTables(m, c, op);
    OpKeepsAcyclic(m, c, op);
  }

  ghost function Run(m: Registry, c: Config, ops: seq<Op>): Registry
    decreases |ops|
  {
    if ops == [] then m else Run(Apply(m, c, ops[0]), c, ops[1..])
  }

  /** Every operation of the run is sensible where it happens. */
  ghost predicate AllSensible(m: Registry, c: Config, ops: seq<Op>)
    decreases |ops|
  {
    ops == [] || (Sensible(m, ops[0]) && AllSensible(Apply(m, c, ops[0]), c, ops[1..]))
  }

  predicate Proper(c: Config) {
    c.traceLimit >= 1 && c.caps.all >= 1 && c.caps.each >= 1
  }

  lemma EmptyIsInv(c: Config)
    requires Proper(c)
    ensures Inv(EMPTY, c)
  {
    Capacity.EmptyIsExact(c.caps);
    assert HeldIn(EMPTY.terminal + EMPTY.active) == map[];
    assert FinishTimes(EMPTY.terminal) == map[];
    assert Cancellation.Ranked(ParentsIn(EMPTY.active), map[]);
  }

  /** Every reachable state satisfies every invariant. */
  lemma {:induction false} RunKeepsInv(m: Registry, c: Config, ops: seq<Op>)
    requires Inv(m, c) && AllSensible(m, c, ops)
    ensures Inv(Run(m, c, ops), c)
    decreases |ops|
  {
    if ops != [] {
      OpKeepsInv(m, c, ops[0]);
      RunKeepsInv(Apply(m, c, ops[0]), c, ops[1..]);
    }
  }

  /** What a reader may rely on after any run from the empty manager. */
  lemma EveryRun(c: Config, ops: seq<Op>, id: string, session: string, i: nat, j: nat)
    requires Proper(c) && AllSensible(EMPTY, c, ops)
    ensures var m := Run(EMPTY, c, ops);
            && m.active.Keys !! m.terminal.Keys
            && Cancellation.Acyclic(ParentsIn(m.active))
            && |m.terminal| <= Max(0, c.limits.limit)
            && m.total == Sum(m.bySession) && m.total <= c.caps.all && CountAt(m.bySession, session) <= c.caps.each
            && |Capacity.Holders(HeldIn(m.terminal + m.active), session)| <= CountAt(m.bySession, session)
            && Capacity.NoLostWakeup(Scheduler(m), c.caps)
            && (Find(m, id).Some? && i <= j < |Find(m, id).value.history| ==>
                  var h := Find(m, id).value.history;
                  && Find(m, id).value.trace == LastN(h, c.traceLimit)
                  && h[j].sequence == j + 1
                  && (Terminal(h[i].status) ==> h[j].status == h[i].status)
                  && (h[i].status == Cancelling ==> h[j].status in {Cancelling, Cancelled, Failed}))
  {
    EmptyIsInv(c);
    RunKeepsInv(EMPTY, c, ops);
    var m := Run(EMPTY, c, ops);
    OrderSize(m.order);
    assert Elements(m.order) == m.terminal.Keys;
    assert Capacity.Balanced(Scheduler(m).slots, c.caps, session);
    if Find(m, id).Some? && i <= j < |Find(m, id).value.history| {
      var h := Find(m, id).value.history;
      assert Recorded(Find(m, id).value, c.traceLimit);
      if Terminal(h[i].status) {
        TerminalIsAbsorbing(h, i, j);
      }
      if h[i].status == Cancelling {
        CancellingNeverSucceeds(h, i, j);
      }
    }
  }

  lemma {:induction false} OrderSize(order: seq<string>)
    requires Distinct(order)
    ensures |Elements(order)| == |order|
  {
    if order != [] {
      Retention.HeadIsNew(order);
      OrderSize(order[1..]);
    }
  }
}
