/** Runs of the whole task manager: what they mean for the finished Workers and for the slot counters. */
module RegistryRuns {
  import opened Collections
  import opened WorkerLifecycle
  import opened WorkerRegistry
  import Capacity
  import Retention

  /** What an operation of the manager does to the finished Workers. */
  function StoreSteps(m: Registry, op: Op): seq<Retention.Step> {
    match op
    case Register(id, _, _, _, _, _, _, _) => [Retention.Reregister(id)]
    case Complete(id, status, _, now) =>
      if CompletionOutcome(m, id, status) == Done then [Retention.Finish(id, now, now)] else []
    case Clean(now) => [Retention.Clean(now)]
    case _ => []
  }

  ghost function AllStoreSteps(m: Registry, c: Config, ops: seq<Op>): seq<Retention.Step>
    decreases |ops|
  {
    if ops == [] then [] else StoreSteps(m, ops[0]) + AllStoreSteps(Apply(m, c, ops[0]), c, ops[1..])
  }

  /** Finished Workers change only by finishing, by registering again and by clean-up. */
  lemma OpRefinesStore(m: Registry, c: Config, op: Op)
    requires Inv(m, c) && Sensible(m, op)
    ensures Finished(Apply(m, c, op)) == Retention.Run(Finished(m), c.limits, StoreSteps(m, op))
  {
    match op
    case Register(id, session, turn, parent, join, mode, quorum, waitTimeout) =>
      RegisterProjects(m, c, id,
        NewTask(session, turn, parent, join, mode, quorum, waitTimeout, Attempt(m, id), c.traceLimit));
      RunOne(Finished(m), c.limits, Retention.Reregister(id));
    case Complete(id, status, reason, now) =>
      CompleteKeepsInv(m, c, id, status, reason, now);
      RunOne(Finished(m), c.limits, Retention.Finish(id, now, now));
    case Clean(now) =>
      CleanProjects(m, c, now);
      RunOne(Finished(m), c.limits, Retention.Clean(now));
    case Release(id) => ReleaseRefines(m, c, id);
    case Consume(ids) => ConsumeProjects(m, ids);
    case Transition(id, status, reason, now) =>
      if id !in m.active {
        FinishedStay(m, c, id, status, reason, now);
      }
    case SetAttempt(id, attempt) =>
    case Acquire(id, own) =>
    case Resume(k) =>
    case Stop(id, reason) =>
  }

  lemma RunOne(f: Retention.Finished, c: Retention.Limits, step: Retention.Step)
    ensures Retention.Run(f, c, [step]) == Retention.Apply(f, c, step)
  {
    assert [step][1..] == [];
  }

  lemma ReleaseRefines(m: Registry, c: Config, id: string)
    requires Inv(m, c)
    ensures Finished(ReleaseTurn(m, c, id)) == Finished(m)
  {
    if Find(m, id).Some? && Find(m, id).value.holdsSlot {
      ReleaseKeepsFinished(m, id, Traced(Find(m, id).value.(holdsSlot := false), c.traceLimit, "capacity_released"));
    }
  }

  lemma {:induction false} StoreRunConcat(f: Retention.Finished, c: Retention.Limits, a: seq<Retention.Step>, b: seq<Retention.Step>)
    ensures Retention.Run(f, c, a + b) == Retention.Run(Retention.Run(f, c, a), c, b)
    decreases |a|
  {
    if a == [] {
      assert a + b == b;
    } else {
      assert (a + b)[1..] == a[1..] + b;
      StoreRunConcat(Retention.Apply(f, c, a[0]), c, a[1..], b);
    }
  }

  /** Every run of the manager is a run of the store. */
  lemma {:induction false} RunRefinesStore(m: Registry, c: Config, ops: seq<Op>)
    requires Inv(m, c) && AllSensible(m, c, ops)
    ensures Finished(Run(m, c, ops)) == Retention.Run(Finished(m), c.limits, AllStoreSteps(m, c, ops))
    decreases |ops|
  {
    if ops != [] {
      OpRefinesStore(m, c, ops[0]);
      OpKeepsInv(m, c, ops[0]);
      RunRefinesStore(Apply(m, c, ops[0]), c, ops[1..]);
      StoreRunConcat(Finished(m), c.limits, StoreSteps(m, ops[0]), AllStoreSteps(Apply(m, c, ops[0]), c, ops[1..]));
    }
  }

  /** The operation neither registers `id` again nor looks at it after its time-to-live. */
  predicate Spares(op: Op, id: string, at: int, c: Config) {
    match op
    case Register(other, _, _, _, _, _, _, _) => other != id
    case Complete(_, _, _, now) => now - at <= c.limits.ttl
    case Clean(now) => now - at <= c.limits.ttl
    case _ => true
  }

  /** How many completions of other Workers are asked for. */
  function OtherCompletions(ops: seq<Op>, id: string): nat {
    if ops == [] then 0
    else (if ops[0].Complete? && ops[0].id != id then 1 else 0) + OtherCompletions(ops[1..], id)
  }

  lemma {:induction false} OtherFinishesConcat(a: seq<Retention.Step>, b: seq<Retention.Step>, id: string)
    ensures Retention.OtherFinishes(a + b, id) == Retention.OtherFinishes(a, id) + Retention.OtherFinishes(b, id)
  {
    if a == [] {
      assert a + b == b;
    } else {
      assert (a + b)[1..] == a[1..] + b;
      OtherFinishesConcat(a[1..], b, id);
    }
  }

  lemma {:induction false} StoreIsSpared(m: Registry, c: Config, ops: seq<Op>, id: string, at: int)
    requires forall i :: 0 <= i < |ops| ==> Spares(ops[i], id, at, c)
    ensures var steps := AllStoreSteps(m, c, ops);
            && (forall i :: 0 <= i < |steps| ==> Retention.Spares(steps[i], id, at, c.limits))
            && Retention.OtherFinishes(steps, id) <= OtherCompletions(ops, id)
    decreases |ops|
  {
    if ops != [] {
      StoreIsSpared(Apply(m, c, ops[0]), c, ops[1..], id, at);
      OtherFinishesConcat(StoreSteps(m, ops[0]), AllStoreSteps(Apply(m, c, ops[0]), c, ops[1..]), id);
    }
  }

  /** Over every run of the task manager a finished Worker stays retrievable until it is registered again, its
      time-to-live passes, or as many others as the limit allows have completed after it. */
  lemma FinishedStaysRetrievable(m: Registry, c: Config, ops: seq<Op>, id: string, at: int, after: nat)
    requires Inv(m, c) && AllSensible(m, c, ops)
    requires forall i :: 0 <= i < |ops| ==> Spares(ops[i], id, at, c)
    requires Retention.Keeps(Finished(m), id, at, after)
    requires after + OtherCompletions(ops, id) < c.limits.limit
    ensures id in Run(m, c, ops).terminal
  {
    RunRefinesStore(m, c, ops);
    StoreIsSpared(m, c, ops, id, at);
    Retention.StaysRetrievable(Finished(m), c.limits, AllStoreSteps(m, c, ops), id, at, after);
    RunKeepsInv(m, c, ops);
    assert id in Elements(Run(m, c, ops).order);
  }

  // ---------------------------------------------------------------- slots

  /** No slot is leaked, and no finished Worker holds one. */
  ghost predicate Tidy(m: Registry) {
    m.leaked == map[] && forall id :: id in m.terminal ==> !m.terminal[id].holdsSlot
  }

  /** A Worker gives its slot back before it completes or is registered again, and acquires only without one. */
  predicate Orderly(m: Registry, op: Op) {
    match op
    case Register(id, _, _, _, _, _, _, _) => Find(m, id).Some? ==> !Find(m, id).value.holdsSlot
    case Complete(id, _, _, _) => Find(m, id).Some? ==> !Find(m, id).value.holdsSlot
    case Acquire(id, _) => id in m.active ==> !m.active[id].holdsSlot
    case _ => true
  }

  ghost predicate AllOrderly(m: Registry, c: Config, ops: seq<Op>)
    decreases |ops|
  {
    ops == [] || (Orderly(m, ops[0]) && AllOrderly(Apply(m, c, ops[0]), c, ops[1..]))
  }

  lemma {:induction false} CleanKeepsTidy(m: Registry, c: Config, now: int, todo: seq<string>, removed: nat)
    requires Tidy(m) && forall id :: id in todo ==> id !in m.active
    ensures Tidy(CleanFrom(m, c, now, todo, removed))
    decreases |todo|
  {
    if todo != [] {
      CleanKeepsTidy(m, c, now, todo[1..], removed);
      assert Tidy(Pruned(m, todo[0]));
      CleanKeepsTidy(Pruned(m, todo[0]), c, now, todo[1..], removed + 1);
    }
  }

  lemma CompleteKeepsTidy(m: Registry, c: Config, id: string, status: Status, reason: string, now: int)
    requires Inv(m, c) && Tidy(m)
    requires Find(m, id).Some? ==> !Find(m, id).value.holdsSlot
    ensures Tidy(CompleteTurn(m, c, id, status, reason, now))
  {
    if CompletionOutcome(m, id, status) == Done {
      var t := Find(m, id).value;
      var last := if Terminal(t.status) then t else WorkerLifecycle.Moved(t, c.traceLimit, status, reason, now);
      var filed := Filed(m, id, last);
      FiledIsTidy(m, id, last);
      FiledOrder(m, c, id, last);
      CleanKeepsTidy(filed, c, now, filed.order, 0);
    }
  }

  lemma FiledIsTidy(m: Registry, id: string, t: Task)
    requires Tidy(m) && !t.holdsSlot
    ensures Tidy(Filed(m, id, t))
  {
  }

  lemma FiledOrder(m: Registry, c: Config, id: string, t: Task)
    requires Inv(m, c)
    ensures forall x :: x in Filed(m, id, t).order ==> x !in Filed(m, id, t).active
  {
    Retention.DropFacts(m.order, id);
    forall x | x in Filed(m, id, t).order
      ensures x !in Filed(m, id, t).active
    {
      if x != id {
        assert x in Elements(Retention.Drop(m.order, id));
        assert x in Elements(m.order);
      }
    }
  }

  lemma OpKeepsTidy(m: Registry, c: Config, op: Op)
    requires Inv(m, c) && Tidy(m) && Orderly(m, op)
    ensures Tidy(Apply(m, c, op))
  {
    match op
    case Complete(id, status, reason, now) => CompleteKeepsTidy(m, c, id, status, reason, now);
    case Clean(now) =>
      forall x | x in m.order
        ensures x !in m.active
      {
        assert x in Elements(m.order);
      }
      CleanKeepsTidy(m, c, now, m.order, 0);
    case Release(id) => ReleaseKeepsTidy(m, c, id);
    case Consume(ids) => ConsumeKeepsTidy(m, ids);
    case Transition(id, status, reason, now) => TransitionKeepsTidy(m, c, id, status, reason, now);
    case Acquire(id, own) => AcquireKeepsTidy(m, c, id, own);
    case Register(id, session, turn, parent, join, mode, quorum, waitTimeout) =>
      assert Leak(m, id) == m.leaked;
    case SetAttempt(id, attempt) =>
    case Resume(k) =>
    case Stop(id, reason) =>
  }

  lemma TransitionKeepsTidy(m: Registry, c: Config, id: string, status: Status, reason: string, now: int)
    requires Tidy(m)
    ensures Tidy(Transitioned(m, c, id, status, reason, now))
  {
  }

  lemma AcquireKeepsTidy(m: Registry, c: Config, id: string, own: bool)
    requires Tidy(m) && Orderly(m, Acquire(id, own))
    ensures Tidy(AcquireTurn(m, c, id, own))
  {
    if id in m.active {
      assert Leak(m, id) == m.leaked;
    }
  }

  lemma ReleaseKeepsTidy(m: Registry, c: Config, id: string)
    requires Tidy(m)
    ensures Tidy(ReleaseTurn(m, c, id))
  {
  }

  lemma ConsumeKeepsTidy(m: Registry, ids: set<string>)
    requires Tidy(m)
    ensures Tidy(m.(active := Consumed(m.active, ids), terminal := Consumed(m.terminal, ids)))
  {
  }

  lemma {:induction false} RunKeepsTidy(m: Registry, c: Config, ops: seq<Op>)
    requires Inv(m, c) && Tidy(m) && AllOrderly(m, c, ops) && AllSensible(m, c, ops)
    ensures Tidy(Run(m, c, ops)) && Inv(Run(m, c, ops), c)
    decreases |ops|
  {
    if ops != [] {
      OpKeepsTidy(m, c, ops[0]);
      OpKeepsInv(m, c, ops[0]);
      RunKeepsTidy(Apply(m, c, ops[0]), c, ops[1..]);
    }
  }

  /** Over every run in which slots are given back in time, each session's counter is exactly the number of its
      active Workers that hold a slot. */
  lemma CountersAreExact(c: Config, ops: seq<Op>, session: string)
    requires Proper(c) && AllOrderly(EMPTY, c, ops) && AllSensible(EMPTY, c, ops)
    ensures var m := Run(EMPTY, c, ops);
            CountAt(m.bySession, session) == |Capacity.Holders(HeldIn(m.active), session)|
  {
    EmptyIsInv(c);
    RunKeepsTidy(EMPTY, c, ops);
    var m := Run(EMPTY, c, ops);
    TidyCounters(m, c, session);
  }

  lemma TidyCounters(m: Registry, c: Config, session: string)
    requires SchedulerOk(m, c) && m.active.Keys !! m.terminal.Keys && Tidy(m)
    ensures CountAt(m.bySession, session) == |Capacity.Holders(HeldIn(m.active), session)|
  {
    assert Capacity.Balanced(Scheduler(m).slots, c.caps, session);
    NoFinishedHolder(m.terminal, m.active);
  }

  lemma NoFinishedHolder(terminal: Records, active: Records)
    requires active.Keys !! terminal.Keys && forall id :: id in terminal ==> !terminal[id].holdsSlot
    ensures HeldIn(terminal + active) == HeldIn(active)
  {
  }
}
