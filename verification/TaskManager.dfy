/** The task manager itself: its fields, updated in place.

    Every method says which step of the registry model it takes, completely:
    the new state is the model's function of the old one.  What those steps
    keep, over every run, is proved about the model (`WorkerRegistry.OpKeepsInv`). */
module TaskManager {
  import opened Collections
  import opened WorkerLifecycle
  import opened WorkerRegistry
  import opened RegistryEffects
  import Cancellation
  import Capacity
  import Retention

  datatype Admission = Ran | Parked | Gone | Refused

  lemma {:induction false} DropTakesOne(order: seq<string>, id: string)
    requires id in order
    ensures multiset(Retention.Drop(order, id)) == multiset(order) - multiset{id}
    ensures |Retention.Drop(order, id)| == |order| - 1
  {
    assert order == [order[0]] + order[1..];
    if order[0] != id {
      DropTakesOne(order[1..], id);
    }
  }

  /** The next entry of a snapshot is still in the order, and its removal leaves the others there. */
  lemma NextIsThere(todo: seq<string>, order: seq<string>)
    requires todo != [] && multiset(todo) <= multiset(order)
    ensures multiset(todo[1..]) <= multiset(order)
    ensures multiset(todo[1..]) <= multiset(Retention.Drop(order, todo[0]))
    ensures |Retention.Drop(order, todo[0])| == |order| - 1
  {
    assert todo == [todo[0]] + todo[1..];
    assert todo[0] in multiset(todo);
    DropTakesOne(order, todo[0]);
  }

  class TaskManager {
    const config: Config
    var active: Records
    var terminal: Records
    var order: seq<string>
    var runningTotal: int
    var runningBySession: map<string, nat>
    var waiters: seq<Capacity.Waiter>
    var cancellations: nat
    var capacityWaits: nat
    var pruned: nat
    ghost var leaked: map<string, nat>

    ghost function State(): Registry
      reads this
    {
      Registry(active, terminal, order, runningTotal, runningBySession, waiters, leaked, cancellations)
    }

    constructor (config: Config)
      requires Proper(config)
      ensures this.config == config && State() == EMPTY && Inv(State(), config)
      ensures cancellations == 0 && capacityWaits == 0 && pruned == 0
    {
      this.config := config;
      active, terminal, order := map[], map[], [];
      runningTotal, runningBySession, waiters, leaked := 0, map[], [], map[];
      cancellations, capacityWaits, pruned := 0, 0, 0;
      new;
      EmptyIsInv(config);
    }

    method RegisterTask(
      id: string, session: string, turn: string, parent: string, join: bool,
      mode: WaitMode, quorum: int, waitTimeout: real)
      modifies `active, `terminal, `order, `waiters, `leaked
      ensures State() == Registered(old(State()), id,
                NewTask(session, turn, parent, join, mode, quorum, waitTimeout,
                        Attempt(old(State()), id), config.traceLimit))
    {
      var attempt := 1;
      if id in active {
        attempt := active[id].attempt + 1;
      } else if id in terminal {
        attempt := terminal[id].attempt + 1;
      }
      leaked := Leak(State(), id);
      waiters := Capacity.Disowned(waiters, id);
      order := Retention.Drop(order, id);
      terminal := terminal - {id};
      active := active[id :=
        NewTask(session, turn, parent, join, mode, quorum, waitTimeout, attempt, config.traceLimit)];
    }

    /** Moves a Worker, active or finished, to a status that may follow. */
    method TransitionTask(id: string, status: Status, reason: string, now: int) returns (r: Outcome)
      modifies `active, `terminal
      ensures State() == Transitioned(old(State()), config, id, status, reason, now)
      ensures r == if Find(old(State()), id).None? then NotFound
                   else if MayFollow(Find(old(State()), id).value.status, status) then Done
                   else Illegal
      ensures r == Done <==> State() != old(State())
      ensures r == Done ==> Find(State(), id).Some? && Find(State(), id).value.status == status
    {
      var found := if id in active then Some(active[id]) else if id in terminal then Some(terminal[id]) else None;
      if found.None? {
        return NotFound;
      }
      if !MayFollow(found.value.status, status) {
        return Illegal;
      }
      var t := Moved(found.value, config.traceLimit, status, reason, now);
      MovedDiffers(found.value, config.traceLimit, status, reason, now);
      if id in active {
        active := active[id := t];
      } else {
        terminal := terminal[id := t];
      }
      return Done;
    }

    method SetAttempt(id: string, attempt: nat)
      modifies `active
      ensures State() == AttemptSet(old(State()), config, id, attempt)
    {
      if id in active {
        active := active[id := Traced(active[id].(attempt := attempt), config.traceLimit, "attempt_started")];
      }
    }

    /** Gives a free slot. */
    method Admit(id: string)
      requires id in active
      modifies `active, `runningTotal, `runningBySession, `leaked
      ensures State() == Admitted(old(State()), id, Started(old(active)[id], config.traceLimit))
    {
      var t := active[id];
      leaked := Leak(State(), id);
      runningTotal := runningTotal + 1;
      runningBySession := runningBySession[t.session := CountAt(runningBySession, t.session) + 1];
      active := active[id := Started(t, config.traceLimit)];
    }

    /** Parks behind everybody who waits already. */
    method Park(id: string, own: bool)
      requires id in active
      modifies `active, `waiters, `capacityWaits
      ensures capacityWaits == old(capacityWaits) + 1
      ensures State() == ParkedBehind(old(State()), id, Traced(old(active)[id], config.traceLimit, "capacity_wait"), own)
    {
      var t := active[id];
      waiters := waiters + [Capacity.Waiter(id, t.session, own, false)];
      capacityWaits := capacityWaits + 1;
      active := active[id := Traced(t, config.traceLimit, "capacity_wait")];
    }

    /** One turn of the acquire loop, run for the present registration of `id` (`own`) or an earlier one: the Worker
        runs, parks, is gone, or is refused with its slot counted. */
    method AcquireExecutionSlot(id: string, own: bool) returns (r: Admission)
      modifies `active, `waiters, `runningTotal, `runningBySession, `leaked, `capacityWaits
      ensures State() == AcquireTurn(old(State()), config, id, own)
      ensures capacityWaits == old(capacityWaits) + (if r == Parked then 1 else 0)
      ensures r == Gone <==> id !in old(active)
      ensures r == Parked <==>
                (id in old(active)
                 && Capacity.Blocked(Scheduler(old(State())).slots, config.caps, old(active)[id].session))
      ensures r == Ran ==> MayFollow(old(active)[id].status, Running)
      ensures r == Refused ==> !MayFollow(old(active)[id].status, Running)
    {
      if id !in active {
        return Gone;
      }
      var t := active[id];
      var count := CountAt(runningBySession, t.session);
      if runningTotal < config.caps.all && count < config.caps.each {
        Admit(id);
        return if MayFollow(t.status, Running) then Ran else Refused;
      }
      Park(id, own);
      return Parked;
    }

    /** A waiter that is done leaves the list. */
    method ResumeWaiter(k: nat)
      requires k < |waiters| && waiters[k].done
      modifies `waiters
      ensures State() == old(State()).(
                waiters := Capacity.Apply(Scheduler(old(State())), config.caps, Capacity.Resume(k)).waiters)
    {
      waiters := waiters[..k] + waiters[k + 1..];
    }

    method WakeEverybody()
      modifies `waiters
      ensures waiters == Capacity.WakeAll(old(waiters))
    {
      for i := 0 to |waiters|
        modifies `waiters
        invariant |waiters| == |old(waiters)|
        invariant forall k :: 0 <= k < i ==> waiters[k] == old(waiters)[k].(done := true)
        invariant forall k :: i <= k < |waiters| ==> waiters[k] == old(waiters)[k]
      {
        if !waiters[i].done {
          waiters := waiters[i := waiters[i].(done := true)];
        }
      }
      assert waiters == Capacity.WakeAll(old(waiters));
    }

    method ReleaseExecutionSlot(id: string)
      modifies `active, `terminal, `waiters, `runningTotal, `runningBySession
      ensures State() == ReleaseTurn(old(State()), config, id)
    {
      var found := if id in active then Some(active[id]) else if id in terminal then Some(terminal[id]) else None;
      if found.None? || !found.value.holdsSlot {
        return;
      }
      var t := Traced(found.value.(holdsSlot := false), config.traceLimit, "capacity_released");
      if id in active {
        active := active[id := t];
      } else {
        terminal := terminal[id := t];
      }
      runningTotal := Max(0, runningTotal - 1);
      runningBySession := runningBySession[t.session := Max(0, CountAt(runningBySession, t.session) - 1)];
      WakeEverybody();
    }

    /** Forgets one finished Worker. */
    method Prune(id: string)
      modifies `terminal, `order, `leaked
      ensures State() == Pruned(old(State()), id)
    {
      leaked := Leak(State(), id);
      terminal := terminal - {id};
      order := Retention.Drop(order, id);
    }

    method CleanupTerminal(now: int)
      modifies `terminal, `order, `leaked, `pruned
      ensures State() == Cleaned(old(State()), config, now)
      ensures pruned - old(pruned) == |old(order)| - |order|
    {
      var todo, removed := order, 0;
      while todo != []
        invariant multiset(todo) <= multiset(order) && removed == |old(order)| - |order| && pruned == old(pruned)
        invariant CleanFrom(State(), config, now, todo, removed) == Cleaned(old(State()), config, now)
        invariant State() == old(State()).(terminal := terminal, order := order, leaked := leaked)
        decreases |todo|
      {
        var id := todo[0];
        var expired := id in terminal && terminal[id].completedAt.Some?
                       && now - terminal[id].completedAt.value > config.limits.ttl;
        NextIsThere(todo, order);
        todo := todo[1..];
        if expired || |order| - removed > config.limits.limit {
          Prune(id);
          removed := removed + 1;
        }
      }
      pruned := pruned + removed;
    }

    method CompleteTask(id: string, status: Status, reason: string, now: int) returns (r: Outcome)
      requires Terminal(status)
      modifies `active, `terminal, `order, `leaked, `pruned
      ensures r == CompletionOutcome(old(State()), id, status)
      ensures r == Done ==> Find(old(State()), id).Some? && id !in active
      ensures r == Done && id in terminal ==>
                if Terminal(Find(old(State()), id).value.status) then terminal[id] == Find(old(State()), id).value
                else terminal[id].status == status && terminal[id].completedAt == Some(now)
      ensures State() == CompleteTurn(old(State()), config, id, status, reason, now)
    {
      var found := if id in active then Some(active[id]) else if id in terminal then Some(terminal[id]) else None;
      if found.None? {
        return NotFound;
      }
      var t := found.value;
      ghost var m := State();
      if !Terminal(t.status) {
        if !MayFollow(t.status, status) {
          return Illegal;
        }
        t := Moved(t, config.traceLimit, status, reason, now);
      }
      active := active - {id};
      terminal := terminal[id := t];
      order := Retention.Drop(order, id) + [id];
      CompletionFiles(m, config, id, status, reason, now);
      CleanupTerminal(now);
      return Done;
    }

    method MarkWaitConsumed(ids: set<string>)
      requires active.Keys !! terminal.Keys
      modifies `active, `terminal
      ensures State() == old(State()).(active := Consumed(old(active), ids), terminal := Consumed(old(terminal), ids))
    {
      var todo := ids;
      ghost var seen: set<string> := {};
      while todo != {}
        invariant todo <= ids && seen == ids - todo
        invariant active.Keys == old(active.Keys) && terminal.Keys == old(terminal.Keys)
        invariant active == Consumed(old(active), seen) && terminal == Consumed(old(terminal), seen)
        decreases todo
      {
        var id :| id in todo;
        if id in active {
          active := active[id := active[id].(waitConsumed := true)];
        } else if id in terminal {
          terminal := terminal[id := terminal[id].(waitConsumed := true)];
        }
        todo, seen := todo - {id}, seen + {id};
      }
      assert seen == ids;
    }

    /** Records the request to stop one Worker. */
    method Ask(id: string, reason: string)
      requires id in active && !Terminal(active[id].status)
      modifies `active, `cancellations
      ensures State() == Begun(old(State()), config, id, reason)
    {
      var t := active[id];
      if t.status != Cancelling {
        assert MayFollow(t.status, Cancelling);
        t := Moved(t, config.traceLimit, Cancelling, reason, 0);
      }
      active := active[id := t.(reason := reason)];
      cancellations := cancellations + 1;
    }

    /** Asks a Worker and everything below it to stop.

        The parent links among active Workers must be acyclic: that is exactly when the recursion returns
        (`Cancellation.StopTerminatesIffAcyclic`).  Each Worker of the subtree is visited once. */
    method StopTask(id: string, reason: string) returns (ok: bool)
      requires Cancellation.Acyclic(ParentsIn(active)) && Live(active)
      modifies `active, `waiters, `cancellations
      ensures ok == (id in old(active))
      ensures State() == StopTurn(old(State()), config, id, reason)
      decreases if id in active then Cancellation.Subtree(ParentsIn(active), id) else {}, 1
    {
      if id !in active {
        return false;
      }
      ghost var m := State();
      StopTurnByParts(m, config, id, reason);
      BegunKeepsParents(m, config, id, reason);
      BegunKeepsLive(m, config, id, reason);
      Ask(id, reason);
      assert active == Begun(m, config, id, reason).active;
      CancelDescendants(id, "parent_cancelled:" + id);
      active := active[id := active[id].(stopped := true)];
      waiters := CancelWaiters(waiters, {id});
      return true;
    }

    /** Stops every child of a Worker. */
    method CancelDescendants(parent: string, reason: string)
      requires Cancellation.Acyclic(ParentsIn(active)) && Live(active) && parent in active
      modifies `active, `waiters, `cancellations
      ensures var parents := old(ParentsIn(active));
              var children := Cancellation.Children(parents, parent);
              State() == StoppedAll(old(State()), config, Cancellation.Below(parents, children), children, reason)
      decreases Cancellation.Subtree(ParentsIn(active), parent), 0
    {
      ghost var m, parents := State(), ParentsIn(active);
      var todo := set c | c in active && active[c].parent == parent;
      ghost var children := Cancellation.Children(parents, parent);
      assert todo == children;
      StopNobody(m, config, parents, children, reason);
      while todo != {}
        invariant todo <= children
        invariant State() == StoppedAll(m, config, Cancellation.Below(parents, children - todo), children, reason)
        invariant ParentsIn(active) == parents && Live(active)
        decreases todo
      {
        var c :| c in todo;
        Cancellation.ChildSubtree(parents, parent, c);
        StopChild(m, config, parent, children - todo, c, reason);
        StopTurnKeeps(State(), config, c, reason);
        var ok := StopTask(c, reason);
        Without(children, todo, c);
        todo := todo - {c};
      }
    }

    /** Stops those of `ids` that are active, each with everything below it. */
    method CancelWorkers(ids: set<string>, reason: string) returns (cancelled: set<string>)
      requires Cancellation.Acyclic(ParentsIn(active)) && Live(active)
      modifies `active, `waiters, `cancellations
      ensures cancelled == ids * old(active.Keys)
      ensures StoppedExactly(old(active), active, Cancellation.Below(old(ParentsIn(active)), ids))
    {
      ghost var parents, start := ParentsIn(active), active;
      cancelled := {};
      var todo := ids;
      assert ids - ids == {} && ids - {} == ids;
      while todo != {}
        invariant todo <= ids && cancelled == (ids - todo) * start.Keys
        invariant StoppedExactly(start, active, Cancellation.Below(parents, ids - todo))
        invariant ParentsIn(active) == parents && Live(active)
        decreases todo
      {
        var id :| id in todo;
        StopTurnKeeps(State(), config, id, reason);
        StopsSubtree(start, State(), config, parents, ids - todo, id, reason);
        Without(ids, todo, id);
        if id in active {
          var ok := StopTask(id, reason);
          cancelled := cancelled + {id};
        }
        todo := todo - {id};
      }
    }
  }

  /** The Workers of `stopped` are cancelling and their futures cancelled; nobody else changed. */
  ghost predicate StoppedExactly(before: Records, now: Records, stopped: set<string>) {
    && now.Keys == before.Keys
    && forall x :: x in now ==>
         if x in stopped then now[x].status == Cancelling && now[x].stopped else now[x] == before[x]
  }

  lemma Without(all: set<string>, todo: set<string>, c: string)
    requires c in todo && todo <= all
    ensures all - (todo - {c}) == (all - todo) + {c}
  {
  }

  /** One request reaches every active Worker below the root once and leaves everybody else as they were. */
  lemma StopReachesTheSubtree(m: Registry, c: Config, id: string, reason: string, x: string)
    requires id in m.active && x in m.active
    ensures var r := StopTurn(m, c, id, reason);
            && StoppedExactly(m.active, r.active, Cancellation.Subtree(ParentsIn(m.active), id))
            && (x in Cancellation.Subtree(ParentsIn(m.active), id) ==>
                  r.active[x].reason == if x == id then reason else "parent_cancelled:" + m.active[x].parent)
            && r.cancellations == m.cancellations + |Cancellation.Subtree(ParentsIn(m.active), id)|
            && r.terminal == m.terminal && r.order == m.order && r.total == m.total && r.bySession == m.bySession
  {
  }

  lemma StopNobody(m: Registry, c: Config, p: Cancellation.Parents, roots: set<string>, reason: string)
    ensures roots - roots == {} && roots - {} == roots
    ensures StoppedAll(m, c, Cancellation.Below(p, {}), roots, reason) == m
  {
    assert Cancellation.Below(p, {}) == {};
    assert StoppedRecords(m.active, c.traceLimit, {}, roots, reason) == m.active;
    assert CancelWaiters(m.waiters, {}) == m.waiters;
  }

  lemma StopTurnKeeps(m: Registry, c: Config, id: string, reason: string)
    requires Live(m.active)
    ensures Live(StopTurn(m, c, id, reason).active)
    ensures ParentsIn(StopTurn(m, c, id, reason).active) == ParentsIn(m.active)
  {
    if id in m.active {
      StopKeepsParents(m.active, c.traceLimit, Cancellation.Subtree(ParentsIn(m.active), id), {id}, reason);
    }
  }

  lemma StopsSubtree(
    before: Records, m: Registry, c: Config, p: Cancellation.Parents, seen: set<string>, id: string, reason: string)
    requires ParentsIn(m.active) == p
    requires StoppedExactly(before, m.active, Cancellation.Below(p, seen))
    ensures StoppedExactly(before, StopTurn(m, c, id, reason).active, Cancellation.Below(p, seen + {id}))
  {
    if id !in p {
      NothingBelow(p, id);
    }
    BelowOneMore(p, seen, id);
  }

  lemma BelowOneMore(p: Cancellation.Parents, cs: set<string>, c: string)
    ensures Cancellation.Below(p, cs + {c}) == Cancellation.Below(p, cs) + Cancellation.Subtree(p, c)
  {
  }

  lemma {:induction false} NothingBelow(p: Cancellation.Parents, id: string)
    requires id !in p
    ensures Cancellation.Subtree(p, id) == {}
  {
    forall x, n: nat
      ensures !Cancellation.Climbs(p, x, id, n)
    {
      EndsActive(p, x, id, n);
    }
  }

  lemma {:induction false} EndsActive(p: Cancellation.Parents, x: string, id: string, n: nat)
    ensures Cancellation.Climbs(p, x, id, n) ==> id in p
    decreases n
  {
    if n > 0 && x in p {
      EndsActive(p, p[x], id, n - 1);
    }
  }
}
