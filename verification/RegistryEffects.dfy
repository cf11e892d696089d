/** What each operation of the task manager does to the records, the slots and the queue, field by field. */
module RegistryEffects {
  import opened Collections
  import opened WorkerLifecycle
  import opened WorkerRegistry
  import Capacity
  import Retention

  /** Every record but that of `id` is where it was, as it was. */
  ghost predicate OthersStay(r: Registry, m: Registry, id: string) {
    forall x :: x != id ==> Find(r, x) == Find(m, x) && (x in r.active <==> x in m.active)
  }

  lemma PutEffect(m: Registry, id: string, t: Task)
    requires Find(m, id).Some?
    ensures var r := Put(m, id, t);
            && Find(r, id) == Some(t) && OthersStay(r, m, id)
            && r.active.Keys == m.active.Keys && r.terminal.Keys == m.terminal.Keys
            && r == m.(active := r.active, terminal := r.terminal)
  {
  }

  /** A transition that is done gives exactly that Worker the status asked for, wherever its record is. */
  lemma TransitionEffect(m: Registry, c: Config, id: string, status: Status, reason: string, now: int)
    requires RecordsOk(m, c) && Find(m, id).Some? && MayFollow(Find(m, id).value.status, status)
    ensures var r, t := Transitioned(m, c, id, status, reason, now), Find(m, id).value;
            && Find(r, id).Some? && Find(r, id).value.status == status && SameTask(Find(r, id).value, t)
            && (Terminal(status) ==> Find(r, id).value.completedAt == Some(now))
            && LastTraced(Find(r, id).value, Entry(|t.history| + 1, status, reason, t.attempt))
            && OthersStay(r, m, id) && r == m.(active := r.active, terminal := r.terminal)
  {
    FoundIsRecorded(m, c, id);
    MoveWrites(Find(m, id).value, c.traceLimit, status, reason, now);
    PutEffect(m, id, Moved(Find(m, id).value, c.traceLimit, status, reason, now));
  }

  /** The record that a completion files: the one the Worker had finished with, or one with the status asked for. */
  function FinalOf(t: Task, limit: int, status: Status, reason: string, now: int): Task {
    if Terminal(t.status) then t else Moved(t, limit, status, reason, now)
  }

  /** A completed Worker is active no longer, and its final record is its record as long as it is retained; everybody
      else keeps theirs as long as they are retained. */
  lemma CompletionFiles(m: Registry, c: Config, id: string, status: Status, reason: string, now: int)
    requires CompletionOutcome(m, id, status) == Done
    ensures var r := CompleteTurn(m, c, id, status, reason, now);
            && r.active == m.active - {id}
            && (id in r.terminal ==> r.terminal[id] == FinalOf(Find(m, id).value, c.traceLimit, status, reason, now))
            && (forall x :: x in r.terminal && x != id ==> x in m.terminal && r.terminal[x] == m.terminal[x])
            && r == m.(active := r.active, terminal := r.terminal, order := r.order, leaked := r.leaked)
  {
    var filed := Filed(m, id, FinalOf(Find(m, id).value, c.traceLimit, status, reason, now));
    CleanKeepsRest(filed, c, now, filed.order, 0);
  }

  lemma {:induction false} CleanKeepsRest(m: Registry, c: Config, now: int, todo: seq<string>, removed: nat)
    ensures var r := CleanFrom(m, c, now, todo, removed);
            && r == m.(terminal := r.terminal, order := r.order, leaked := r.leaked)
            && forall x :: x in r.terminal ==> x in m.terminal && r.terminal[x] == m.terminal[x]
    decreases |todo|
  {
    if todo != [] {
      CleanKeepsRest(m, c, now, todo[1..], removed);
      CleanKeepsRest(Pruned(m, todo[0]), c, now, todo[1..], removed + 1);
    }
  }

  /** So a Worker that is completed with a status is found with it, until it is evicted; one that had finished already
      keeps its own ending. */
  lemma CompletionEffect(m: Registry, c: Config, id: string, status: Status, reason: string, now: int)
    requires RecordsOk(m, c) && CompletionOutcome(m, id, status) == Done
    ensures var r, t := CompleteTurn(m, c, id, status, reason, now), Find(m, id).value;
            && id !in r.active
            && (id in r.terminal && Terminal(t.status) ==> r.terminal[id] == t)
            && (id in r.terminal && !Terminal(t.status) ==>
                  && r.terminal[id].status == status && SameTask(r.terminal[id], t)
                  && (Terminal(status) ==> r.terminal[id].completedAt == Some(now))
                  && LastTraced(r.terminal[id], Entry(|t.history| + 1, status, reason, t.attempt)))
  {
    FoundIsRecorded(m, c, id);
    CompletionFiles(m, c, id, status, reason, now);
    MoveWrites(Find(m, id).value, c.traceLimit, status, reason, now);
  }

  /** Which statuses may come before a new one. */
  lemma AllowedAfter(before: Status, after: Status)
    ensures after in Allowed(before) <==>
              match after
              case Pending => false
              case Running => before in {Pending, Waiting, Retrying}
              case Waiting => before == Running
              case Retrying => before in {Running, Waiting}
              case Cancelling => before in {Pending, Running, Waiting, Retrying}
              case Completed => before == Running
              case TimedOut => before in {Running, Waiting, Retrying}
              case Failed => !Terminal(before)
              case Cancelled => !Terminal(before)
  {
  }

  /** A registration leaves a pending record with what was asked for; every other record stays where it is. */
  lemma RegistrationEffect(
    m: Registry, c: Config, id: string, session: string, turn: string, parent: string, join: bool,
    mode: WaitMode, quorum: int, waitTimeout: real)
    requires c.traceLimit >= 1
    ensures var r := Apply(m, c, Register(id, session, turn, parent, join, mode, quorum, waitTimeout));
            && id in r.active && id !in r.terminal
            && r.active[id].session == session && r.active[id].turn == turn && r.active[id].parent == parent
            && r.active[id].join == join && r.active[id].mode == mode && r.active[id].status == Pending
            && (quorum >= 1 ==> r.active[id].quorum == quorum) && !r.active[id].waitConsumed
            && r.active[id].attempt == (if Find(m, id).Some? then Find(m, id).value.attempt + 1 else 1)
            && OthersStay(r, m, id)
            && r.total == m.total && r.bySession == m.bySession && r.cancellations == m.cancellations
  {
    NewTaskHolds(session, turn, parent, join, mode, quorum, waitTimeout, Attempt(m, id), c.traceLimit);
  }

  predicate SlotFree(m: Registry, c: Config, session: string) {
    m.total < c.caps.all && CountAt(m.bySession, session) < c.caps.each
  }

  /** A free slot is given: the Worker holds it, runs if it may, and both counters rise by one. */
  lemma AcquireEffect(m: Registry, c: Config, id: string, own: bool)
    requires id in m.active && Recorded(m.active[id], c.traceLimit) && SlotFree(m, c, m.active[id].session)
    ensures var r, t := AcquireTurn(m, c, id, own), m.active[id];
            && id in r.active && r.active[id].holdsSlot && r.active == m.active[id := r.active[id]]
            && r.active[id].status == (if MayFollow(t.status, Running) then Running else t.status)
            && (MayFollow(t.status, Running) ==>
                  LastTraced(r.active[id], Entry(|t.history| + 1, Running, "capacity_acquired", t.attempt)))
            && r.total == m.total + 1 && r.bySession == m.bySession[t.session := CountAt(m.bySession, t.session) + 1]
            && r.waiters == m.waiters && r.terminal == m.terminal && r.order == m.order
  {
    var t := m.active[id].(holdsSlot := true);
    AppendFollowsHistory(t.history, c.traceLimit, Running, "capacity_acquired", t.attempt);
  }

  /** Behind a limit that is reached it parks at the end of the queue, and no counter moves. */
  lemma ParkEffect(m: Registry, c: Config, id: string, own: bool)
    requires id in m.active && Recorded(m.active[id], c.traceLimit) && !SlotFree(m, c, m.active[id].session)
    ensures var r, t := AcquireTurn(m, c, id, own), m.active[id];
            && id in r.active && r.active == m.active[id := r.active[id]]
            && r.active[id].status == t.status && SameTask(r.active[id], t)
            && LastTraced(r.active[id], Entry(|t.history| + 1, t.status, "capacity_wait", t.attempt))
            && r.waiters == m.waiters + [Capacity.Waiter(id, t.session, own, false)]
            && r.total == m.total && r.bySession == m.bySession && r.terminal == m.terminal && r.order == m.order
  {
    var t := m.active[id];
    AppendFollowsHistory(t.history, c.traceLimit, t.status, "capacity_wait", t.attempt);
  }

  /** A waiter that is done leaves the queue; the others keep their order and nothing else changes. */
  lemma ResumeEffect(m: Registry, c: Config, k: nat, i: nat)
    requires k < |m.waiters| && i < |m.waiters| && m.waiters[k].done
    ensures var r := Apply(m, c, Resume(k));
            && r == m.(waiters := r.waiters) && |r.waiters| == |m.waiters| - 1
            && (i < k ==> r.waiters[i] == m.waiters[i]) && (i > k ==> r.waiters[i - 1] == m.waiters[i])
  {
  }

  lemma HolderCounts(m: Registry, c: Config, id: string)
    requires TablesOk(m, c) && Find(m, id).Some? && Find(m, id).value.holdsSlot
    ensures m.total >= 1 && CountAt(m.bySession, Find(m, id).value.session) >= 1
  {
    HeldSession(m, c, id);
    Capacity.ClampsNeverAct(Scheduler(m).slots, c.caps, id);
  }

  /** A release of a held slot lowers both counters by one and wakes everybody parked. */
  ghost predicate GaveBack(r: Registry, m: Registry, id: string, t: Task) {
    && Find(r, id).Some? && !Find(r, id).value.holdsSlot && Find(r, id).value.status == t.status
    && CountAt(m.bySession, t.session) >= 1
    && r.total == m.total - 1 && r.bySession == m.bySession[t.session := CountAt(m.bySession, t.session) - 1]
    && |r.waiters| == |m.waiters| && (forall i :: 0 <= i < |r.waiters| ==> r.waiters[i] == m.waiters[i].(done := true))
    && OthersStay(r, m, id) && r.order == m.order
  }

  lemma ReleaseEffect(m: Registry, c: Config, id: string)
    requires TablesOk(m, c) && Find(m, id).Some? && Find(m, id).value.holdsSlot
    ensures GaveBack(ReleaseTurn(m, c, id), m, id, Find(m, id).value)
  {
    HolderCounts(m, c, id);
    ReleaseOf(m, c, id);
  }

  lemma ReleaseOf(m: Registry, c: Config, id: string)
    requires Find(m, id).Some? && Find(m, id).value.holdsSlot
    requires m.total >= 1 && CountAt(m.bySession, Find(m, id).value.session) >= 1
    ensures GaveBack(ReleaseTurn(m, c, id), m, id, Find(m, id).value)
  {
    PutEffect(m, id, Traced(Find(m, id).value.(holdsSlot := false), c.traceLimit, "capacity_released"));
  }
}
