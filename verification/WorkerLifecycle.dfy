/** The life of one Worker: its statuses, the transitions between them and the bounded trace that records them. */
module WorkerLifecycle {
  import opened Collections

  datatype Status =
    | Pending | Running | Waiting | Retrying | Cancelling
    | Completed | Failed | Cancelled | TimedOut

  predicate Terminal(s: Status) {
    s in {Completed, Failed, Cancelled, TimedOut}
  }

  function Allowed(s: Status): set<Status> {
    match s
    case Pending => {Running, Cancelling, Cancelled, Failed}
    case Running => {Waiting, Retrying, Cancelling, Completed, Failed, Cancelled, TimedOut}
    case Waiting => {Running, Retrying, Cancelling, Failed, Cancelled, TimedOut}
    case Retrying => {Running, Cancelling, Failed, Cancelled, TimedOut}
    case Cancelling => {Cancelled, Failed}
    case _ => {}
  }

  /** A status may be repeated or replaced by an allowed one. */
  predicate MayFollow(current: Status, target: Status) {
    current == target || target in Allowed(current)
  }

  datatype Entry = Entry(sequence: nat, status: Status, reason: string, attempt: nat)

  ghost predicate Legal(h: seq<Entry>) {
    forall i :: 0 < i < |h| ==> MayFollow(h[i - 1].status, h[i].status)
  }

  ghost predicate Numbered(h: seq<Entry>) {
    forall i :: 0 <= i < |h| ==> h[i].sequence == i + 1
  }

  lemma {:induction false} TerminalIsAbsorbing(h: seq<Entry>, i: nat, j: nat)
    requires Legal(h) && i <= j < |h|
    requires Terminal(h[i].status)
    ensures h[j].status == h[i].status
    decreases j
  {
    if i < j {
      TerminalIsAbsorbing(h, i, j - 1);
    }
  }

  /** A cancelled Worker can only end as cancelled or failed. */
  lemma {:induction false} CancellingNeverSucceeds(h: seq<Entry>, i: nat, j: nat)
    requires Legal(h) && i <= j < |h|
    requires h[i].status == Cancelling
    ensures h[j].status in {Cancelling, Cancelled, Failed}
    decreases j
  {
    if i < j {
      CancellingNeverSucceeds(h, i, j - 1);
    }
  }

  /** Only a Worker that has been running completes or times out. */
  lemma {:induction false} SuccessNeedsRunning(h: seq<Entry>, j: nat) returns (i: nat)
    requires Legal(h) && j < |h|
    requires h[0].status == Pending
    requires h[j].status in {Waiting, Retrying, Completed, TimedOut}
    ensures i < j && h[i].status == Running
    decreases j
  {
    if h[j - 1].status == Running {
      i := j - 1;
    } else {
      i := SuccessNeedsRunning(h, j - 1);
    }
  }

  /** Appends the next numbered entry and deletes the oldest ones beyond `limit`. */
  function Append(trace: seq<Entry>, limit: int, status: Status, reason: string, attempt: nat): seq<Entry> {
    var next := if trace == [] then 1 else trace[|trace| - 1].sequence + 1;
    var longer := trace + [Entry(next, status, reason, attempt)];
    if |longer| > limit then longer[Min(|longer| - limit, |longer|)..] else longer
  }

  /** With room for at least one entry, the trace is the tail of a consecutively numbered history. */
  lemma AppendFollowsHistory(h: seq<Entry>, limit: int, status: Status, reason: string, attempt: nat)
    requires limit >= 1 && Numbered(h)
    ensures Numbered(h + [Entry(|h| + 1, status, reason, attempt)])
    ensures Append(LastN(h, limit), limit, status, reason, attempt)
            == LastN(h + [Entry(|h| + 1, status, reason, attempt)], limit)
  {
    var last, e := LastN(h, limit), Entry(|h| + 1, status, reason, attempt);
    if h != [] {
      assert last[|last| - 1] == h[|h| - 1];
    }
    assert Append(last, limit, status, reason, attempt) == Trimmed(last + [e], limit);
    TrimmedTail(h, e, limit);
  }

  function Trimmed(longer: seq<Entry>, limit: int): seq<Entry> {
    if |longer| > limit then longer[Min(|longer| - limit, |longer|)..] else longer
  }

  lemma TrimmedTail(h: seq<Entry>, e: Entry, limit: int)
    requires limit >= 1
    ensures Trimmed(LastN(h, limit) + [e], limit) == LastN(h + [e], limit)
  {
    if |h| >= limit {
      var k := |h| - limit;
      assert LastN(h, limit) + [e] == (h + [e])[k..];
      assert (h + [e])[k..][1..] == (h + [e])[k + 1..];
    }
  }

  datatype Note = Note(status: Status, reason: string, attempt: nat)

  /** The trace after writing some notes into an empty one. */
  function Written(notes: seq<Note>, limit: int): seq<Entry> {
    if notes == [] then []
    else
      var last := notes[|notes| - 1];
      Append(Written(notes[..|notes| - 1], limit), limit, last.status, last.reason, last.attempt)
  }

  /** The bound is exact: however many notes are written, their numbering keeps up with them if and only if the limit
      leaves room for one entry. */
  lemma {:induction false} NumberingNeedsRoom(notes: seq<Note>, limit: int)
    requires notes != []
    ensures var trace := Written(notes, limit);
            limit >= 1 <==> trace != [] && trace[|trace| - 1].sequence == |notes|
  {
    if limit >= 1 && |notes| > 1 {
      NumberingNeedsRoom(notes[..|notes| - 1], limit);
    }
  }

  datatype WaitMode = All | Any | Quorum

  /** One registered Worker.  `history` is the untruncated trace; no operation reads it. */
  datatype Task = Task(
    session: string, turn: string, parent: string, join: bool,
    mode: WaitMode, quorum: nat, waitTimeout: real, attempt: nat,
    status: Status, completedAt: Option<int>, waitConsumed: bool, holdsSlot: bool,
    reason: string, stopped: bool, trace: seq<Entry>, history: seq<Entry>)

  ghost predicate Recorded(t: Task, limit: int) {
    && limit >= 1
    && t.history != [] && t.history[0].status == Pending
    && Legal(t.history) && Numbered(t.history)
    && t.history[|t.history| - 1].status == t.status
    && t.trace == LastN(t.history, limit)
  }

  /** Writes the Worker's present status and attempt into its trace. */
  function Traced(t: Task, limit: int, reason: string): Task {
    t.(trace := Append(t.trace, limit, t.status, reason, t.attempt),
       history := t.history + [Entry(|t.history| + 1, t.status, reason, t.attempt)])
  }

  lemma TracedKeepsRecord(t: Task, status: Status, limit: int, reason: string)
    requires Recorded(t, limit) && MayFollow(t.status, status)
    ensures Recorded(Traced(t.(status := status), limit, reason), limit)
  {
    var h, e := t.history, Entry(|t.history| + 1, status, reason, t.attempt);
    AppendFollowsHistory(h, limit, status, reason, t.attempt);
    LegalSnoc(h, e);
    assert (h + [e])[0] == h[0] && (h + [e])[|h|] == e;
  }

  /** What was written last is the last entry of the trace. */
  lemma LastEntry(t: Task, limit: int, attempt: nat, reason: string)
    requires Recorded(t, limit)
    ensures var r := Traced(t.(attempt := attempt), limit, reason);
            && t.history <= r.history && |r.history| == |t.history| + 1
            && r.trace != [] && r.trace[|r.trace| - 1] == Entry(|t.history| + 1, t.status, reason, attempt)
  {
    AppendFollowsHistory(t.history, limit, t.status, reason, attempt);
  }

  lemma LegalSnoc(h: seq<Entry>, e: Entry)
    requires Legal(h) && h != [] && MayFollow(h[|h| - 1].status, e.status)
    ensures Legal(h + [e])
  {
    var g := h + [e];
    forall i | 0 < i < |g|
      ensures MayFollow(g[i - 1].status, g[i].status)
    {
      if i < |h| {
        assert g[i - 1] == h[i - 1] && g[i] == h[i];
      }
    }
  }

  function NewTask(
    session: string, turn: string, parent: string, join: bool,
    mode: WaitMode, quorum: int, waitTimeout: real, attempt: nat, limit: int): Task
  {
    var t := Task(session, turn, parent, join, mode, Max(1, quorum),
                  if waitTimeout < 0.1 then 0.1 else waitTimeout, attempt,
                  Pending, None, false, false, "", false, [], []);
    Traced(t, limit, "registered")
  }

  lemma NewTaskIsRecorded(
    session: string, turn: string, parent: string, join: bool,
    mode: WaitMode, quorum: int, waitTimeout: real, attempt: nat, limit: int)
    requires limit >= 1
    ensures Recorded(NewTask(session, turn, parent, join, mode, quorum, waitTimeout, attempt, limit), limit)
  {
  }

  /** The record after a legal transition; a terminal status is stamped with the time. */
  function Moved(t: Task, limit: int, status: Status, reason: string, now: int): Task {
    Traced(t.(status := status, completedAt := if Terminal(status) then Some(now) else t.completedAt), limit, reason)
  }

  /** The record once a cancellation is asked for, and after its future was cancelled as well. */
  function Asked(t: Task, limit: int, reason: string): Task {
    var moved := if t.status == Cancelling then t else Moved(t, limit, Cancelling, reason, 0);
    moved.(reason := reason)
  }

  function Stopped(t: Task, limit: int, reason: string): Task {
    Asked(t, limit, reason).(stopped := true)
  }

  /** Every transition leaves an entry, so it is visible even if the status repeats. */
  lemma MovedDiffers(t: Task, limit: int, status: Status, reason: string, now: int)
    ensures Moved(t, limit, status, reason, now) != t
  {
    assert |Moved(t, limit, status, reason, now).history| == |t.history| + 1;
  }

  /** `r` is `t` but for its status, time of completion, reason, stop flag and what was traced. */
  predicate SameTask(r: Task, t: Task) {
    && r.session == t.session && r.turn == t.turn && r.parent == t.parent && r.join == t.join
    && r.mode == t.mode && r.quorum == t.quorum && r.waitTimeout == t.waitTimeout && r.attempt == t.attempt
    && r.waitConsumed == t.waitConsumed && r.holdsSlot == t.holdsSlot
  }

  /** The newest entry of a Worker's trace. */
  predicate LastTraced(r: Task, e: Entry) {
    r.trace != [] && r.trace[|r.trace| - 1] == e && r.history != [] && r.history[|r.history| - 1] == e
  }

  /** A move leaves the status asked for, the time of completion exactly with a terminal one, and a trace entry that
      says so; nothing else changes. */
  lemma MoveWrites(t: Task, limit: int, status: Status, reason: string, now: int)
    requires Recorded(t, limit)
    ensures var r := Moved(t, limit, status, reason, now);
            && r.status == status
            && (Terminal(status) ==> r.completedAt == Some(now))
            && (!Terminal(status) ==> r.completedAt == t.completedAt)
            && SameTask(r, t) && r.reason == t.reason && r.stopped == t.stopped
            && t.history <= r.history && LastTraced(r, Entry(|t.history| + 1, status, reason, t.attempt))
  {
    AppendFollowsHistory(t.history, limit, status, reason, t.attempt);
  }

  /** A request to stop leaves a cancelling Worker with the reason, a cancelled future and one trace entry, unless it
      was cancelling before; nothing else changes. */
  lemma StopWrites(t: Task, limit: int, reason: string)
    requires Recorded(t, limit)
    ensures var r := Stopped(t, limit, reason);
            && r.status == Cancelling && r.reason == reason && r.stopped
            && SameTask(r, t) && r.completedAt == t.completedAt
            && (t.status == Cancelling ==> r.trace == t.trace && r.history == t.history)
            && (t.status != Cancelling ==>
                  t.history <= r.history && LastTraced(r, Entry(|t.history| + 1, Cancelling, reason, t.attempt)))
  {
    MoveWrites(t, limit, Cancelling, reason, 0);
  }

  /** A new record holds what it was registered with, pending, unfinished and without a slot. */
  lemma NewTaskHolds(
    session: string, turn: string, parent: string, join: bool,
    mode: WaitMode, quorum: int, waitTimeout: real, attempt: nat, limit: int)
    requires limit >= 1
    ensures var t := NewTask(session, turn, parent, join, mode, quorum, waitTimeout, attempt, limit);
            && t.session == session && t.turn == turn && t.parent == parent && t.join == join && t.mode == mode
            && t.quorum >= 1 && (quorum >= 1 ==> t.quorum == quorum) && (quorum < 1 ==> t.quorum == 1)
            && (waitTimeout >= 0.1 ==> t.waitTimeout == waitTimeout) && (waitTimeout < 0.1 ==> t.waitTimeout == 0.1)
            && t.attempt == attempt && t.status == Pending && t.completedAt.None?
            && !t.waitConsumed && !t.holdsSlot && !t.stopped
            && t.trace == [Entry(1, Pending, "registered", attempt)] && t.history == t.trace
  {
  }

  lemma MoveKeepsRecord(t: Task, limit: int, status: Status, reason: string, now: int)
    requires Recorded(t, limit) && MayFollow(t.status, status)
    ensures Recorded(Moved(t, limit, status, reason, now), limit)
  {
    TracedKeepsRecord(t, status, limit, reason);
  }

  lemma ReleaseKeepsRecord(t: Task, limit: int)
    requires Recorded(t, limit)
    ensures Recorded(Traced(t.(holdsSlot := false), limit, "capacity_released"), limit)
  {
    var r := t.(holdsSlot := false);
    TracedKeepsRecord(r, r.status, limit, "capacity_released");
    assert r.(status := r.status) == r;
  }

  lemma StopKeepsRecord(t: Task, limit: int, reason: string)
    requires Recorded(t, limit) && !Terminal(t.status)
    ensures Recorded(Stopped(t, limit, reason), limit)
  {
    TracedKeepsRecord(t, Cancelling, limit, reason);
  }
}
