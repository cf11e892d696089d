/** Turns: their records, and the submissions, executions, cancellations and recoveries that change them.

    A submission holds its session's lock and suspends between its steps;
    everything else may run in between. */
module Turns {
  import opened Collections

  datatype Status = Accepted | Running | Completed | Failed | Cancelled | Interrupted

  const DISPATCH_FAILED := "dispatch_failed"

  datatype Turn = Turn(
    session: string, user: string, key: Option<string>, input: string, status: Status,
    finalText: Option<string>, errorKind: Option<string>, startedAt: Option<int>, completedAt: Option<int>)

  type Table = map<string, Turn>

  predicate Terminal(s: Status) {
    s != Accepted && s != Running
  }

  predicate Active(t: Turn) {
    !Terminal(t.status)
  }

  /** A failed dispatch is the one ending that a retry may undo. */
  predicate Retryable(t: Turn) {
    t.status == Failed && t.errorKind == Some(DISPATCH_FAILED)
  }

  predicate HasKey(t: Turn, user: string, session: string, key: string) {
    t.user == user && t.session == session && t.key == Some(key)
  }

  ghost predicate Holds(all: Table, id: string, user: string, session: string, key: Option<string>) {
    id in all && key.Some? && HasKey(all[id], user, session, key.value)
  }

  /** The turn of an idempotency key. */
  ghost function Holder(all: Table, user: string, session: string, key: Option<string>): (r: Option<string>)
    ensures r.Some? ==> Holds(all, r.value, user, session, key)
    ensures r.None? ==> forall id :: !Holds(all, id, user, session, key)
  {
    if id :| Holds(all, id, user, session, key) then Some(id) else None
  }

  /** An empty key is stored, and at most once per user and session, but never looked up. */
  predicate LooksUp(key: Option<string>) {
    key.Some? && key.value != ""
  }

  function NewTurn(session: string, user: string, key: Option<string>, input: string): Turn {
    Turn(session, user, key, input, Accepted, None, None, None, None)
  }

  /** The record after a status change that goes through. */
  function Rewritten(t: Turn, status: Status, finalText: Option<string>, errorKind: Option<string>, now: int): Turn {
    var r := t.(status := status, finalText := finalText, errorKind := errorKind);
    match status
    case Accepted => r.(startedAt := None, completedAt := None)
    case Running => r.(startedAt := Some(now))
    case _ => r.(completedAt := Some(now))
  }

  /** An ending stands: only the same status may be written again, or a failed dispatch be accepted again. */
  predicate Blocked(t: Turn, status: Status) {
    Terminal(t.status) && t.status != status && !(Retryable(t) && status == Accepted)
  }

  function Updated(all: Table, id: string, status: Status, finalText: Option<string>, errorKind: Option<string>, now: int): Table
    requires id in all
  {
    if Blocked(all[id], status) then all else all[id := Rewritten(all[id], status, finalText, errorKind, now)]
  }

  function Recovered(all: Table, now: int): Table {
    map id | id in all ::
      if Active(all[id]) then Rewritten(all[id], Interrupted, None, Some("gateway_restart"), now) else all[id]
  }

  // ---------------------------------------------------------- submissions

  datatype Request = Request(user: string, session: string, key: Option<string>, input: string)

  /** Where a submission stands: about to look for its key, to look for an active turn, to create the turn,
      to accept a failed one again, or to dispatch. */
  datatype Stage = AtKey | AtActive | AtCreate | AtRetry(id: string) | AtDispatch(id: string, retried: bool)

  datatype Submission = Submission(request: Request, stage: Stage)

  datatype Reply = Reply(request: Request, id: string, duplicate: bool)

  /** `open` holds one submission per locked session. */
  datatype State = State(turns: Table, open: map<string, Submission>, replies: seq<Reply>)

  const START := State(map[], map[], [])

  datatype Step =
    | Submit(request: Request)
    | LookUpKey(session: string)
    | LookForActive(session: string)
    | Create(session: string, id: string)
    | Retry(session: string, now: int)
    | Dispatch(session: string)
    | DispatchFails(session: string, now: int)
    | Abort(session: string)
    | Update(id: string, status: Status, finalText: Option<string>, errorKind: Option<string>, now: int)
    | Recover(now: int)

  function StageOf(s: State, session: string): Option<Stage> {
    if session in s.open then Some(s.open[session].stage) else None
  }

  function Moved(s: State, session: string, stage: Stage): State
    requires session in s.open
  {
    s.(open := s.open[session := s.open[session].(stage := stage)])
  }

  function Closed(s: State, session: string): State {
    s.(open := s.open - {session})
  }

  function Replied(s: State, session: string, id: string, duplicate: bool): State
    requires session in s.open
  {
    Closed(s, session).(replies := s.replies + [Reply(s.open[session].request, id, duplicate)])
  }

  ghost predicate Enabled(s: State, step: Step) {
    match step
    case Submit(r) => r.session !in s.open
    case LookUpKey(x) => StageOf(s, x) == Some(AtKey)
    case LookForActive(x) => StageOf(s, x) == Some(AtActive)
    case Create(x, id) => StageOf(s, x) == Some(AtCreate) && id !in s.turns
    case Retry(x, _) => StageOf(s, x).Some? && StageOf(s, x).value.AtRetry?
    case Dispatch(x) => StageOf(s, x).Some? && StageOf(s, x).value.AtDispatch?
    case DispatchFails(x, _) => StageOf(s, x).Some? && StageOf(s, x).value.AtDispatch?
    case Abort(x) => x in s.open
    // Only a submission writes `Accepted`.
    case Update(id, status, _, _, _) => id in s.turns && status != Accepted
    case Recover(_) => true
  }

  /** Looks for the key's turn: another request's is a conflict, one whose dispatch failed goes on. */
  ghost function KeyLookedUp(s: State, x: string): State
    requires x in s.open
  {
    var r := s.open[x].request;
    var holder := Holder(s.turns, r.user, r.session, r.key);
    if !LooksUp(r.key) || holder.None? then Moved(s, x, AtActive)
    else if s.turns[holder.value].input != r.input then Closed(s, x)
    else if Retryable(s.turns[holder.value]) then Moved(s, x, AtActive)
    else Replied(s, x, holder.value, true)
  }

  ghost predicate HasActive(all: Table, session: string) {
    exists id :: id in all && all[id].session == session && Active(all[id])
  }

  /** Creates the turn, unless its key has one by now; a second empty key violates the table's uniqueness rule. */
  ghost function TurnCreated(s: State, x: string, id: string): State
    requires x in s.open
  {
    var r := s.open[x].request;
    var holder := Holder(s.turns, r.user, r.session, r.key);
    if holder.None? then
      Moved(s.(turns := s.turns[id := NewTurn(r.session, r.user, r.key, r.input)]), x, AtDispatch(id, false))
    else if !LooksUp(r.key) then Closed(s, x)
    else if Retryable(s.turns[holder.value]) then Moved(s, x, AtRetry(holder.value))
    else Replied(s, x, holder.value, true)
  }

  function WithUpdate(s: State, id: string, status: Status, finalText: Option<string>, errorKind: Option<string>, now: int): State {
    if id in s.turns then s.(turns := Updated(s.turns, id, status, finalText, errorKind, now)) else s
  }

  ghost function Next(s: State, step: Step): State {
    if !Enabled(s, step) then s else
    match step
    case Submit(r) => s.(open := s.open[r.session := Submission(r, AtKey)])
    case LookUpKey(x) => KeyLookedUp(s, x)
    case LookForActive(x) => if HasActive(s.turns, x) then Closed(s, x) else Moved(s, x, AtCreate)
    case Create(x, id) => TurnCreated(s, x, id)
    case Retry(x, now) =>
      var id := s.open[x].stage.id;
      Moved(WithUpdate(s, id, Accepted, None, None, now), x, AtDispatch(id, true))
    case Dispatch(x) => Replied(s, x, s.open[x].stage.id, s.open[x].stage.retried)
    case DispatchFails(x, now) =>
      Closed(WithUpdate(s, s.open[x].stage.id, Failed, None, Some(DISPATCH_FAILED), now), x)
    case Abort(x) => Closed(s, x)
    case Update(id, status, finalText, errorKind, now) => WithUpdate(s, id, status, finalText, errorKind, now)
    case Recover(now) => s.(turns := Recovered(s.turns, now))
  }

  ghost function Run(s: State, steps: seq<Step>): State
    decreases |steps|
  {
    if steps == [] then s else Run(Next(s, steps[0]), steps[1..])
  }

  // ----------------------------------------------------------- invariants

  ghost predicate KeysUnique(all: Table) {
    forall a, b :: a in all && b in all && a != b && all[a].key.Some?
      ==> !HasKey(all[b], all[a].user, all[a].session, all[a].key.value)
  }

  ghost predicate OneActive(all: Table) {
    forall a, b :: a in all && b in all && a != b && all[a].session == all[b].session
      ==> !(Active(all[a]) && Active(all[b]))
  }

  /** An ended turn has an end and an active one has none. */
  ghost predicate Timed(all: Table) {
    forall id :: id in all ==> (Terminal(all[id].status) <==> all[id].completedAt.Some?)
  }

  /** Between its look for an active turn and the creation, a submission's session stays without one. */
  ghost predicate OpenOk(s: State, x: string)
    requires x in s.open
  {
    var r := s.open[x].request;
    && r.session == x
    && (s.open[x].stage != AtKey ==> SameInput(s.turns, r))
    && match s.open[x].stage
       case AtCreate => !HasActive(s.turns, x)
       case AtRetry(id) => LooksUp(r.key) && !HasActive(s.turns, x) && Holds(s.turns, id, r.user, x, r.key)
       case AtDispatch(id, _) => id in s.turns && Belongs(s.turns[id], r)
       case _ => true
  }

  predicate Belongs(t: Turn, r: Request) {
    t.user == r.user && t.session == r.session && t.key == r.key && t.input == r.input
  }

  /** The turn of the request's key, if there is one, was created for the same content. */
  ghost predicate SameInput(all: Table, r: Request) {
    LooksUp(r.key) ==> forall id :: Holds(all, id, r.user, r.session, r.key) ==> all[id].input == r.input
  }

  ghost predicate RepliesOk(s: State) {
    forall i :: 0 <= i < |s.replies| ==>
      s.replies[i].id in s.turns && Belongs(s.turns[s.replies[i].id], s.replies[i].request)
  }

  ghost predicate Ok(s: State) {
    && KeysUnique(s.turns) && OneActive(s.turns) && Timed(s.turns)
    && (forall x :: x in s.open ==> OpenOk(s, x))
    && RepliesOk(s)
  }

  /** What every change of the table by somebody else keeps: identities, and no turn becomes active. */
  ghost predicate Quietens(now: Table, before: Table) {
    && now.Keys == before.Keys
    && forall id :: id in now ==>
         && now[id].user == before[id].user && now[id].session == before[id].session
         && now[id].key == before[id].key && now[id].input == before[id].input
         && (Active(now[id]) ==> Active(before[id]))
         && (Terminal(now[id].status) <==> now[id].completedAt.Some?)
  }

  lemma QuietensKeepsOk(s: State, now: Table)
    requires Ok(s) && Quietens(now, s.turns)
    ensures Ok(s.(turns := now))
  {
    var r := s.(turns := now);
    forall x | x in r.open
      ensures OpenOk(r, x)
    {
      assert OpenOk(s, x);
      assert HasActive(now, x) ==> HasActive(s.turns, x);
      if s.open[x].stage != AtKey {
        SameInputKept(now, s.turns, s.open[x].request);
      }
    }
  }

  lemma SameInputKept(now: Table, before: Table, r: Request)
    requires Quietens(now, before) && SameInput(before, r)
    ensures SameInput(now, r)
  {
    forall id | LooksUp(r.key) && Holds(now, id, r.user, r.session, r.key)
      ensures now[id].input == r.input
    {
      assert Holds(before, id, r.user, r.session, r.key);
    }
  }

  lemma UpdateQuietens(all: Table, id: string, status: Status, finalText: Option<string>, errorKind: Option<string>, now: int)
    requires Timed(all) && id in all && status != Accepted
    ensures Quietens(Updated(all, id, status, finalText, errorKind, now), all)
  {
  }

  lemma RecoverQuietens(all: Table, now: int)
    requires Timed(all)
    ensures Quietens(Recovered(all, now), all)
    ensures forall id :: id in all ==> !Active(Recovered(all, now)[id])
  {
  }

  lemma MoveKeepsOk(s: State, x: string, stage: Stage)
    requires Ok(s) && x in s.open
    requires OpenOk(Moved(s, x, stage), x)
    ensures Ok(Moved(s, x, stage))
  {
    var r := Moved(s, x, stage);
    forall y | y in r.open
      ensures OpenOk(r, y)
    {
      if y != x {
        assert OpenOk(s, y);
      }
    }
  }

  lemma CloseKeepsOk(s: State, x: string)
    requires Ok(s)
    ensures Ok(Closed(s, x))
  {
    var r := Closed(s, x);
    forall y | y in r.open
      ensures OpenOk(r, y)
    {
      assert OpenOk(s, y);
    }
  }

  lemma ReplyKeepsOk(s: State, x: string, id: string, duplicate: bool)
    requires Ok(s) && x in s.open
    requires id in s.turns && Belongs(s.turns[id], s.open[x].request)
    ensures Ok(Replied(s, x, id, duplicate))
  {
    CloseKeepsOk(s, x);
  }

  lemma SubmitKeepsOk(s: State, r: Request)
    requires Ok(s) && r.session !in s.open
    ensures Ok(Next(s, Submit(r)))
  {
    var n := Next(s, Submit(r));
    forall y | y in n.open
      ensures OpenOk(n, y)
    {
      if y != r.session {
        assert OpenOk(s, y);
      }
    }
  }

  lemma LookUpKeepsOk(s: State, x: string)
    requires Ok(s) && StageOf(s, x) == Some(AtKey)
    ensures Ok(Next(s, LookUpKey(x)))
  {
    assert OpenOk(s, x);
    var r := s.open[x].request;
    var holder := Holder(s.turns, r.user, r.session, r.key);
    CloseKeepsOk(s, x);
    if !LooksUp(r.key) || holder.None? || s.turns[holder.value].input == r.input {
      HolderDecidesInput(s.turns, r);
      MoveKeepsOk(s, x, AtActive);
    }
    if LooksUp(r.key) && holder.Some? && s.turns[holder.value].input == r.input {
      ReplyKeepsOk(s, x, holder.value, true);
    }
  }

  lemma HolderDecidesInput(all: Table, r: Request)
    requires KeysUnique(all)
    requires var h := Holder(all, r.user, r.session, r.key);
             LooksUp(r.key) && h.Some? ==> all[h.value].input == r.input
    ensures SameInput(all, r)
  {
    forall id | LooksUp(r.key) && Holds(all, id, r.user, r.session, r.key)
      ensures all[id].input == r.input
    {
      var h := Holder(all, r.user, r.session, r.key);
      assert h == Some(id);
    }
  }

  /** The new turn is the only active one of its session and the only one with its key. */
  lemma NewTurnKeepsTable(all: Table, id: string, r: Request)
    requires KeysUnique(all) && OneActive(all) && Timed(all)
    requires id !in all && !HasActive(all, r.session) && Holder(all, r.user, r.session, r.key).None?
    ensures var now := all[id := NewTurn(r.session, r.user, r.key, r.input)];
            KeysUnique(now) && OneActive(now) && Timed(now)
  {
    var now := all[id := NewTurn(r.session, r.user, r.key, r.input)];
    forall a | a in all
      ensures r.key.Some? ==> !HasKey(all[a], r.user, r.session, r.key.value)
    {
      assert !Holds(all, a, r.user, r.session, r.key);
    }
  }

  lemma InsertKeepsOthers(s: State, x: string, id: string, t: Turn, y: string)
    requires x in s.open && y in s.open && y != x && t.session == x && OpenOk(s, y) && id !in s.turns
    ensures OpenOk(s.(turns := s.turns[id := t]), y)
  {
    var now := s.turns[id := t];
    if HasActive(now, y) {
      var a :| a in now && now[a].session == y && Active(now[a]);
      assert a in s.turns;
    }
  }

  lemma CreateKeepsOk(s: State, x: string, id: string)
    requires Ok(s) && Enabled(s, Create(x, id))
    ensures Ok(Next(s, Create(x, id)))
  {
    assert OpenOk(s, x);
    var r := s.open[x].request;
    var holder := Holder(s.turns, r.user, r.session, r.key);
    if holder.None? {
      var t := NewTurn(r.session, r.user, r.key, r.input);
      NewTurnKeepsTable(s.turns, id, r);
      var n := Next(s, Create(x, id));
      forall y | y in n.open
        ensures OpenOk(n, y)
      {
        if y != x {
          InsertKeepsOthers(s, x, id, t, y);
        }
      }
    } else {
      CloseKeepsOk(s, x);
      if LooksUp(r.key) {
        ReplyKeepsOk(s, x, holder.value, true);
        MoveKeepsOk(s, x, AtRetry(holder.value));
      }
    }
  }

  /** The retried turn becomes the session's only active one. */
  lemma RetryKeepsTable(all: Table, id: string, now: int)
    requires KeysUnique(all) && OneActive(all) && Timed(all)
    requires id in all && !HasActive(all, all[id].session)
    ensures var r := Updated(all, id, Accepted, None, None, now);
            KeysUnique(r) && OneActive(r) && Timed(r)
  {
    var r := Updated(all, id, Accepted, None, None, now);
    forall a | a in all && a != id && all[a].session == all[id].session
      ensures !Active(all[a])
    {
    }
  }

  lemma RetryKeepsOk(s: State, x: string, now: int)
    requires Ok(s) && Enabled(s, Retry(x, now))
    ensures Ok(Next(s, Retry(x, now)))
  {
    assert OpenOk(s, x);
    var id := s.open[x].stage.id;
    RetryKeepsTable(s.turns, id, now);
    var n := Next(s, Retry(x, now));
    forall y | y in n.open && y != x
      ensures OpenOk(n, y)
    {
      RetryKeepsOthers(s, x, now, y);
    }
  }

  lemma RetryKeepsOthers(s: State, x: string, now: int, y: string)
    requires Enabled(s, Retry(x, now)) && OpenOk(s, x) && y in s.open && y != x && OpenOk(s, y)
    ensures OpenOk(Next(s, Retry(x, now)), y)
  {
    var n := Next(s, Retry(x, now));
    if HasActive(n.turns, y) {
      var a :| a in n.turns && n.turns[a].session == y && Active(n.turns[a]);
      assert a in s.turns && s.turns[a].session == y;
    }
  }

  lemma DispatchKeepsOk(s: State, step: Step)
    requires Ok(s) && Enabled(s, step) && (step.Dispatch? || step.DispatchFails?)
    ensures Ok(Next(s, step))
  {
    var x := step.session;
    assert OpenOk(s, x);
    var id := s.open[x].stage.id;
    if step.Dispatch? {
      ReplyKeepsOk(s, x, id, s.open[x].stage.retried);
    } else {
      UpdateQuietens(s.turns, id, Failed, None, Some(DISPATCH_FAILED), step.now);
      var updated := WithUpdate(s, id, Failed, None, Some(DISPATCH_FAILED), step.now);
      QuietensKeepsOk(s, updated.turns);
      CloseKeepsOk(updated, x);
    }
  }

  lemma StepKeepsOk(s: State, step: Step)
    requires Ok(s)
    ensures Ok(Next(s, step))
  {
    if Enabled(s, step) {
      match step
      case Submit(r) => SubmitKeepsOk(s, r);
      case LookUpKey(x) => LookUpKeepsOk(s, x);
      case LookForActive(x) =>
        assert OpenOk(s, x);
        CloseKeepsOk(s, x);
        if !HasActive(s.turns, x) {
          MoveKeepsOk(s, x, AtCreate);
        }
      case Create(x, id) => CreateKeepsOk(s, x, id);
      case Retry(x, now) => RetryKeepsOk(s, x, now);
      case Dispatch(x) => DispatchKeepsOk(s, step);
      case DispatchFails(x, now) => DispatchKeepsOk(s, step);
      case Abort(x) => CloseKeepsOk(s, x);
      case Update(id, status, finalText, errorKind, now) =>
        UpdateQuietens(s.turns, id, status, finalText, errorKind, now);
        QuietensKeepsOk(s, Updated(s.turns, id, status, finalText, errorKind, now));
      case Recover(now) =>
        RecoverQuietens(s.turns, now);
        QuietensKeepsOk(s, Recovered(s.turns, now));
    }
  }

  lemma {:induction false} RunKeepsOk(s: State, steps: seq<Step>)
    requires Ok(s)
    ensures Ok(Run(s, steps))
    decreases |steps|
  {
    if steps != [] {
      StepKeepsOk(s, steps[0]);
      RunKeepsOk(Next(s, steps[0]), steps[1..]);
    }
  }

  /** In every reachable state a session has at most one active turn, and a key at most one turn. */
  lemma OneActiveTurnAndOnePerKey(steps: seq<Step>, a: string, b: string)
    ensures var all := Run(START, steps).turns;
            a in all && b in all && a != b && all[a].session == all[b].session ==>
              && !(Active(all[a]) && Active(all[b]))
              && (all[a].user == all[b].user && all[a].key.Some? ==> all[a].key != all[b].key)
  {
    RunKeepsOk(START, steps);
  }

  /** All replies to one key of one user and session name the same turn. */
  lemma RepliesAgree(steps: seq<Step>, i: nat, j: nat)
    ensures var replies := Run(START, steps).replies;
            i < |replies| && j < |replies| && replies[i].request.key.Some?
            && replies[i].request.user == replies[j].request.user
            && replies[i].request.session == replies[j].request.session
            && replies[i].request.key == replies[j].request.key
            ==> replies[i].id == replies[j].id
  {
    RunKeepsOk(START, steps);
  }

  /** A reply names a turn of the request's own user, session and key that was created for the same content. */
  lemma RepliesNameOwnTurn(steps: seq<Step>, i: nat)
    ensures var s := Run(START, steps);
            i < |s.replies| ==>
              s.replies[i].id in s.turns && Belongs(s.turns[s.replies[i].id], s.replies[i].request)
  {
    RunKeepsOk(START, steps);
  }

  // ------------------------------------------------------------ absorption

  /** One step changes an ending only by accepting a failed dispatch again. */
  lemma StepKeepsEndings(s: State, step: Step, id: string)
    requires Ok(s) && id in s.turns && Terminal(s.turns[id].status)
    ensures var r := Next(s, step);
            id in r.turns
            && (r.turns[id].status == s.turns[id].status
                || (Retryable(s.turns[id]) && r.turns[id].status == Accepted && step.Retry?
                    && Enabled(s, step) && s.open[step.session].stage == AtRetry(id)))
  {
  }

  /** Completed, cancelled and interrupted are for ever. */
  lemma {:induction false} SettledForever(s: State, steps: seq<Step>, id: string)
    requires Ok(s) && id in s.turns && s.turns[id].status in {Completed, Cancelled, Interrupted}
    ensures id in Run(s, steps).turns && Run(s, steps).turns[id].status == s.turns[id].status
    decreases |steps|
  {
    if steps != [] {
      StepKeepsOk(s, steps[0]);
      StepKeepsEndings(s, steps[0], id);
      SettledForever(Next(s, steps[0]), steps[1..], id);
    }
  }

  /** The step records a failed dispatch for the turn. */
  ghost predicate RecordsDispatchFailure(s: State, step: Step, id: string) {
    Enabled(s, step) && (
      || (step.DispatchFails? && s.open[step.session].stage.id == id)
      || (step.Update? && step.id == id && step.status == Failed && step.errorKind == Some(DISPATCH_FAILED)))
  }

  /** Another failure becomes one that a retry may undo exactly when a step records a failed dispatch over it. */
  lemma BecomesRetryableIff(s: State, step: Step, id: string)
    requires Ok(s) && id in s.turns && s.turns[id].status == Failed && !Retryable(s.turns[id])
    ensures id in Next(s, step).turns && Next(s, step).turns[id].status == Failed
    ensures Retryable(Next(s, step).turns[id]) <==> RecordsDispatchFailure(s, step, id)
  {
    StepKeepsEndings(s, step, id);
  }

  ghost predicate NeverDispatchFailed(s: State, steps: seq<Step>, id: string)
    decreases |steps|
  {
    steps == [] || (!RecordsDispatchFailure(s, steps[0], id) && NeverDispatchFailed(Next(s, steps[0]), steps[1..], id))
  }

  /** The turn has failed for another reason, now and after every step. */
  ghost predicate FailedForGood(s: State, steps: seq<Step>, id: string)
    decreases |steps|
  {
    && id in s.turns && s.turns[id].status == Failed && !Retryable(s.turns[id])
    && (steps != [] ==> FailedForGood(Next(s, steps[0]), steps[1..], id))
  }

  /** Over a run another failure stays one throughout if and only if nobody records a failed dispatch for the turn. */
  lemma {:induction false} FailedForGoodIff(s: State, steps: seq<Step>, id: string)
    requires Ok(s) && id in s.turns && s.turns[id].status == Failed && !Retryable(s.turns[id])
    ensures FailedForGood(s, steps, id) <==> NeverDispatchFailed(s, steps, id)
    decreases |steps|
  {
    if steps != [] {
      BecomesRetryableIff(s, steps[0], id);
      StepKeepsOk(s, steps[0]);
      if !RecordsDispatchFailure(s, steps[0], id) {
        FailedForGoodIff(Next(s, steps[0]), steps[1..], id);
      }
    }
  }

  /** A submission up to its dispatch, and the same again after the dispatch has failed. */
  function FirstTry(r: Request, id: string): seq<Step> {
    [Submit(r), LookUpKey(r.session), LookForActive(r.session), Create(r.session, id)]
  }

  function SecondTry(r: Request, other: string, now: int): seq<Step> {
    [Submit(r), LookUpKey(r.session), LookForActive(r.session), Create(r.session, other), Retry(r.session, now)]
  }

  /** A reachable run in which an engine failure is undone: the engine fails the turn while its submission is still
      dispatching, the dispatch fails as well, and the retry of the submission accepts the turn again. */
  lemma EngineFailureIsUndone(r: Request, id: string, other: string, now: int)
    requires LooksUp(r.key) && id != other
    ensures var s1 := Run(START, FirstTry(r, id));
            var s2 := Next(s1, Update(id, Failed, None, Some("engine"), now));
            var s3 := Next(s2, DispatchFails(r.session, now));
            var s4 := Run(s3, SecondTry(r, other, now));
            && id in s2.turns && s2.turns[id].status == Failed && !Retryable(s2.turns[id])
            && id in s4.turns && s4.turns[id].status == Accepted
  {
    FirstTryCreates(r, id);
    var s1 := Run(START, FirstTry(r, id));
    var s2 := Next(s1, Update(id, Failed, None, Some("engine"), now));
    assert s2.turns == map[id := Rewritten(NewTurn(r.session, r.user, r.key, r.input), Failed, None, Some("engine"), now)];
    assert s2.open == s1.open;
    var s3 := Next(s2, DispatchFails(r.session, now));
    assert s3.turns.Keys == {id} && s3.open == map[] && Retryable(s3.turns[id]);
    SecondTryAccepts(s3, r, id, other, now);
  }

  lemma FirstTryCreates(r: Request, id: string)
    ensures var s := Run(START, FirstTry(r, id));
            && s.turns == map[id := NewTurn(r.session, r.user, r.key, r.input)]
            && s.open == map[r.session := Submission(r, AtDispatch(id, false))]
  {
    var x := r.session;
    RunFour(START, Submit(r), LookUpKey(x), LookForActive(x), Create(x, id));
    var s1 := Next(START, Submit(r));
    assert s1 == START.(open := map[x := Submission(r, AtKey)]);
    NobodyHolds(map[], r);
    var s2 := Next(s1, LookUpKey(x));
    assert s2 == START.(open := map[x := Submission(r, AtActive)]);
    var s3 := Next(s2, LookForActive(x));
    assert s3 == START.(open := map[x := Submission(r, AtCreate)]);
    var s4 := Next(s3, Create(x, id));
    assert s4.turns == map[id := NewTurn(r.session, r.user, r.key, r.input)];
    assert s4.open == map[x := Submission(r, AtDispatch(id, false))];
  }

  lemma NobodyHolds(all: Table, r: Request)
    requires all == map[]
    ensures Holder(all, r.user, r.session, r.key).None?
  {
  }

  lemma SecondTryAccepts(s: State, r: Request, id: string, other: string, now: int)
    requires s.turns.Keys == {id} && s.open == map[] && Retryable(s.turns[id]) && id != other
    requires LooksUp(r.key) && Belongs(s.turns[id], r)
    ensures var e := Run(s, SecondTry(r, other, now)); id in e.turns && e.turns[id].status == Accepted
  {
    var x := r.session;
    assert Holds(s.turns, id, r.user, r.session, r.key);
    assert Holder(s.turns, r.user, r.session, r.key) == Some(id);
    var s1 := Next(s, Submit(r));
    assert s1 == s.(open := map[x := Submission(r, AtKey)]);
    var s2 := Next(s1, LookUpKey(x));
    assert s2 == s.(open := map[x := Submission(r, AtActive)]);
    var s3 := Next(s2, LookForActive(x));
    assert s3 == s.(open := map[x := Submission(r, AtCreate)]);
    var s4 := Next(s3, Create(x, other));
    assert s4 == s.(open := map[x := Submission(r, AtRetry(id))]);
    RunFour(s, Submit(r), LookUpKey(x), LookForActive(x), Create(x, other));
    var first := [Submit(r), LookUpKey(x), LookForActive(x), Create(x, other)];
    assert SecondTry(r, other, now) == first + [Retry(x, now)];
    RunConcat(s, first, [Retry(x, now)]);
    assert Run(s4, [Retry(x, now)]) == Next(s4, Retry(x, now));
  }

  lemma RunFour(s: State, a: Step, b: Step, c: Step, d: Step)
    ensures Run(s, [a, b, c, d]) == Next(Next(Next(Next(s, a), b), c), d)
  {
    assert [a, b, c, d][1..] == [b, c, d] && [b, c, d][1..] == [c, d] && [c, d][1..] == [d] && [d][1..] == [];
    assert Run(Next(s, a), [b, c, d]) == Run(Next(Next(s, a), b), [c, d]);
    assert Run(Next(Next(s, a), b), [c, d]) == Run(Next(Next(Next(s, a), b), c), [d]);
  }

  lemma {:induction false} RunConcat(s: State, a: seq<Step>, b: seq<Step>)
    ensures Run(s, a + b) == Run(Run(s, a), b)
    decreases |a|
  {
    if a == [] {
      assert a + b == b;
    } else {
      assert (a + b)[1..] == a[1..] + b;
      RunConcat(Next(s, a[0]), a[1..], b);
    }
  }

  // -------------------------------------------------------- the repository

  method WriteFields(t: Turn, status: Status, finalText: Option<string>, errorKind: Option<string>, now: int)
    returns (r: Turn)
    ensures r == Rewritten(t, status, finalText, errorKind, now)
  {
    r := t.(status := status, finalText := finalText, errorKind := errorKind);
    if status == Accepted {
      r := r.(startedAt := None, completedAt := None);
    }
    if status == Running {
      r := r.(startedAt := Some(now));
    }
    if Terminal(status) {
      r := r.(completedAt := Some(now));
    }
  }

  lemma UpdateKeepsTable(all: Table, id: string, status: Status, finalText: Option<string>, errorKind: Option<string>, now: int)
    requires KeysUnique(all) && Timed(all) && id in all
    ensures KeysUnique(Updated(all, id, status, finalText, errorKind, now))
    ensures Timed(Updated(all, id, status, finalText, errorKind, now))
  {
    KeysStayUnique(all, id, Rewritten(all[id], status, finalText, errorKind, now));
  }

  lemma KeysStayUnique(all: Table, id: string, t: Turn)
    requires KeysUnique(all) && id in all
    requires t.user == all[id].user && t.session == all[id].session && t.key == all[id].key
    ensures KeysUnique(all[id := t])
  {
  }

  class TurnRepository {
    var turns: Table

    ghost predicate Valid()
      reads this
    {
      KeysUnique(turns) && Timed(turns)
    }

    constructor ()
      ensures Valid() && turns == map[]
    {
      turns := map[];
    }

    /** Creates a turn or returns the one that its key has.  An empty key is not looked for, but a second turn with
        it is refused. */
    method CreateTurn(id: string, r: Request) returns (at: Option<string>, duplicate: bool)
      requires Valid() && id !in turns
      modifies this
      ensures Valid()
      ensures duplicate <==> LooksUp(r.key) && exists k :: Holds(old(turns), k, r.user, r.session, r.key)
      ensures duplicate ==> unchanged(this) && at.Some? && Holds(turns, at.value, r.user, r.session, r.key)
      ensures at.None? <==> !LooksUp(r.key) && exists k :: Holds(old(turns), k, r.user, r.session, r.key)
      ensures at.None? ==> unchanged(this)
      ensures !duplicate && at.Some? ==>
                at.value == id && turns == old(turns)[id := NewTurn(r.session, r.user, r.key, r.input)]
    {
      if r.key.Some? {
        var todo := turns.Keys;
        while todo != {}
          invariant turns == old(turns) && todo <= turns.Keys
          invariant forall k :: k in turns.Keys - todo ==> !HasKey(turns[k], r.user, r.session, r.key.value)
          decreases todo
        {
          var k :| k in todo;
          if HasKey(turns[k], r.user, r.session, r.key.value) {
            assert Holds(turns, k, r.user, r.session, r.key);
            if LooksUp(r.key) {
              return Some(k), true;
            }
            return None, false;
          }
          todo := todo - {k};
        }
      }
      turns := turns[id := NewTurn(r.session, r.user, r.key, r.input)];
      return Some(id), false;
    }

    /** Writes a status unless the turn has ended otherwise; an unknown turn is an error. */
    method UpdateTurn(id: string, status: Status, finalText: Option<string>, errorKind: Option<string>, now: int)
      returns (r: Option<Turn>)
      requires Valid()
      modifies this
      ensures Valid()
      ensures r.None? <==> id !in old(turns)
      ensures r.None? ==> unchanged(this)
      ensures r.Some? ==>
                && turns == Updated(old(turns), id, status, finalText, errorKind, now)
                && r.value == turns[id]
    {
      if id !in turns {
        return None;
      }
      var t := turns[id];
      if Terminal(t.status) && t.status != status && !(Retryable(t) && status == Accepted) {
        return Some(t);
      }
      t := WriteFields(t, status, finalText, errorKind, now);
      UpdateKeepsTable(turns, id, status, finalText, errorKind, now);
      turns := turns[id := t];
      return Some(t);
    }

    /** Interrupts every turn that was accepted or running when the gateway stopped. */
    method RecoverInterrupted(now: int) returns (recovered: set<string>)
      requires Valid()
      modifies this
      ensures Valid()
      ensures turns == Recovered(old(turns), now)
      ensures recovered == set id | id in old(turns) && Active(old(turns)[id])
    {
      ghost var before := turns;
      recovered := set id | id in turns && Active(turns[id]);
      var todo := recovered;
      while todo != {}
        invariant Valid() && todo <= recovered && turns.Keys == before.Keys
        invariant forall id :: id in turns ==>
                    turns[id] == if id in recovered - todo then Recovered(before, now)[id] else before[id]
        decreases todo
      {
        var id :| id in todo;
        var r := UpdateTurn(id, Interrupted, None, Some("gateway_restart"), now);
        todo := todo - {id};
      }
    }
  }
}
