/** What each step of a submission answers, and that a repeated submission is answered with the turn of its key. */
module SubmissionAnswers {
  import opened Collections
  import opened Turns

  /** The submission of `x` is answered with turn `id`, and with nothing else. */
  predicate Answered(n: State, s: State, x: string, id: string, duplicate: bool)
    requires x in s.open
  {
    n.replies == s.replies + [Reply(s.open[x].request, id, duplicate)] && n.open == s.open - {x}
  }

  /** The submission of `x` ends without an answer. */
  predicate Refused(n: State, s: State, x: string) {
    n.replies == s.replies && n.open == s.open - {x}
  }

  /** The submission of `x` goes on at `stage`. */
  predicate GoesOn(n: State, s: State, x: string, stage: Stage)
    requires x in s.open
  {
    n.replies == s.replies && n.open == s.open[x := Submission(s.open[x].request, stage)]
  }

  /** The request carries a key that can be looked up. */
  predicate Keyed(r: Request) {
    r.key.Some? && |r.key.value| > 0
  }

  /** Turn `id` is the one that the request's key was used for. */
  ghost predicate IsOf(all: Table, id: string, r: Request) {
    Holds(all, id, r.user, r.session, r.key)
  }

  lemma HolderIs(all: Table, id: string, r: Request)
    requires KeysUnique(all)
    ensures IsOf(all, id, r) ==> Holder(all, r.user, r.session, r.key) == Some(id)
    ensures (forall k :: !IsOf(all, k, r)) ==> Holder(all, r.user, r.session, r.key).None?
  {
    var h := Holder(all, r.user, r.session, r.key);
    if h.Some? {
      assert IsOf(all, h.value, r);
    }
  }

  /** The look for the key answers exactly a request whose key belongs to a turn of the same content that is not to be
      retried, refuses exactly one whose key belongs to a turn of other content, and lets every other one go on. */
  lemma LookUpAnswers(s: State, x: string, id: string)
    requires Ok(s) && StageOf(s, x) == Some(AtKey)
    ensures var n, r := Next(s, LookUpKey(x)), s.open[x].request;
            && n.turns == s.turns
            && (Keyed(r) && IsOf(s.turns, id, r) ==>
                  if s.turns[id].input != r.input then Refused(n, s, x)
                  else if Retryable(s.turns[id]) then GoesOn(n, s, x, AtActive)
                  else Answered(n, s, x, id, true))
            && (!Keyed(r) || (forall k :: !IsOf(s.turns, k, r)) ==> GoesOn(n, s, x, AtActive))
  {
    HolderIs(s.turns, id, s.open[x].request);
  }

  /** A session with an active turn refuses another one; no other session does. */
  lemma ActiveAnswers(s: State, x: string)
    requires StageOf(s, x) == Some(AtActive)
    ensures var n := Next(s, LookForActive(x));
            && n.turns == s.turns
            && ((exists id :: id in s.turns && s.turns[id].session == x && s.turns[id].status in {Accepted, Running})
                  ==> Refused(n, s, x))
            && ((forall id :: id in s.turns && s.turns[id].session == x ==> s.turns[id].status !in {Accepted, Running})
                  ==> GoesOn(n, s, x, AtCreate))
  {
    if id :| id in s.turns && s.turns[id].session == x && s.turns[id].status in {Accepted, Running} {
      assert Active(s.turns[id]);
    }
  }

  /** The creation makes exactly one accepted turn with the request's content if nobody holds its key.  Otherwise it
      leaves all turns, and goes on to a retry, answers with the key's turn, or refuses a second empty key. */
  lemma CreateAnswers(s: State, x: string, id: string, holder: string)
    requires Ok(s) && Enabled(s, Create(x, id))
    ensures var n, r := Next(s, Create(x, id)), s.open[x].request;
            && ((forall k :: !IsOf(s.turns, k, r)) ==>
                  && GoesOn(n, s, x, AtDispatch(id, false)) && id in n.turns && n.turns == s.turns[id := n.turns[id]]
                  && Belongs(n.turns[id], r) && n.turns[id].status == Accepted
                  && n.turns[id].finalText.None? && n.turns[id].errorKind.None?
                  && n.turns[id].startedAt.None? && n.turns[id].completedAt.None?)
            && (IsOf(s.turns, holder, r) ==>
                  && n.turns == s.turns
                  && (if !Keyed(r) then Refused(n, s, x)
                      else if Retryable(s.turns[holder]) then GoesOn(n, s, x, AtRetry(holder))
                      else s.turns[holder].input == r.input && Answered(n, s, x, holder, true)))
  {
    var r := s.open[x].request;
    assert OpenOk(s, x);
    HolderIs(s.turns, holder, r);
  }

  /** A retry accepts the failed turn again, with nothing left of its failure, and dispatches it as a repetition. */
  lemma RetryAnswers(s: State, x: string, id: string, now: int)
    requires Ok(s) && StageOf(s, x) == Some(AtRetry(id)) && Retryable(s.turns[id])
    ensures var n := Next(s, Retry(x, now));
            && GoesOn(n, s, x, AtDispatch(id, true)) && n.turns == s.turns[id := n.turns[id]]
            && n.turns[id] == s.turns[id].(
                 status := Accepted, finalText := None, errorKind := None, startedAt := None, completedAt := None)
  {
    assert OpenOk(s, x);
  }

  /** A dispatch answers with the turn that was created or retried. */
  lemma DispatchAnswers(s: State, x: string, id: string, retried: bool)
    requires StageOf(s, x) == Some(AtDispatch(id, retried))
    ensures Answered(Next(s, Dispatch(x)), s, x, id, retried) && Next(s, Dispatch(x)).turns == s.turns
  {
  }

  /** A failing dispatch refuses, and leaves its turn to be retried unless that has ended otherwise meanwhile. */
  lemma DispatchFailureAnswers(s: State, x: string, id: string, retried: bool, now: int)
    requires Ok(s) && StageOf(s, x) == Some(AtDispatch(id, retried))
    ensures var n := Next(s, DispatchFails(x, now));
            && Refused(n, s, x) && id in s.turns && id in n.turns && n.turns == s.turns[id := n.turns[id]]
            && (s.turns[id].status in {Accepted, Running, Failed} ==>
                  && n.turns[id].status == Failed && n.turns[id].errorKind == Some("dispatch_failed")
                  && n.turns[id].finalText.None? && n.turns[id].completedAt == Some(now))
            && (s.turns[id].status !in {Accepted, Running, Failed} ==> n.turns[id] == s.turns[id])
  {
    assert OpenOk(s, x);
  }

  /** A submission starts only in a session that has none, and an abort ends it without an answer. */
  lemma SubmitAndAbort(s: State, r: Request, x: string)
    ensures var n := Next(s, Submit(r));
            && n.turns == s.turns && n.replies == s.replies
            && n.open == if r.session in s.open then s.open else s.open[r.session := Submission(r, AtKey)]
    ensures x in s.open ==> Refused(Next(s, Abort(x)), s, x) && Next(s, Abort(x)).turns == s.turns
  {
  }

  // ------------------------------------------------ repeated submissions

  /** The steps leave the submission of `x` where it waits for the look for its key. */
  predicate Elsewhere(steps: seq<Step>, x: string) {
    forall i :: 0 <= i < |steps| ==> steps[i] != LookUpKey(x) && steps[i] != Abort(x)
  }

  lemma StepElsewhere(s: State, step: Step, x: string, r: Request)
    requires StageOf(s, x) == Some(AtKey) && s.open[x].request == r
    requires step != LookUpKey(x) && step != Abort(x)
    ensures StageOf(Next(s, step), x) == Some(AtKey) && Next(s, step).open[x].request == r
  {
  }

  lemma {:induction false} RunElsewhere(s: State, steps: seq<Step>, x: string, r: Request)
    requires StageOf(s, x) == Some(AtKey) && s.open[x].request == r && Elsewhere(steps, x)
    ensures StageOf(Run(s, steps), x) == Some(AtKey) && Run(s, steps).open[x].request == r
    decreases |steps|
  {
    if steps != [] {
      StepElsewhere(s, steps[0], x, r);
      RunElsewhere(Next(s, steps[0]), steps[1..], x, r);
    }
  }

  lemma {:induction false} RunKeepsOwner(s: State, steps: seq<Step>, id: string, r: Request)
    requires Ok(s) && id in s.turns && Belongs(s.turns[id], r)
    ensures id in Run(s, steps).turns && Belongs(Run(s, steps).turns[id], r)
    decreases |steps|
  {
    if steps != [] {
      StepKeepsOk(s, steps[0]);
      StepKeepsOwner(s, steps[0], id, r);
      RunKeepsOwner(Next(s, steps[0]), steps[1..], id, r);
    }
  }

  lemma StepKeepsOwner(s: State, step: Step, id: string, r: Request)
    requires id in s.turns && Belongs(s.turns[id], r)
    ensures id in Next(s, step).turns && Belongs(Next(s, step).turns[id], r)
  {
  }

  /** A request whose key has a settled turn of the same content is answered with that turn when it is submitted again,
      whatever happens between its submission and its look for the key. */
  lemma ResubmissionIsAnswered(s: State, r: Request, id: string, between: seq<Step>)
    requires Ok(s) && r.session !in s.open && Keyed(r)
    requires id in s.turns && Belongs(s.turns[id], r) && s.turns[id].status in {Completed, Cancelled, Interrupted}
    requires Elsewhere(between, r.session)
    ensures var before := Run(Next(s, Submit(r)), between);
            var after := Next(before, LookUpKey(r.session));
            && after.replies == before.replies + [Reply(r, id, true)]
            && r.session !in after.open && after.turns == before.turns
  {
    var s1 := Next(s, Submit(r));
    StepKeepsOk(s, Submit(r));
    RunKeepsOk(s1, between);
    RunElsewhere(s1, between, r.session, r);
    RunKeepsOwner(s1, between, id, r);
    SettledForever(s1, between, id);
    LookUpAnswers(Run(s1, between), r.session, id);
  }

  /** From every reachable state: what was ever answered for a key is answered again once its turn is settled. */
  lemma AnsweredAgain(steps: seq<Step>, i: nat, between: seq<Step>)
    ensures var s := Run(START, steps);
            i < |s.replies| ==>
              var r, id := s.replies[i].request, s.replies[i].id;
              r.session !in s.open && Keyed(r) && Elsewhere(between, r.session)
              && id in s.turns && s.turns[id].status in {Completed, Cancelled, Interrupted} ==>
                var before := Run(Next(s, Submit(r)), between);
                Next(before, LookUpKey(r.session)).replies == before.replies + [Reply(r, id, true)]
  {
    RunKeepsOk(START, steps);
    var s := Run(START, steps);
    if i < |s.replies| {
      var r, id := s.replies[i].request, s.replies[i].id;
      if r.session !in s.open && Keyed(r) && Elsewhere(between, r.session)
         && id in s.turns && s.turns[id].status in {Completed, Cancelled, Interrupted} {
        ResubmissionIsAnswered(s, r, id, between);
      }
    }
  }

  // ----------------------------------------------------- status changes

  /** A status change that is not blocked by an ending writes the status, both texts and the times of that turn. */
  lemma UpdateEffect(all: Table, id: string, status: Status, finalText: Option<string>, errorKind: Option<string>, now: int)
    requires id in all
    ensures var r := Updated(all, id, status, finalText, errorKind, now);
            && r.Keys == all.Keys && (forall x :: x in all && x != id ==> r[x] == all[x])
            && (all[id].status in {Completed, Cancelled, Interrupted} && status != all[id].status ==> r[id] == all[id])
            && (all[id].status == Failed && status !in {Failed, Accepted} ==> r[id] == all[id])
            && (all[id].status == Failed && status == Accepted && all[id].errorKind != Some("dispatch_failed") ==>
                  r[id] == all[id])
            && (all[id].status in {Accepted, Running, status} ==>
                  && r[id].status == status && r[id].finalText == finalText && r[id].errorKind == errorKind
                  && r[id].user == all[id].user && r[id].session == all[id].session
                  && r[id].key == all[id].key && r[id].input == all[id].input
                  && (status == Accepted ==> r[id].startedAt.None? && r[id].completedAt.None?)
                  && (status == Running ==> r[id].startedAt == Some(now) && r[id].completedAt == all[id].completedAt)
                  && (status in {Completed, Failed, Cancelled, Interrupted} ==>
                        r[id].completedAt == Some(now) && r[id].startedAt == all[id].startedAt))
  {
  }

  /** The engine's status changes and a restart run in between, and touch no submission and no answer. */
  lemma EngineSteps(s: State, id: string, status: Status, finalText: Option<string>, errorKind: Option<string>, now: int)
    ensures var n := Next(s, Update(id, status, finalText, errorKind, now));
            n == if id in s.turns && status in {Running, Completed, Failed, Cancelled, Interrupted}
                 then s.(turns := Updated(s.turns, id, status, finalText, errorKind, now)) else s
    ensures Next(s, Recover(now)) == s.(turns := Recovered(s.turns, now))
  {
  }

  /** A restart interrupts every active turn, at that time and for that reason, and leaves all others as they were. */
  lemma RecoveryEffect(all: Table, id: string, now: int)
    requires id in all
    ensures var r := Recovered(all, now);
            && r.Keys == all.Keys
            && (all[id].status !in {Accepted, Running} ==> r[id] == all[id])
            && (all[id].status in {Accepted, Running} ==>
                  r[id] == all[id].(status := Interrupted, finalText := None, errorKind := Some("gateway_restart"),
                                    completedAt := Some(now)))
  {
  }
}
