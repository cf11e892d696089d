/** What the steps at the edges of a session do to its results and its lock. */
module CoordinatorEffects {
  import opened Collections
  import opened WorkerEvents
  import opened Coordinator

  /** Everything but the turn flag, the lock and the two tasks that wait for it. */
  predicate SameResults(r: State, s: State) {
    r.pending == s.pending && r.hand == s.hand && r.accepted == s.accepted && r.delivered == s.delivered
    && r.lost == s.lost
  }

  /** A user turn can always be submitted; it waits for the lock unless a turn is active. */
  lemma SubmitEffect(s: State)
    ensures var r := Next(s, Submit);
            && r.submitters == s.submitters + (if s.foreground then 0 else 1)
            && SameResults(r, s) && r.foreground == s.foreground && r.lock == s.lock && r.task == s.task
            && r.notes == s.notes
  {
  }

  /** A resume task that meets a foreground turn ends and touches nothing; any other takes the oldest hundred. */
  lemma StartEffect(s: State)
    requires s.lock == Free && s.task == Created
    ensures var r := Next(s, Start);
            && (s.foreground ==> SameResults(r, s) && r.task == NoTask && r.lock == Free)
            && (!s.foreground ==> Batch(r) + r.pending == s.pending && |Batch(r)| == Min(100, |s.pending|))
            && (!s.foreground ==> r.lock == (if s.pending == [] then Free else Resume))
            && (!s.foreground ==> (r.task == NoTask <==> s.pending == []) && r.hand == s.hand && r.lost == s.lost)
            && r.foreground == s.foreground && r.submitters == s.submitters && r.delivered == s.delivered
  {
  }

  /** The end of a turn frees the lock; what it still had in hand after an exception is lost, and nothing else is. */
  lemma LeaveEffect(s: State, failing: bool)
    requires s.lock == Foreground && (failing || s.hand == [])
    ensures var r := Next(s, if failing then LeaveFailing else Leave);
            && !r.foreground && r.lock == Free && r.hand == [] && r.lost == s.lost + s.hand
            && r.pending == s.pending && r.delivered == s.delivered && r.accepted == s.accepted
            && r.notes == s.notes && r.submitters == s.submitters
            && r.task == (if s.pending != [] && s.task == NoTask then Created else s.task)
  {
    assert s.lost + [] == s.lost;
  }

  /** A message of the resume task takes its results out of the batch; an exception loses the whole batch. */
  lemma ResumeEffect(s: State)
    requires s.lock == Resume && s.task.Holding?
    ensures var r := Next(s, ResumeFails);
            && r.lock == Free && r.task == NoTask && r.hand == [] && r.delivered == s.delivered
            && r.lost == s.lost + s.hand + s.task.batch && r.pending == s.pending
    ensures s.hand == [] && s.task.batch != [] ==>
              var r := Next(s, DeliverGroup);
              && |r.delivered| == |s.delivered| + 1 && s.delivered < r.delivered && r.task.Holding?
              && multiset(r.delivered[|s.delivered|]) + multiset(r.task.batch) == multiset(s.task.batch)
              && r.delivered[|s.delivered|] != [] && r.delivered[|s.delivered|][0] == s.task.batch[0]
  {
    if s.hand == [] && s.task.batch != [] {
      GroupSplitsBatch(s.task.batch);
      GroupStartsWithOldest(s.task.batch);
    }
  }

  /** A notification starts a resume task exactly if nobody is there to take results. */
  lemma NotifyEffect(s: State)
    requires s.notes > 0
    ensures var r := Next(s, Notify);
            && SameResults(r, s) && r.notes == s.notes - 1 && r.lock == s.lock && r.foreground == s.foreground
            && r.submitters == s.submitters
            && (r.task != s.task <==> !s.foreground && s.task == NoTask) && (r.task != s.task ==> r.task == Created)
  {
  }
}
