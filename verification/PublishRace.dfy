/** Publication in two steps: the duplicate check, and the acceptance after a wait for room.

    Elsewhere a publication is one step.  Here other publications may run
    between the check and the acceptance, which they can while the queue is full. */
module PublishRace {
  import opened Collections
  import opened WorkerEvents

  /** `history` are the accepted ids of a session, `waiting` those that passed the check and wait for room. */
  datatype State = State(history: seq<string>, waiting: seq<string>)

  datatype Step = Check(id: string) | Commit(k: nat)

  function Next(s: State, window: nat, step: Step): State {
    match step
    case Check(id) =>
      if id in LastN(s.history, window) then s else s.(waiting := s.waiting + [id])
    case Commit(k) =>
      if k >= |s.waiting| then s
      else State(s.history + [s.waiting[k]], s.waiting[..k] + s.waiting[k + 1..])
  }

  predicate Recent(h: seq<string>, window: nat, id: string) {
    exists i :: Max(0, |h| - window) <= i < |h| && h[i] == id
  }

  /** A publication passes the check exactly if its id is not among the last `window` accepted ones. */
  lemma CheckPasses(s: State, window: nat, id: string)
    ensures var r := Next(s, window, Check(id));
            && r.history == s.history
            && r.waiting == s.waiting + (if Recent(s.history, window, id) then [] else [id])
  {
    var h, last := s.history, LastN(s.history, window);
    if id in last {
      var i :| 0 <= i < |last| && last[i] == id;
      assert h[|h| - |last| + i] == id;
    } else {
      forall i | Max(0, |h| - window) <= i < |h|
        ensures h[i] != id
      {
        assert last[i - (|h| - |last|)] == h[i];
      }
    }
  }

  function Run(s: State, window: nat, steps: seq<Step>): State
    decreases |steps|
  {
    if steps == [] then s else Run(Next(s, window, steps[0]), window, steps[1..])
  }

  /** No publication is checked while another of the same id waits. */
  predicate Apart(s: State, window: nat, steps: seq<Step>)
    decreases |steps|
  {
    steps == [] || ((steps[0].Check? ==> steps[0].id !in s.waiting)
                    && Apart(Next(s, window, steps[0]), window, steps[1..]))
  }

  ghost predicate Clean(s: State, window: nat) {
    && Spaced(s.history, window)
    && Distinct(s.waiting)
    && forall id :: id in s.waiting ==> id !in LastN(s.history, window)
  }

  lemma StepKeepsClean(s: State, window: nat, step: Step)
    requires Clean(s, window)
    requires step.Check? ==> step.id !in s.waiting
    ensures Clean(Next(s, window, step), window)
  {
    if step.Commit? && step.k < |s.waiting| {
      var r, k := Next(s, window, step), step.k;
      AcceptKeepsSpacing(s.history, window, s.waiting[k]);
      WindowSlides(s.history, window, s.waiting[k]);
      forall id | id in r.waiting
        ensures id in s.waiting && id != s.waiting[k]
      {
        var i :| 0 <= i < |r.waiting| && r.waiting[i] == id;
        assert id == s.waiting[if i < k then i else i + 1];
      }
    }
  }

  /** If publications of one id never overlap, duplicates stay more than a window apart. */
  lemma {:induction false} ApartRunsStaySpaced(s: State, window: nat, steps: seq<Step>)
    requires Clean(s, window) && Apart(s, window, steps)
    ensures Spaced(Run(s, window, steps).history, window)
    decreases |steps|
  {
    if steps != [] {
      StepKeepsClean(s, window, steps[0]);
      ApartRunsStaySpaced(Next(s, window, steps[0]), window, steps[1..]);
    }
  }

  /** Two overlapping publications of one id are both accepted, next to each other: with any window at all
      the deduplication fails. */
  lemma OverlapIsAcceptedTwice(window: nat, id: string)
    ensures Run(State([], []), window, [Check(id), Check(id), Commit(0), Commit(0)]).history == [id, id]
    ensures Spaced([id, id], window) <==> window == 0
  {
    var s1 := State([], [id, id]);
    var rest := [Commit(0), Commit(0)];
    assert Run(s1, window, rest) == Run(State([id], [id]), window, rest[1..]);
    assert rest[1..] == [Commit(0)];
    var all := [Check(id), Check(id)] + rest;
    assert all == [Check(id), Check(id), Commit(0), Commit(0)];
    assert all[1..][1..] == rest;
    assert Run(State([], []), window, all) == Run(State([], [id]), window, all[1..]);
    if window > 0 {
      assert [id, id][0] == [id, id][1];
    }
  }

  /** An acceptance keeps equal ids apart exactly when the id is not in the window by then, whatever the earlier check
      said. */
  lemma CommitKeepsSpacingIff(s: State, window: nat, k: nat)
    requires Spaced(s.history, window) && k < |s.waiting|
    ensures Spaced(Next(s, window, Commit(k)).history, window) <==> s.waiting[k] !in LastN(s.history, window)
  {
    AcceptKeepsSpacing(s.history, window, s.waiting[k]);
  }

  /** The step accepts an id that the window holds by then. */
  predicate CommitsTwice(s: State, window: nat, step: Step) {
    step.Commit? && step.k < |s.waiting| && s.waiting[step.k] in LastN(s.history, window)
  }

  predicate NeverCommitsTwice(s: State, window: nat, steps: seq<Step>)
    decreases |steps|
  {
    steps == [] || (!CommitsTwice(s, window, steps[0])
                    && NeverCommitsTwice(Next(s, window, steps[0]), window, steps[1..]))
  }

  lemma {:induction false} HistoryGrows(s: State, window: nat, steps: seq<Step>)
    ensures s.history <= Run(s, window, steps).history
    decreases |steps|
  {
    if steps != [] {
      HistoryGrows(Next(s, window, steps[0]), window, steps[1..]);
    }
  }

  lemma PrefixSpaced(h: seq<string>, g: seq<string>, window: nat)
    requires h <= g && Spaced(g, window)
    ensures Spaced(h, window)
  {
  }

  /** Over every run equal ids stay more than a window apart if and only if no acceptance finds its id in the window. */
  lemma {:induction false} RunStaysSpacedIff(s: State, window: nat, steps: seq<Step>)
    requires Spaced(s.history, window)
    ensures Spaced(Run(s, window, steps).history, window) <==> NeverCommitsTwice(s, window, steps)
    decreases |steps|
  {
    if steps != [] {
      var n := Next(s, window, steps[0]);
      if steps[0].Commit? && steps[0].k < |s.waiting| {
        CommitKeepsSpacingIff(s, window, steps[0].k);
      }
      if Spaced(n.history, window) {
        RunStaysSpacedIff(n, window, steps[1..]);
      } else {
        HistoryGrows(n, window, steps[1..]);
        if Spaced(Run(n, window, steps[1..]).history, window) {
          PrefixSpaced(n.history, Run(n, window, steps[1..]).history, window);
        }
      }
    }
  }
}
