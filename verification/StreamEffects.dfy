/** What each happening does to a subscriber's world, and what the order of publication means. */
module StreamEffects {
  import opened Collections
  import opened EventLog
  import opened EventStream

  /** An appended event gets the next number of its turn and comes last in that turn's log; nobody is told yet. */
  lemma AppendEffect(w: World, max: int, e: Event)
    ensures var r, n := Happen(w, max, Append(e)), e.(sequence := MaxSequence(At(w.rows, e.turn)) + 1);
            && At(r.rows, e.turn) == At(w.rows, e.turn) + [n]
            && (forall t :: t != e.turn ==> At(r.rows, t) == At(w.rows, t))
            && (e.turn == w.turn ==> n in r.ever)
            && r.turn == w.turn && r.queue == w.queue && r.top == w.top && r.inOrder == w.inOrder && r.intact == w.intact
  {
  }

  /** In a gapless log the next number is one more than its length. */
  lemma AppendNumbers(w: World, max: int, e: Event)
    requires DenseFrom(At(w.rows, e.turn), 0)
    ensures var log := At(Happen(w, max, Append(e)).rows, e.turn);
            log != [] && log[|log| - 1].sequence == |log| && DenseFrom(log, 0)
  {
    MaxSequenceIsMax(At(w.rows, e.turn));
    var log := At(w.rows, e.turn);
    if log != [] {
      var i := MaxSequence(log);
      assert log[|log| - 1].sequence == |log|;
    }
  }

  /** A published event is the newest in the queue, whose length never exceeds a positive capacity. */
  lemma PublishEffect(w: World, max: int, e: Event)
    requires e in w.ever
    ensures var r := Happen(w, max, Publish(e));
            && r.rows == w.rows && r.turn == w.turn && r.ever == w.ever && r.intact == w.intact
            && r.queue != [] && r.queue[|r.queue| - 1] == e
            && (max > 0 && |w.queue| <= max ==> |r.queue| <= max)
            && (max <= 0 || |w.queue| < max ==> w.queue < r.queue)
  {
  }

  /** Pruning never reaches what a subscriber has in its queue; a turn that is not over keeps its rows. */
  lemma PruneEffect(w: World, max: int, p: Policy, turn: string)
    requires TableOk(w.rows)
    ensures var r := Happen(w, max, Prune(p));
            && r.rows == PrunedRows(w.rows, p) && r.queue == w.queue && r.ever == w.ever && r.turn == w.turn
            && (turn !in p.over ==> At(r.rows, turn) == At(w.rows, turn))
            && (r.intact <==> w.intact && w.turn !in p.over)
  {
    if turn !in p.over {
      PruningSparesActiveTurns(w.rows, p, turn);
    }
  }

  /** The numbers of the events that are published while `hs` happens. */
  function Published(w: World, max: int, hs: seq<Happening>): seq<nat>
    decreases |hs|
  {
    if hs == [] then []
    else (if hs[0].Publish? && hs[0].e in w.ever then [hs[0].e.sequence] else [])
         + Published(Happen(w, max, hs[0]), max, hs[1..])
  }

  ghost predicate NeverFalls(l: seq<nat>) {
    forall i, j :: 0 <= i < j < |l| ==> l[i] <= l[j]
  }

  lemma FallsUnless(a: nat, b: nat, l: seq<nat>)
    ensures NeverFalls([a, b] + l) <==> a <= b && NeverFalls([b] + l)
  {
    var s, t := [a, b] + l, [b] + l;
    assert forall i :: 0 <= i < |t| ==> t[i] == s[i + 1];
    if a <= b && NeverFalls(t) {
      forall i, j | 0 <= i < j < |s|
        ensures s[i] <= s[j]
      {
        assert s[j] == t[j - 1] && t[0] == b && t[0] <= t[j - 1];
        if i > 0 {
          assert s[i] == t[i - 1] && t[i - 1] <= t[j - 1];
        }
      }
    }
    if NeverFalls(s) {
      assert s[0] <= s[1];
      forall i, j | 0 <= i < j < |t|
        ensures t[i] <= t[j]
      {
        assert s[i + 1] <= s[j + 1];
      }
    }
  }

  /** A world counts as published in order exactly if the numbers published never fall, from the highest one on. */
  lemma {:induction false} InOrderIff(w: World, max: int, hs: seq<Happening>)
    ensures HappenAll(w, max, hs).inOrder <==> w.inOrder && NeverFalls([w.top] + Published(w, max, hs))
    decreases |hs|
  {
    if hs != [] {
      var v := Happen(w, max, hs[0]);
      var rest := Published(v, max, hs[1..]);
      InOrderIff(v, max, hs[1..]);
      if hs[0].Publish? && hs[0].e in w.ever {
        var n := hs[0].e.sequence;
        FallsUnless(w.top, n, rest);
        assert [w.top] + ([n] + rest) == [w.top, n] + rest;
      } else {
        assert Published(w, max, hs) == rest;
      }
    }
  }
}
