/** Grading an exercise against its rubric. */
module Grading {
  import opened Collections

  /** One entry of a grading result; what is not a record counts for nothing. */
  datatype Match = Malformed | Match(criterion: Option<int>, achieved: bool)

  // ----------------------------------------------------------- acceptance

  function Indexes(matches: seq<Match>): set<Option<int>> {
    set m | m in matches && m.Match? :: m.criterion
  }

  function AllIndexes(n: nat): set<Option<int>> {
    set i | 0 <= i < n :: Some(i)
  }

  /** What is checked: the indexes as a set, and the length. */
  predicate Accepted(n: nat, matches: seq<Match>) {
    Indexes(matches) == AllIndexes(n) && |matches| == n
  }

  /** Every entry is a record for a criterion, and no two are for the same one. */
  predicate Permutes(n: nat, matches: seq<Match>) {
    && |matches| == n
    && (forall i :: 0 <= i < n ==> matches[i].Match? && matches[i].criterion.Some? && 0 <= matches[i].criterion.value < n)
    && (forall i, j :: 0 <= i < j < n ==> matches[i].criterion != matches[j].criterion)
  }

  lemma {:induction false} AllIndexesSize(n: nat)
    ensures |AllIndexes(n)| == n
  {
    if n > 0 {
      AllIndexesSize(n - 1);
      assert AllIndexes(n) == AllIndexes(n - 1) + {Some(n - 1)};
    }
  }

  lemma IndexesSnoc(matches: seq<Match>)
    requires matches != []
    ensures var rest, last := matches[..|matches| - 1], matches[|matches| - 1];
            Indexes(matches) == Indexes(rest) + if last.Match? then {last.criterion} else {}
  {
    assert matches == matches[..|matches| - 1] + [matches[|matches| - 1]];
  }

  /** A list covers at most as many indexes as it has entries, and fewer if it repeats one or holds a non-record. */
  lemma {:induction false} IndexesSize(matches: seq<Match>)
    ensures |Indexes(matches)| <= |matches|
    ensures |Indexes(matches)| == |matches| ==>
              && (forall i :: 0 <= i < |matches| ==> matches[i].Match?)
              && (forall i, j :: 0 <= i < j < |matches| ==> matches[i].criterion != matches[j].criterion)
  {
    if matches != [] {
      var rest, last := matches[..|matches| - 1], matches[|matches| - 1];
      IndexesSize(rest);
      IndexesSnoc(matches);
      if |Indexes(matches)| == |matches| {
        assert last.Match? && last.criterion !in Indexes(rest);
        forall i | 0 <= i < |rest|
          ensures matches[i].Match? && matches[i].criterion != last.criterion
        {
          assert rest[i] in rest;
        }
      }
    }
  }

  /** Pigeonhole: the two cheap checks accept exactly the permutations of the criteria. */
  lemma AcceptedIffPermutes(n: nat, matches: seq<Match>)
    ensures Accepted(n, matches) <==> Permutes(n, matches)
  {
    AllIndexesSize(n);
    if Accepted(n, matches) {
      IndexesSize(matches);
      forall i | 0 <= i < n
        ensures matches[i].criterion.Some? && 0 <= matches[i].criterion.value < n
      {
        assert matches[i] in matches;
        assert matches[i].criterion in Indexes(matches);
      }
    }
    if Permutes(n, matches) {
      assert Indexes(matches) <= AllIndexes(n);
      DistinctIndexes(matches);
      SubsetSize(Indexes(matches), AllIndexes(n));
    }
  }

  lemma {:induction false} DistinctIndexes(matches: seq<Match>)
    requires forall i :: 0 <= i < |matches| ==> matches[i].Match?
    requires forall i, j :: 0 <= i < j < |matches| ==> matches[i].criterion != matches[j].criterion
    ensures |Indexes(matches)| == |matches|
  {
    if matches != [] {
      var rest, last := matches[..|matches| - 1], matches[|matches| - 1];
      DistinctIndexes(rest);
      assert matches == rest + [last];
      assert Indexes(matches) == Indexes(rest) + {last.criterion};
    }
  }

  // ---------------------------------------------------------------- score

  /** A negative weight counts as zero. */
  function Weights(raw: seq<real>): (w: seq<real>)
    ensures |w| == |raw| && forall i :: 0 <= i < |w| ==> w[i] == (if raw[i] < 0.0 then 0.0 else raw[i])
  {
    seq(|raw|, i requires 0 <= i < |raw| => if raw[i] < 0.0 then 0.0 else raw[i])
  }

  predicate Weighted(w: seq<real>) {
    forall i :: 0 <= i < |w| ==> w[i] >= 0.0
  }

  /** The weight of a set of criteria. */
  function WeightOf(w: seq<real>, s: set<int>): real {
    if w == [] then 0.0
    else WeightOf(w[..|w| - 1], s) + if |w| - 1 in s then w[|w| - 1] else 0.0
  }

  /** All criteria of a rubric of length `n`. */
  function Everything(n: nat): (s: set<int>)
    ensures forall i :: i in s <==> 0 <= i < n
  {
    if n == 0 then {} else Everything(n - 1) + {n - 1}
  }

  /** The denominator: the total weight, or the number of criteria if that is zero, or one. */
  function Total(w: seq<real>): real {
    var sum := WeightOf(w, Everything(|w|));
    if sum != 0.0 then sum else if w != [] then |w| as real else 1.0
  }

  /** Rounding to the nearest integer, halves to the even one. */
  function Round(x: real): int {
    var f := x.Floor;
    var d := x - f as real;
    if d < 0.5 then f else if d > 0.5 then f + 1 else if f % 2 == 0 then f else f + 1
  }

  function Score(w: seq<real>, achieved: set<int>): int {
    Round(WeightOf(w, achieved) / Total(w) * 100.0)
  }

  /** No integer is nearer, and of two that are equally near it is the even one. */
  lemma RoundIsNearest(x: real, n: int)
    ensures x - 0.5 <= Round(x) as real <= x + 0.5
    ensures x - 0.5 <= n as real <= x + 0.5 && n != Round(x) ==> Round(x) % 2 == 0 && n % 2 != 0
  {
  }

  lemma RoundMonotone(x: real, y: real)
    requires x <= y
    ensures Round(x) <= Round(y)
  {
  }

  lemma RoundOfInteger(n: int)
    ensures Round(n as real) == n
  {
  }

  lemma {:induction false} WeightGrows(w: seq<real>, s: set<int>, t: set<int>)
    requires Weighted(w) && s <= t
    ensures 0.0 <= WeightOf(w, s) <= WeightOf(w, t)
  {
    if w != [] {
      WeightGrows(w[..|w| - 1], s, t);
    }
  }

  lemma {:induction false} WeightOutside(w: seq<real>, s: set<int>, t: set<int>)
    requires forall i :: 0 <= i < |w| ==> (i in s <==> i in t)
    ensures WeightOf(w, s) == WeightOf(w, t)
  {
    if w != [] {
      WeightOutside(w[..|w| - 1], s, t);
    }
  }

  lemma TotalIsPositive(w: seq<real>)
    requires Weighted(w)
    ensures Total(w) > 0.0
  {
    WeightGrows(w, {}, Everything(|w|));
  }

  lemma DivideMonotone(a: real, b: real, t: real)
    requires a <= b && t > 0.0
    ensures a / t * 100.0 <= b / t * 100.0
  {
    assert b / t - a / t == (b - a) / t;
    assert (b - a) / t >= 0.0;
  }

  /** Achieving more never lowers the score. */
  lemma ScoreMonotone(w: seq<real>, s: set<int>, t: set<int>)
    requires Weighted(w) && s <= t
    ensures Score(w, s) <= Score(w, t)
  {
    TotalIsPositive(w);
    WeightGrows(w, s, t);
    DivideMonotone(WeightOf(w, s), WeightOf(w, t), Total(w));
    RoundMonotone(WeightOf(w, s) / Total(w) * 100.0, WeightOf(w, t) / Total(w) * 100.0);
  }

  lemma {:induction false} NothingWeighsNothing(w: seq<real>)
    ensures WeightOf(w, {}) == 0.0
  {
    if w != [] {
      NothingWeighsNothing(w[..|w| - 1]);
    }
  }

  lemma QuotientOfItself(x: real)
    requires x > 0.0
    ensures x / x == 1.0
  {
  }

  /** Achieving every criterion scores 100 exactly when some criterion has a positive weight; without one it scores 0. */
  lemma FullScoreIffSomeWeight(w: seq<real>)
    requires Weighted(w)
    ensures Score(w, Everything(|w|)) == 100 <==> exists i :: 0 <= i < |w| && w[i] > 0.0
    ensures Score(w, Everything(|w|)) == 0 <==> forall i :: 0 <= i < |w| ==> w[i] == 0.0
  {
    var sum := WeightOf(w, Everything(|w|));
    WeightPositiveIff(w, |w|);
    WeightGrows(w, {}, Everything(|w|));
    TotalIsPositive(w);
    if sum != 0.0 {
      QuotientOfItself(sum);
      RoundOfInteger(100);
    } else {
      assert 0.0 / Total(w) * 100.0 == 0.0;
      RoundOfInteger(0);
    }
  }

  lemma {:induction false} WeightPositiveIff(w: seq<real>, n: nat)
    requires Weighted(w) && |w| <= n
    ensures WeightOf(w, Everything(n)) > 0.0 <==> exists i :: 0 <= i < |w| && w[i] > 0.0
    ensures WeightOf(w, Everything(n)) >= 0.0
  {
    if w != [] {
      var front, k := w[..|w| - 1], |w| - 1;
      WeightPositiveIff(front, n);
      assert k in Everything(n);
      if exists i :: 0 <= i < |w| && w[i] > 0.0 {
        var i :| 0 <= i < |w| && w[i] > 0.0;
        if i < k {
          assert front[i] > 0.0;
        }
      }
      if i :| 0 <= i < |front| && front[i] > 0.0 {
        assert w[i] > 0.0;
      }
    }
  }

  /** Whatever is achieved, the score is a percentage. */
  lemma ScoreIsPercentage(w: seq<real>, s: set<int>)
    requires Weighted(w)
    ensures 0 <= Score(w, s) <= 100
  {
    var all := Everything(|w|);
    WeightOutside(w, s, s * all);
    FullScoreIffSomeWeight(w);
    ScoreMonotone(w, {}, s * all);
    ScoreMonotone(w, s * all, all);
    NothingWeighsNothing(w);
    TotalIsPositive(w);
    assert 0.0 / Total(w) * 100.0 == 0.0;
    RoundOfInteger(0);
    assert (forall i :: 0 <= i < |w| ==> w[i] == 0.0) || (exists i :: 0 <= i < |w| && w[i] > 0.0);
  }

  /** A set of criteria weighs what its parts weigh. */
  lemma {:induction false} WeightAdds(w: seq<real>, s: set<int>, t: set<int>)
    requires s !! t
    ensures WeightOf(w, s + t) == WeightOf(w, s) + WeightOf(w, t)
  {
    if w != [] {
      WeightAdds(w[..|w| - 1], s, t);
    }
  }

  /** One criterion weighs its own weight. */
  lemma WeightOfOne(w: seq<real>, k: int)
    ensures WeightOf(w, {k}) == if 0 <= k < |w| then w[k] else 0.0
  {
    NothingWeighsNothing(w);
    WeightWithOne(w, {}, k);
    assert {} + {k} == {k};
  }

  /** With some weight the score is the integer nearest to the achieved share of it in percent, the even one of two. */
  lemma ScoreIsNearestShare(w: seq<real>, s: set<int>)
    requires Weighted(w) && WeightOf(w, Everything(|w|)) > 0.0
    ensures var share := WeightOf(w, s) / WeightOf(w, Everything(|w|)) * 100.0;
            && share - 0.5 <= Score(w, s) as real <= share + 0.5
            && (Score(w, s) as real == share + 0.5 || Score(w, s) as real == share - 0.5 ==> Score(w, s) % 2 == 0)
  {
    var share := WeightOf(w, s) / WeightOf(w, Everything(|w|)) * 100.0;
    RoundIsNearest(share, Score(w, s));
    RoundIsNearest(share, Score(w, s) + 1);
    RoundIsNearest(share, Score(w, s) - 1);
  }

  // -------------------------------------------------------------- grading

  /** The criteria that a grading result calls achieved. */
  function AchievedIn(matches: seq<Match>): set<int> {
    set m | m in matches && m.Match? && m.achieved && m.criterion.Some? :: m.criterion.value
  }

  lemma {:induction false} WeightWithOne(w: seq<real>, s: set<int>, k: int)
    requires k !in s
    ensures WeightOf(w, s + {k}) == WeightOf(w, s) + if 0 <= k < |w| then w[k] else 0.0
  {
    if w != [] {
      WeightWithOne(w[..|w| - 1], s, k);
    }
  }

  /** Grades a result; one that does not match the rubric is an error.  The entries may come in any order. */
  method Grade(raw: seq<real>, matches: seq<Match>) returns (score: Option<int>, passed: bool)
    ensures score.None? <==> !Permutes(|raw|, matches)
    ensures score.Some? ==> score.value == Score(Weights(raw), AchievedIn(matches)) && 0 <= score.value <= 100
    ensures passed <==> score.Some? && score.value >= 60
  {
    AcceptedIffPermutes(|raw|, matches);
    if !Accepted(|raw|, matches) {
      return None, false;
    }
    var w := Weights(raw);
    var sum := 0.0;
    NothingWeighsNothing(w);
    assert AchievedIn(matches[..0]) == {};
    for i := 0 to |matches|
      invariant sum == WeightOf(w, AchievedIn(matches[..i]))
    {
      var m := matches[i];
      assert matches[..i + 1] == matches[..i] + [m];
      if m.achieved {
        NewCriterion(matches, i);
        WeightWithOne(w, AchievedIn(matches[..i]), m.criterion.value);
        assert AchievedIn(matches[..i + 1]) == AchievedIn(matches[..i]) + {m.criterion.value};
        sum := sum + w[m.criterion.value];
      } else {
        assert AchievedIn(matches[..i + 1]) == AchievedIn(matches[..i]);
      }
    }
    assert matches[..|matches|] == matches;
    ScoreIsPercentage(w, AchievedIn(matches));
    score := Some(Round(sum / Total(w) * 100.0));
    passed := score.value >= 60;
  }

  lemma NewCriterion(matches: seq<Match>, i: nat)
    requires Permutes(|matches|, matches) && i < |matches|
    ensures matches[i].criterion.value !in AchievedIn(matches[..i])
  {
    forall m | m in matches[..i]
      ensures m.criterion != matches[i].criterion
    {
      var j :| 0 <= j < i && matches[..i][j] == m;
      assert matches[j] == m;
    }
  }
}
