/** The parent links among active Workers, along which a cancellation spreads. */
module Cancellation {
  import opened Collections

  /** Active Worker to the id it names as its parent; the parent need not be active. */
  type Parents = map<string, string>

  /** `x` reaches `t` by following `n` parent links through active Workers. */
  ghost predicate Climbs(p: Parents, x: string, t: string, n: nat)
    decreases n
  {
    x in p && (if n == 0 then x == t else Climbs(p, p[x], t, n - 1))
  }

  ghost predicate Under(p: Parents, x: string, t: string) {
    exists n: nat :: Climbs(p, x, t, n)
  }

  ghost function Subtree(p: Parents, t: string): set<string> {
    set x | x in p && Under(p, x, t)
  }

  ghost function Children(p: Parents, t: string): set<string> {
    set c | c in p && p[c] == t
  }

  /** Every active parent ranks below its children. */
  ghost predicate Ranked(p: Parents, rank: map<string, nat>) {
    && rank.Keys == p.Keys
    && forall x :: x in p && p[x] in p ==> rank[p[x]] < rank[x]
  }

  ghost predicate Acyclic(p: Parents) {
    exists rank :: Ranked(p, rank)
  }

  lemma {:induction false} ClimbRaisesRank(p: Parents, rank: map<string, nat>, x: string, t: string, n: nat)
    requires Ranked(p, rank) && Climbs(p, x, t, n)
    ensures t in p && rank[t] + n <= rank[x]
    decreases n
  {
    if n > 0 {
      ClimbRaisesRank(p, rank, p[x], t, n - 1);
    }
  }

  lemma {:induction false} ClimbThrough(p: Parents, x: string, a: string, b: string, m: nat, n: nat)
    requires Climbs(p, x, a, m) && Climbs(p, x, b, n) && m <= n
    ensures Climbs(p, a, b, n - m)
    decreases m
  {
    if m > 0 {
      ClimbThrough(p, p[x], a, b, m - 1, n - 1);
    }
  }

  lemma {:induction false} ClimbFurther(p: Parents, x: string, a: string, b: string, m: nat, n: nat)
    requires Climbs(p, x, a, m) && Climbs(p, a, b, n)
    ensures Climbs(p, x, b, m + n)
    decreases m
  {
    if m > 0 {
      ClimbFurther(p, p[x], a, b, m - 1, n);
    }
  }

  /** Different children of one Worker have disjoint subtrees: nobody is visited twice. */
  lemma SiblingsDisjoint(p: Parents, t: string, a: string, b: string)
    requires Acyclic(p)
    requires a in Children(p, t) && b in Children(p, t) && a != b
    ensures Subtree(p, a) !! Subtree(p, b)
  {
    var rank :| Ranked(p, rank);
    forall x | x in Subtree(p, a)
      ensures x !in Subtree(p, b)
    {
      var m: nat :| Climbs(p, x, a, m);
      forall n: nat
        ensures !Climbs(p, x, b, n)
      {
        if m <= n {
          NoSiblingAbove(p, rank, t, x, a, b, m, n);
        } else {
          NoSiblingAbove(p, rank, t, x, b, a, n, m);
        }
      }
    }
  }

  lemma NoSiblingAbove(
    p: Parents, rank: map<string, nat>, t: string, x: string, a: string, b: string, m: nat, n: nat)
    requires Ranked(p, rank) && a != b && m <= n
    requires a in Children(p, t) && b in Children(p, t)
    ensures !(Climbs(p, x, a, m) && Climbs(p, x, b, n))
  {
    if Climbs(p, x, a, m) && Climbs(p, x, b, n) {
      ClimbThrough(p, x, a, b, m, n);
      ClimbRaisesRank(p, rank, t, b, n - m - 1);
    }
  }

  /** A Worker is in none of its children's subtrees, and a child's subtree is a smaller part of its own. */
  lemma ChildSubtree(p: Parents, t: string, c: string)
    requires Acyclic(p) && t in p && c in Children(p, t)
    ensures t !in Subtree(p, c) && t in Subtree(p, t)
    ensures Subtree(p, c) < Subtree(p, t)
  {
    var rank :| Ranked(p, rank);
    assert Climbs(p, t, t, 0) && Climbs(p, c, t, 1);
    if t in Subtree(p, c) {
      var n: nat :| Climbs(p, t, c, n);
      ClimbRaisesRank(p, rank, t, c, n);
    }
    forall x | x in Subtree(p, c)
      ensures x in Subtree(p, t)
    {
      var n: nat :| Climbs(p, x, c, n);
      ClimbFurther(p, x, c, t, n, 1);
    }
  }

  /** Everything below a Worker is that Worker or lies below one of its children. */
  lemma {:induction false} LastLink(p: Parents, x: string, t: string, n: nat) returns (c: string)
    requires Climbs(p, x, t, n) && n > 0
    ensures c in Children(p, t) && Climbs(p, x, c, n - 1)
    decreases n
  {
    if n == 1 {
      c := x;
    } else {
      c := LastLink(p, p[x], t, n - 1);
    }
  }

  /** The Workers below any of `cs`. */
  ghost function Below(p: Parents, cs: set<string>): set<string> {
    set x | x in p && exists c :: c in cs && Under(p, x, c)
  }

  lemma SubtreeIsRootAndBelow(p: Parents, t: string)
    requires Acyclic(p) && t in p
    ensures Subtree(p, t) == {t} + Below(p, Children(p, t))
    ensures t !in Below(p, Children(p, t))
  {
    forall x | x in Subtree(p, t)
      ensures x == t || x in Below(p, Children(p, t))
    {
      var n: nat :| Climbs(p, x, t, n);
      if n > 0 {
        var c := LastLink(p, x, t, n);
        assert Under(p, x, c);
      }
    }
    forall x | x in Below(p, Children(p, t))
      ensures x in Subtree(p, t) && x != t
    {
      var c :| c in Children(p, t) && Under(p, x, c);
      ChildSubtree(p, t, c);
      assert x in Subtree(p, c);
    }
    assert Climbs(p, t, t, 0);
  }

  /** Visiting one more child adds exactly its subtree. */
  lemma BelowGrows(p: Parents, t: string, cs: set<string>, c: string)
    requires Acyclic(p) && cs <= Children(p, t) && c in Children(p, t) - cs
    ensures Below(p, cs + {c}) == Below(p, cs) + Subtree(p, c)
    ensures Below(p, cs) !! Subtree(p, c)
  {
    forall x | x in Below(p, cs)
      ensures x !in Subtree(p, c)
    {
      var d :| d in cs && Under(p, x, d);
      assert x in Subtree(p, d);
      SiblingsDisjoint(p, t, d, c);
    }
  }

  /** The recursion that stops `t` returns within `fuel` nested calls.  It does not skip Workers that are
      already being cancelled, so its shape depends on the parent links alone. */
  ghost predicate Returns(p: Parents, t: string, fuel: nat)
    decreases fuel
  {
    fuel > 0 && forall c :: c in Children(p, t) ==> Returns(p, c, fuel - 1)
  }

  ghost predicate Terminates(p: Parents, t: string) {
    exists fuel: nat :: Returns(p, t, fuel)
  }

  lemma {:induction false} ReturnsWithMore(p: Parents, t: string, fuel: nat, more: nat)
    requires Returns(p, t, fuel) && fuel <= more
    ensures Returns(p, t, more)
    decreases fuel
  {
    forall c | c in Children(p, t)
      ensures Returns(p, c, more - 1)
    {
      ReturnsWithMore(p, c, fuel - 1, more - 1);
    }
  }

  /** An upper bound for all ranks. */
  lemma RankBound(rank: map<string, nat>) returns (bound: nat)
    ensures forall x :: x in rank ==> rank[x] <= bound
  {
    bound := 0;
    var todo := rank.Keys;
    while todo != {}
      invariant todo <= rank.Keys
      invariant forall x :: x in rank.Keys - todo ==> rank[x] <= bound
      decreases todo
    {
      var x :| x in todo;
      bound := Max(bound, rank[x]);
      todo := todo - {x};
    }
  }

  lemma {:induction false} RankedReturns(p: Parents, rank: map<string, nat>, bound: nat, t: string)
    requires Ranked(p, rank) && t in p
    requires forall x :: x in rank ==> rank[x] <= bound
    ensures Returns(p, t, bound - rank[t] + 1)
    decreases bound - rank[t]
  {
    forall c | c in Children(p, t)
      ensures Returns(p, c, bound - rank[t])
    {
      RankedReturns(p, rank, bound, c);
      ReturnsWithMore(p, c, bound - rank[c] + 1, bound - rank[t]);
    }
  }

  /** The least number of nested calls. */
  lemma {:induction false} LeastFuel(p: Parents, t: string, fuel: nat) returns (least: nat)
    requires Returns(p, t, fuel)
    ensures Returns(p, t, least) && least > 0 && !Returns(p, t, least - 1)
    decreases fuel
  {
    if Returns(p, t, fuel - 1) {
      least := LeastFuel(p, t, fuel - 1);
    } else {
      least := fuel;
    }
  }

  /** The most calls any of `todo` needs, and what each needs, as a rank that falls towards the leaves. */
  lemma {:induction false} FuelTable(p: Parents, todo: set<string>) returns (need: map<string, nat>)
    requires todo <= p.Keys
    requires forall t :: t in p ==> Terminates(p, t)
    ensures need.Keys == todo
    ensures forall t :: t in todo ==> need[t] > 0 && Returns(p, t, need[t]) && !Returns(p, t, need[t] - 1)
    decreases todo
  {
    need := map[];
    if todo != {} {
      var t :| t in todo;
      need := FuelTable(p, todo - {t});
      var fuel: nat :| Returns(p, t, fuel);
      var least := LeastFuel(p, t, fuel);
      need := need[t := least];
    }
  }

  /** Stopping any active Worker terminates if and only if the parent links among active Workers are acyclic. */
  lemma StopTerminatesIffAcyclic(p: Parents)
    ensures Acyclic(p) <==> forall t :: t in p ==> Terminates(p, t)
  {
    if Acyclic(p) {
      var rank :| Ranked(p, rank);
      var bound := RankBound(rank);
      forall t | t in p
        ensures Terminates(p, t)
      {
        RankedReturns(p, rank, bound, t);
      }
    }
    if forall t :: t in p ==> Terminates(p, t) {
      var need := FuelTable(p, p.Keys);
      var bound := RankBound(need);
      var rank: map<string, nat> := map t | t in p :: (bound - need[t]) as nat;
      forall x | x in p && p[x] in p
        ensures rank[p[x]] < rank[x]
      {
        assert x in Children(p, p[x]);
        if need[p[x]] <= need[x] {
          ReturnsWithMore(p, x, need[p[x]] - 1, need[x] - 1);
        }
      }
      assert Ranked(p, rank);
    }
  }

  /** Registering a Worker creates a cycle exactly when its parent already lies at or below it. */
  lemma RegisterKeepsAcyclicIff(p: Parents, id: string, parent: string)
    requires Acyclic(p - {id})
    ensures Acyclic(p[id := parent]) <==> !Under(p[id := parent], parent, id)
  {
    var q := p[id := parent];
    if Acyclic(q) && Under(q, parent, id) {
      var rank :| Ranked(q, rank);
      var n: nat :| Climbs(q, parent, id, n);
      assert Climbs(q, id, id, n + 1);
      ClimbRaisesRank(q, rank, id, id, n + 1);
    }
    if !Under(q, parent, id) {
      RegisterRanks(p, id, parent);
    }
  }

  /** Ranks for the new links: everything at or below the new Worker moves above the rest. */
  lemma RegisterRanks(p: Parents, id: string, parent: string)
    requires Acyclic(p - {id}) && !Under(p[id := parent], parent, id)
    ensures Acyclic(p[id := parent])
  {
    var q := p[id := parent];
    var rank :| Ranked(p - {id}, rank);
    var bound := RankBound(rank);
    var moved: map<string, nat> := map x | x in q ::
      if x == id then bound + 1 else if x in Subtree(q, id) then bound + 2 + rank[x] else rank[x];
    forall x | x in q && q[x] in q
      ensures moved[q[x]] < moved[x]
    {
      ParentIsBelowToo(q, x, id);
      if x == id {
        assert q[x] !in Subtree(q, id) && q[x] != id;
      } else {
        assert q[x] == (p - {id})[x];
      }
    }
    assert Ranked(q, moved);
  }

  /** Of two linked Workers both lie at or below `t` or neither does, unless the lower one is `t`. */
  lemma ParentIsBelowToo(q: Parents, x: string, t: string)
    requires x in q && t in q
    ensures x != t ==> (Under(q, x, t) <==> Under(q, q[x], t))
    ensures Under(q, t, t)
  {
    assert Climbs(q, t, t, 0);
    if Under(q, q[x], t) {
      var n: nat :| Climbs(q, q[x], t, n);
      assert Climbs(q, x, t, n + 1);
    }
    if Under(q, x, t) && x != t {
      var n: nat :| Climbs(q, x, t, n);
      assert n > 0 && Climbs(q, q[x], t, n - 1);
    }
  }

  /** A Worker that leaves the active set takes its links with it. */
  lemma RemoveKeepsAcyclic(p: Parents, id: string)
    requires Acyclic(p)
    ensures Acyclic(p - {id})
  {
    var rank :| Ranked(p, rank);
    assert Ranked(p - {id}, rank - {id});
  }
}
