/** Which finished Workers stay retrievable: a time-to-live and a bound on their number. */
module Retention {
  import opened Collections

  /** Finished Workers, least recently finished first, and when each finished. */
  datatype Finished = Finished(order: seq<string>, at: map<string, int>)

  datatype Limits = Limits(limit: int, ttl: int)

  function Expired(f: Finished, c: Limits, now: int): set<string> {
    set id | id in f.at && now - f.at[id] > c.ttl
  }

  /** One pass over a snapshot of the order.  `size` is the number of entries
      still stored less the number removed, so every removal lowers it by two. */
  function Sweep(order: seq<string>, expired: set<string>, limit: int, size: int): seq<string> {
    if order == [] then []
    else if order[0] in expired || size > limit then Sweep(order[1..], expired, limit, size - 2)
    else [order[0]] + Sweep(order[1..], expired, limit, size)
  }

  function Drop(order: seq<string>, id: string): seq<string> {
    if order == [] then []
    else if order[0] == id then order[1..]
    else [order[0]] + Drop(order[1..], id)
  }

  /** The clean-up loop on the order alone: it runs over a snapshot and drops entries from the order itself. */
  function LoopOrder(order: seq<string>, todo: seq<string>, expired: set<string>, limit: int, removed: int): seq<string>
    decreases |todo|
  {
    if todo == [] then order
    else if todo[0] in expired || |order| - removed > limit
    then LoopOrder(Drop(order, todo[0]), todo[1..], expired, limit, removed + 1)
    else LoopOrder(order, todo[1..], expired, limit, removed)
  }

  function Restrict(at: map<string, int>, order: seq<string>): map<string, int> {
    map id | id in at && id in order :: at[id]
  }

  datatype Step =
    | Finish(id: string, at: int, now: int)
    | Reregister(id: string)
    | Clean(now: int)

  function Swept(f: Finished, c: Limits, now: int): Finished {
    var order := Sweep(f.order, Expired(f, c, now), c.limit, |f.order|);
    Finished(order, Restrict(f.at, order))
  }

  /** A Worker that finishes again keeps its first finishing time and moves to the end. */
  function Moved(f: Finished, id: string, at: int): Finished {
    Finished(Drop(f.order, id) + [id], if id in f.at then f.at else f.at[id := at])
  }

  function Apply(f: Finished, c: Limits, s: Step): Finished {
    match s
    case Finish(id, at, now) => Swept(Moved(f, id, at), c, now)
    case Reregister(id) => Finished(Drop(f.order, id), f.at - {id})
    case Clean(now) => Swept(f, c, now)
  }

  function Run(f: Finished, c: Limits, steps: seq<Step>): Finished
    decreases |steps|
  {
    if steps == [] then f else Run(Apply(f, c, steps[0]), c, steps[1..])
  }

  ghost predicate Ok(f: Finished, c: Limits) {
    && Distinct(f.order)
    && f.at.Keys == Elements(f.order)
    && |f.order| <= Max(0, c.limit)
  }

  /** How many entries finished after `id`. */
  function After(order: seq<string>, id: string): nat {
    if order == [] then 0
    else if order[0] == id then |order| - 1
    else After(order[1..], id)
  }

  lemma {:induction false} DropFacts(order: seq<string>, id: string)
    requires Distinct(order)
    ensures var d := Drop(order, id);
            && Distinct(d)
            && Elements(d) == Elements(order) - {id}
            && |d| == |order| - (if id in order then 1 else 0)
  {
    if order != [] {
      var rest := order[1..];
      HeadIsNew(order);
      if order[0] == id {
      } else {
        DropFacts(rest, id);
        assert order[0] !in Elements(rest);
        assert order[0] !in Elements(Drop(rest, id));
        ConsDistinct(order[0], Drop(rest, id));
      }
    }
  }

  lemma HeadIsNew(order: seq<string>)
    requires Distinct(order) && order != []
    ensures Distinct(order[1..]) && order[0] !in order[1..]
    ensures Elements(order) == {order[0]} + Elements(order[1..])
  {
    assert order == [order[0]] + order[1..];
    forall i | 0 <= i < |order[1..]|
      ensures order[1..][i] != order[0]
    {
      assert order[1..][i] == order[i + 1];
    }
  }

  lemma ConsDistinct(x: string, l: seq<string>)
    requires Distinct(l) && x !in l
    ensures Distinct([x] + l) && Elements([x] + l) == {x} + Elements(l)
  {
  }

  lemma {:induction false} SweepFacts(order: seq<string>, expired: set<string>, limit: int, size: int)
    requires Distinct(order)
    ensures var s := Sweep(order, expired, limit, size);
            && Distinct(s)
            && Elements(s) <= Elements(order) - expired
            && |s| <= |order|
  {
    if order != [] {
      var rest := order[1..];
      HeadIsNew(order);
      if order[0] in expired || size > limit {
        SweepFacts(rest, expired, limit, size - 2);
      } else {
        SweepFacts(rest, expired, limit, size);
        assert order[0] !in Elements(rest);
        assert order[0] !in Elements(Sweep(rest, expired, limit, size));
        ConsDistinct(order[0], Sweep(rest, expired, limit, size));
      }
    }
  }

  /** Once the store is within its limit a pass removes the expired entries and nothing else. */
  lemma {:induction false} SweepWithinLimit(order: seq<string>, expired: set<string>, limit: int, size: int, id: string)
    requires Distinct(order) && size <= limit
    ensures id in Sweep(order, expired, limit, size) <==> id in order && id !in expired
    ensures id in order && id !in expired ==>
              After(Sweep(order, expired, limit, size), id) <= After(order, id)
  {
    if order != [] {
      HeadIsNew(order);
      SweepWithinLimit(order[1..], expired, limit, if order[0] in expired then size - 2 else size, id);
      SweepFacts(order[1..], expired, limit, size);
    }
  }

  /** Without expired entries a pass removes only half of the excess, rounded up. */
  lemma {:induction false} PassRemovesHalfTheExcess(order: seq<string>, limit: nat, size: int)
    ensures |Sweep(order, {}, limit, size)|
            == |order| - Min(|order|, if size > limit then (size - limit + 1) / 2 else 0)
  {
    if order != [] {
      PassRemovesHalfTheExcess(order[1..], limit, if size > limit then size - 2 else size);
    }
  }

  /** So one pass brings a store of unexpired entries back within its limit exactly when it is at most one over. */
  lemma OnePassRepairsOneExcess(order: seq<string>, limit: nat)
    ensures |Sweep(order, {}, limit, |order|)| <= limit <==> |order| <= limit + 1
  {
    PassRemovesHalfTheExcess(order, limit, |order|);
  }

  lemma SweepOfOneExcess(order: seq<string>, expired: set<string>, limit: int)
    requires Distinct(order) && |order| <= Max(0, limit) + 1
    ensures |Sweep(order, expired, limit, |order|)| <= Max(0, limit)
  {
    SweepFacts(order, expired, limit, |order|);
    if order != [] {
      SweepFacts(order[1..], expired, limit, |order| - 2);
    }
  }

  lemma SweptIsOk(f: Finished, c: Limits, now: int)
    requires Distinct(f.order) && f.at.Keys == Elements(f.order) && |f.order| <= Max(0, c.limit) + 1
    ensures Ok(Swept(f, c, now), c)
  {
    SweepFacts(f.order, Expired(f, c, now), c.limit, |f.order|);
    SweepOfOneExcess(f.order, Expired(f, c, now), c.limit);
  }

  lemma MovedFacts(f: Finished, c: Limits, id: string, at: int)
    requires Ok(f, c)
    ensures var m := Moved(f, id, at);
            && Distinct(m.order) && m.at.Keys == Elements(m.order)
            && |m.order| <= Max(0, c.limit) + 1
  {
    DropFacts(f.order, id);
    var d := Drop(f.order, id);
    assert id !in Elements(d);
    assert forall i :: 0 <= i < |d| ==> d[i] in Elements(d);
    assert Elements(d + [id]) == Elements(d) + {id};
  }

  /** At most `limit` finished Workers are kept in every reachable state. */
  lemma {:induction false} StepKeepsOk(f: Finished, c: Limits, s: Step)
    requires Ok(f, c)
    ensures Ok(Apply(f, c, s), c)
  {
    match s
    case Finish(id, at, now) =>
      MovedFacts(f, c, id, at);
      SweptIsOk(Moved(f, id, at), c, now);
    case Reregister(id) => DropFacts(f.order, id);
    case Clean(now) => SweptIsOk(f, c, now);
  }

  lemma {:induction false} RunKeepsOk(f: Finished, c: Limits, steps: seq<Step>)
    requires Ok(f, c)
    ensures Ok(Run(f, c, steps), c)
    decreases |steps|
  {
    if steps != [] {
      StepKeepsOk(f, c, steps[0]);
      RunKeepsOk(Apply(f, c, steps[0]), c, steps[1..]);
    }
  }

  /** How many times a Worker other than `id` finishes. */
  function OtherFinishes(steps: seq<Step>, id: string): nat {
    if steps == [] then 0
    else (if steps[0].Finish? && steps[0].id != id then 1 else 0) + OtherFinishes(steps[1..], id)
  }

  /** The step neither registers `id` again nor looks at it after its time-to-live. */
  predicate Spares(s: Step, id: string, at: int, c: Limits) {
    match s
    case Finish(_, _, now) => now - at <= c.ttl
    case Reregister(other) => other != id
    case Clean(now) => now - at <= c.ttl
  }

  ghost predicate Keeps(f: Finished, id: string, at: int, after: nat) {
    id in f.order && id in f.at && f.at[id] == at && After(f.order, id) <= after
  }

  lemma {:induction false} AfterAppend(order: seq<string>, id: string, x: string)
    requires id in order
    ensures After(order + [x], id) == After(order, id) + 1
  {
    if order[0] != id {
      AfterAppend(order[1..], id, x);
      assert (order + [x])[1..] == order[1..] + [x];
    }
  }

  lemma {:induction false} AfterDrop(order: seq<string>, id: string, x: string)
    requires id in order && x != id
    ensures id in Drop(order, x) && After(Drop(order, x), id) <= After(order, id)
  {
    if order[0] == id {
      assert Drop(order, x) == [id] + Drop(order[1..], x);
      DropShrinks(order[1..], x);
    } else if order[0] != x {
      AfterDrop(order[1..], id, x);
      assert ([order[0]] + Drop(order[1..], x))[1..] == Drop(order[1..], x);
    }
  }

  lemma {:induction false} DropShrinks(order: seq<string>, x: string)
    ensures |Drop(order, x)| <= |order|
  {
    if order != [] {
      DropShrinks(order[1..], x);
    }
  }

  lemma SweepKeeps(f: Finished, c: Limits, now: int, id: string, at: int, after: nat)
    requires Distinct(f.order) && f.at.Keys == Elements(f.order)
    requires |f.order| <= c.limit + 1 && after < c.limit
    requires Keeps(f, id, at, after) && now - at <= c.ttl
    ensures Keeps(Swept(f, c, now), id, at, after)
  {
    var expired := Expired(f, c, now);
    if |f.order| <= c.limit {
      SweepWithinLimit(f.order, expired, c.limit, |f.order|, id);
    } else {
      HeadIsNew(f.order);
      assert f.order[0] != id;
      SweepWithinLimit(f.order[1..], expired, c.limit, |f.order| - 2, id);
    }
  }

  lemma {:induction false} StepKeeps(f: Finished, c: Limits, s: Step, id: string, at: int, after: nat)
    requires Ok(f, c) && Keeps(f, id, at, after) && Spares(s, id, at, c)
    requires after + OtherFinishes([s], id) < c.limit
    ensures Keeps(Apply(f, c, s), id, at, after + OtherFinishes([s], id))
  {
    match s
    case Finish(x, t, now) =>
      MovedFacts(f, c, x, t);
      DropFacts(f.order, x);
      var d := Drop(f.order, x);
      if x != id {
        AfterDrop(f.order, id, x);
        AfterAppend(d, id, x);
        SweepKeeps(Moved(f, x, t), c, now, id, at, after + 1);
      } else {
        AfterLast(d, id);
        SweepKeeps(Moved(f, x, t), c, now, id, at, after);
      }
    case Reregister(x) => AfterDrop(f.order, id, x);
    case Clean(now) => SweepKeeps(f, c, now, id, at, after);
  }

  lemma {:induction false} AfterLast(d: seq<string>, id: string)
    requires id !in d
    ensures After(d + [id], id) == 0
  {
    if d != [] {
      AfterLast(d[1..], id);
      assert (d + [id])[1..] == d[1..] + [id];
    }
  }

  /** A finished Worker stays retrievable until it is registered again, its
      time-to-live passes, or as many others as the limit allows have finished after it. */
  lemma {:induction false} StaysRetrievable(f: Finished, c: Limits, steps: seq<Step>, id: string, at: int, after: nat)
    requires Ok(f, c) && Keeps(f, id, at, after)
    requires forall i :: 0 <= i < |steps| ==> Spares(steps[i], id, at, c)
    requires after + OtherFinishes(steps, id) < c.limit
    ensures id in Run(f, c, steps).order
    decreases |steps|
  {
    if steps != [] {
      StepKeeps(f, c, steps[0], id, at, after);
      StepKeepsOk(f, c, steps[0]);
      StaysRetrievable(Apply(f, c, steps[0]), c, steps[1..], id, at, after + OtherFinishes([steps[0]], id));
    }
  }

  /** The bound is sharp: the oldest of a full store goes when one more Worker finishes. */
  lemma EvictedAtTheLimit(f: Finished, c: Limits, x: string, at: int, now: int)
    requires Ok(f, c) && |f.order| == c.limit && c.limit > 0 && x !in f.order
    ensures After(f.order, f.order[0]) + 1 == c.limit
    ensures f.order[0] !in Apply(f, c, Finish(x, at, now)).order
  {
    var m, first := Moved(f, x, at), f.order[0];
    MovedFacts(f, c, x, at);
    DropAbsent(f.order, x);
    assert m.order == f.order + [x];
    HeadIsNew(m.order);
    var expired := Expired(m, c, now);
    var kept := Sweep(m.order[1..], expired, c.limit, |m.order| - 2);
    assert Swept(m, c, now).order == kept;
    SweepFacts(m.order[1..], expired, c.limit, |m.order| - 2);
    assert first !in Elements(m.order[1..]);
    assert first !in Elements(kept);
  }

  lemma {:induction false} DropAbsent(order: seq<string>, x: string)
    requires x !in order
    ensures Drop(order, x) == order
  {
    if order != [] {
      DropAbsent(order[1..], x);
    }
  }
}
