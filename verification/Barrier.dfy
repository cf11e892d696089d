/** Waiting for the Workers of one plan.

    The barrier is a loop over the bus.  Whatever is published while it waits,
    it takes the plan's results in the order they were accepted, takes nothing
    else, and returns without a timeout only when the plan is satisfied. */
module Barrier {
  import opened Collections
  import opened WorkerLifecycle
  import opened WorkerEvents
  import opened WorkerRegistry

  /** How many results the final drain of a barrier takes at most. */
  const DRAIN_LIMIT: nat := 100

  predicate BarrierSatisfied(p: Plan, completed: set<string>) {
    var count := |completed * p.workers|;
    match p.mode
    case Any => count >= 1
    case Quorum => count >= p.quorum
    case All => count >= |p.workers|
  }

  /** What the three modes ask for, without counting. */
  lemma BarrierMeaning(p: Plan, completed: set<string>)
    ensures p.mode == All ==> (BarrierSatisfied(p, completed) <==> p.workers <= completed)
    ensures p.mode == Any ==> (BarrierSatisfied(p, completed) <==> exists w :: w in p.workers && w in completed)
    ensures p.mode == Quorum ==>
              (BarrierSatisfied(p, completed) <==>
               exists some :: some <= completed && some <= p.workers && |some| == p.quorum)
  {
    var common := completed * p.workers;
    if p.mode == All {
      SubsetSize(common, p.workers);
      assert p.workers <= completed ==> common == p.workers;
    } else if p.mode == Any {
      if |common| >= 1 {
        var w :| w in common;
        assert w in p.workers && w in completed;
      }
      if w :| w in p.workers && w in completed {
        SubsetSize({w}, common);
      }
    } else {
      if |common| >= p.quorum {
        var some := SubsetOfSize(common, p.quorum);
        assert some <= completed;
      }
      if some :| some <= completed && some <= p.workers && |some| == p.quorum {
        SubsetSize(some, common);
      }
    }
  }

  lemma {:induction false} SubsetOfSize<T>(s: set<T>, n: nat) returns (r: set<T>)
    requires n <= |s|
    ensures r <= s && |r| == n
  {
    if n == |s| {
      r := s;
    } else {
      var x :| x in s;
      r := SubsetOfSize(s - {x}, n);
    }
  }

  lemma BarrierMonotone(p: Plan, some: set<string>, more: set<string>)
    requires some <= more && BarrierSatisfied(p, some)
    ensures BarrierSatisfied(p, more)
  {
    SubsetSize(some * p.workers, more * p.workers);
  }

  /** A plan that was built from Workers can be met, by all of them, and is not met by nobody. */
  lemma PlanCanBeMet(p: Plan, all: Records, session: string, turn: string)
    requires Plans(p, all, session, turn)
    ensures BarrierSatisfied(p, p.workers) && !BarrierSatisfied(p, {})
  {
    assert p.workers * p.workers == p.workers && {} * p.workers == {};
    assert p.workers != {};
  }

  function WorkersOf(l: seq<Event>): set<string> {
    set e | e in l :: e.worker
  }

  lemma WorkersOfSnoc(l: seq<Event>, e: Event)
    ensures WorkersOf(l + [e]) == WorkersOf(l) + {e.worker}
  {
  }

  function Wants(p: Plan): Selector {
    Selector(p.turn, Some(p.workers))
  }

  /** `collected` is the longest-waiting part of the plan's results in `all`, and `rest` is what it leaves. */
  ghost predicate Collected(p: Plan, all: seq<Event>, collected: seq<Event>, rest: seq<Event>) {
    && collected <= Selected(Wants(p), all)
    && rest == Without(Wants(p), all, |collected|)
  }

  lemma CollectedNothing(p: Plan, all: seq<Event>)
    ensures Collected(p, all, [], all)
  {
  }

  /** A further result, taken after `got` has arrived. */
  lemma TakeNext(
    p: Plan, all: seq<Event>, collected: seq<Event>, rest: seq<Event>,
    got: seq<Event>, r: Option<Event>, rest2: seq<Event>, gaveUp: bool)
    requires Collected(p, all, collected, rest)
    requires TakesFirst(Wants(p), rest + got, r, rest2, gaveUp)
    ensures Collected(p, all + got, if r.Some? then collected + [r.value] else collected, rest2)
    ensures r.None? && !gaveUp ==> Selected(Wants(p), rest2) == []
  {
    Arrived(p, all, collected, rest, got);
    if r.Some? {
      TakeOne(p, all + got, collected, rest + got, r.value);
    }
  }

  /** What has arrived meanwhile is behind everything else. */
  lemma Arrived(p: Plan, all: seq<Event>, collected: seq<Event>, rest: seq<Event>, got: seq<Event>)
    requires Collected(p, all, collected, rest)
    ensures Collected(p, all + got, collected, rest + got)
  {
    SelectedConcat(Wants(p), all, got);
    WithoutConcat(Wants(p), all, got, |collected|);
  }

  lemma TakeOne(p: Plan, all: seq<Event>, collected: seq<Event>, rest: seq<Event>, e: Event)
    requires Collected(p, all, collected, rest)
    requires Selected(Wants(p), rest) != [] && e == Selected(Wants(p), rest)[0]
    ensures Collected(p, all, collected + [e], Without(Wants(p), rest, 1))
  {
    var sel, n := Wants(p), |collected|;
    WithoutKeepsTheRest(sel, all, n);
    assert Selected(sel, rest) == Selected(sel, all)[n..];
    WithoutTwice(sel, all, n, 1);
    NextOfPrefix(collected, Selected(sel, all), e);
  }

  lemma NextOfPrefix<T>(a: seq<T>, b: seq<T>, x: T)
    requires a <= b && |a| < |b| && b[|a|] == x
    ensures a + [x] <= b
  {
  }

  /** A final drain. */
  lemma TakeMore(p: Plan, all: seq<Event>, collected: seq<Event>, rest: seq<Event>, limit: nat)
    requires Collected(p, all, collected, rest)
    ensures Collected(p, all, collected + Taken(Wants(p), rest, limit), Without(Wants(p), rest, limit))
    ensures Selected(Wants(p), Without(Wants(p), rest, limit)) == [] || |Taken(Wants(p), rest, limit)| == limit
  {
    WithoutKeepsTheRest(Wants(p), rest, limit);
    var sel, n := Wants(p), |collected|;
    var s, m := Selected(sel, all), Min(limit, |Selected(sel, rest)|);
    WithoutKeepsTheRest(sel, all, n);
    assert Selected(sel, rest) == s[n..];
    assert collected + s[n..][..m] == s[..n + m];
    WithoutTwice(sel, all, n, limit);
    if m < limit {
      WithoutAll(sel, all, n + m);
      WithoutAll(sel, all, n + limit);
    }
  }

  /** Nothing of other turns or other Workers is touched, and nothing is lost. */
  lemma CollectedLeavesTheRest(p: Plan, all: seq<Event>, collected: seq<Event>, rest: seq<Event>)
    requires Collected(p, all, collected, rest)
    ensures Rejected(Wants(p), rest) == Rejected(Wants(p), all)
    ensures Selected(Wants(p), all) == collected + Selected(Wants(p), rest)
    ensures multiset(all) == multiset(collected) + multiset(rest)
    ensures WorkersOf(collected) <= p.workers && forall e :: e in collected ==> e.turn == p.turn
  {
    var sel, n := Wants(p), |collected|;
    WithoutKeepsTheRest(sel, all, n);
    WithoutConserves(sel, all, n);
    assert Taken(sel, all, n) == collected;
    forall e | e in collected
      ensures e.worker in p.workers && e.turn == p.turn
    {
      assert e in Selected(sel, all);
      SelectedMeans(sel, all, e);
    }
  }

  function Total(s: seq<nat>): nat {
    if s == [] then 0 else Total(s[..|s| - 1]) + s[|s| - 1]
  }

  /** The wait was not over before its last result. */
  ghost predicate NotBefore(p: Plan, collected: seq<Event>) {
    collected == [] || !BarrierSatisfied(p, WorkersOf(collected[..|collected| - 1]))
  }

  lemma NotBeforeSnoc(p: Plan, collected: seq<Event>, e: Event)
    requires !BarrierSatisfied(p, WorkersOf(collected))
    ensures NotBefore(p, collected + [e]) && WorkersOf(collected + [e]) == WorkersOf(collected) + {e.worker}
  {
    assert (collected + [e])[..|collected|] == collected;
    WorkersOfSnoc(collected, e);
  }

  /** `seen` says how many queued results each round has looked at. */
  ghost predicate Within(seen: seq<nat>, looks: seq<nat>) {
    |seen| <= |looks| && forall i :: 0 <= i < |seen| ==> seen[i] <= looks[i]
  }

  lemma WithinSnoc(seen: seq<nat>, looks: seq<nat>, n: nat)
    requires Within(seen, looks) && |seen| < |looks| && n <= looks[|seen|]
    ensures Within(seen + [n], looks) && Total(seen + [n]) == Total(seen) + n
  {
    assert (seen + [n])[..|seen|] == seen;
  }

  /** How a wait ended: it was not over before its last result, and it is over now unless it timed out, which it did
      because no round was left, because the last round has looked at as many queued results as it could, or because no
      arrival and no result of the plan was left. */
  ghost predicate Ended(p: Plan, collected: seq<Event>, timedOut: bool, looks: seq<nat>, seen: seq<nat>, nothingLeft: bool) {
    var n := |collected|;
    && (!timedOut <==> BarrierSatisfied(p, WorkersOf(collected)))
    && NotBefore(p, collected) && Within(seen, looks)
    && (if timedOut && n < |looks| then |seen| == n + 1 && (seen[n] == looks[n] || nothingLeft) else |seen| == n)
  }

  /** The results waited for are `collected`; of the arrivals the first `used` were needed, `arrived` were accepted. */
  method WaitForBarrier(bus: WorkerEventBus, p: Plan, arrivals: seq<Event>, looks: seq<nat>)
    returns (collected: seq<Event>, timedOut: bool, used: nat, ghost arrived: seq<Event>, ghost seen: seq<nat>)
    requires bus.Valid()
    modifies bus
    ensures bus.Valid()
    ensures used <= |arrivals|
    ensures arrived == NewOnes(p.session, bus.window, old(At(bus.accepted, p.session)), arrivals[..used])
    ensures At(bus.accepted, p.session) == old(At(bus.accepted, p.session)) + Ids(arrived)
    ensures Collected(p, old(bus.Pending(p.session)) + arrived, collected, bus.Pending(p.session))
    ensures Ended(p, collected, timedOut, looks, seen,
                  used == |arrivals| && Selected(Wants(p), bus.Pending(p.session)) == [])
    ensures |bus.Chan(p.session).deferred| + |collected| == |old(bus.Chan(p.session)).deferred| + Total(seen)
    ensures bus.consumed == old(bus.consumed) + |collected|
  {
    var completed: set<string> := {};
    ghost var start, h, first := bus.Pending(p.session), At(bus.accepted, p.session), |bus.Chan(p.session).deferred|;
    collected, timedOut, used, arrived, seen := [], false, 0, [], [];
    assert start + arrived == start && h + Ids([]) == h;
    CollectedNothing(p, start);
    while !BarrierSatisfied(p, completed)
      invariant bus.Valid()
      invariant completed == WorkersOf(collected) && |collected| <= |looks| && used <= |arrivals|
      invariant arrived == NewOnes(p.session, bus.window, h, arrivals[..used])
      invariant At(bus.accepted, p.session) == h + Ids(arrived)
      invariant Collected(p, start + arrived, collected, bus.Pending(p.session))
      invariant |seen| == |collected| && Within(seen, looks) && NotBefore(p, collected)
      invariant |bus.Chan(p.session).deferred| + |collected| == first + Total(seen)
      invariant bus.consumed == old(bus.consumed) + |collected|
      decreases |looks| - |collected|
    {
      if |collected| == |looks| {
        timedOut := true;
        return;
      }
      var r, looked;
      r, used, looked, arrived := Round(bus, p, arrivals, used, looks[|collected|], start, h, collected, arrived);
      WithinSnoc(seen, looks, looked);
      seen := seen + [looked];
      if r.None? {
        timedOut := true;
        return;
      }
      NotBeforeSnoc(p, collected, r.value);
      collected, completed := collected + [r.value], completed + {r.value.worker};
    }
  }

  /** One round of a wait. */
  method Round(bus: WorkerEventBus, p: Plan, arrivals: seq<Event>, used0: nat, looks: nat,
               ghost start: seq<Event>, ghost h: seq<string>, ghost collected: seq<Event>, ghost arrived0: seq<Event>)
    returns (r: Option<Event>, used: nat, looked: nat, ghost arrived: seq<Event>)
    requires bus.Valid() && used0 <= |arrivals|
    requires arrived0 == NewOnes(p.session, bus.window, h, arrivals[..used0])
    requires At(bus.accepted, p.session) == h + Ids(arrived0)
    requires Collected(p, start + arrived0, collected, bus.Pending(p.session))
    modifies bus
    ensures bus.Valid() && used0 <= used <= |arrivals| && looked <= looks
    ensures arrived == NewOnes(p.session, bus.window, h, arrivals[..used])
    ensures At(bus.accepted, p.session) == h + Ids(arrived)
    ensures Collected(p, start + arrived, if r.Some? then collected + [r.value] else collected, bus.Pending(p.session))
    ensures r.None? ==> looked == looks || (used == |arrivals| && Selected(Wants(p), bus.Pending(p.session)) == [])
    ensures |bus.Chan(p.session).deferred| + Count(r) == |old(bus.Chan(p.session)).deferred| + looked
    ensures bus.consumed == old(bus.consumed) + Count(r)
  {
    ghost var rest, got := bus.Pending(p.session), [];
    var more;
    r, more, looked, got := bus.GetForTurn(p.session, Wants(p), arrivals[used0..], looks);
    MoreArrived(p, bus.window, h, start, arrivals, used0, more, arrived0, got);
    used, arrived := used0 + more, arrived0 + got;
    TakeNext(p, start + arrived0, collected, rest, got, r, bus.Pending(p.session), looked == looks);
  }

  lemma MoreArrived(p: Plan, window: nat, h: seq<string>, start: seq<Event>,
                    arrivals: seq<Event>, used: nat, more: nat, arrived: seq<Event>, got: seq<Event>)
    requires used + more <= |arrivals| && arrived == NewOnes(p.session, window, h, arrivals[..used])
    requires got == NewOnes(p.session, window, h + Ids(arrived), arrivals[used..][..more])
    ensures arrived + got == NewOnes(p.session, window, h, arrivals[..used + more])
    ensures h + Ids(arrived) + Ids(got) == h + Ids(arrived + got)
    ensures start + arrived + got == start + (arrived + got)
  {
    assert arrivals[..used + more] == arrivals[..used] + arrivals[used..][..more];
    NewOnesConcat(p.session, window, h, arrivals[..used], arrivals[used..][..more]);
    IdsConcat(arrived, got);
    Associative(h, Ids(arrived), Ids(got));
    Associative(start, arrived, got);
  }

  /** Collects a plan's results.  `arrivals` are the publications that happen meanwhile, of which the first `used` were
      needed.  The deadline passes before round number `|looks|`, or in round `i` after `looks[i]` queued results have
      been looked at.  The first `waited` results were waited for, the others were there when the wait was over. */
  method CollectBarrierEvents(bus: WorkerEventBus, p: Plan, arrivals: seq<Event>, looks: seq<nat>)
    returns (collected: seq<Event>, timedOut: bool, used: nat,
             ghost waited: nat, ghost arrived: seq<Event>, ghost seen: seq<nat>)
    requires bus.Valid()
    modifies bus
    ensures bus.Valid()
    ensures !timedOut <==> BarrierSatisfied(p, WorkersOf(collected))
    ensures used <= |arrivals|
    ensures arrived == NewOnes(p.session, bus.window, old(At(bus.accepted, p.session)), arrivals[..used])
    ensures At(bus.accepted, p.session) == old(At(bus.accepted, p.session)) + Ids(arrived)
    ensures Collected(p, old(bus.Pending(p.session)) + arrived, collected, bus.Pending(p.session))
    ensures waited <= |collected|
    ensures Ended(p, collected[..waited], timedOut, looks, seen,
                  used == |arrivals| && Selected(Wants(p), bus.Pending(p.session)) == [])
    ensures timedOut ==>
              && waited == |collected|
              && |bus.Chan(p.session).deferred| + |collected| == |old(bus.Chan(p.session)).deferred| + Total(seen)
    ensures !timedOut ==> Selected(Wants(p), bus.Pending(p.session)) == [] || |collected| == waited + 100
    ensures bus.consumed == old(bus.consumed) + |collected|
  {
    collected, timedOut, used, arrived, seen := WaitForBarrier(bus, p, arrivals, looks);
    waited := |collected|;
    assert collected[..waited] == collected;
    if !timedOut {
      var more := FinalDrain(bus, p, old(bus.Pending(p.session)) + arrived, collected);
      assert (collected + more)[..waited] == collected;
      BarrierMonotone(p, WorkersOf(collected), WorkersOf(collected + more));
      collected := collected + more;
    }
  }

  /** Takes what is there when a wait is over. */
  method FinalDrain(bus: WorkerEventBus, p: Plan, ghost all: seq<Event>, collected: seq<Event>) returns (more: seq<Event>)
    requires bus.Valid() && Collected(p, all, collected, bus.Pending(p.session))
    modifies bus`channels, bus`consumed
    ensures bus.Valid() && Collected(p, all, collected + more, bus.Pending(p.session))
    ensures Selected(Wants(p), bus.Pending(p.session)) == [] || |more| == 100
    ensures bus.consumed == old(bus.consumed) + |more|
  {
    TakeMore(p, all, collected, bus.Pending(p.session), DRAIN_LIMIT);
    more := bus.DrainForTurn(p.session, Wants(p), DRAIN_LIMIT);
  }
}
