/** The session-scoped bus that carries Worker results to the Coordinator.

    A session's results sit in three containers: a deferred list, a bounded
    queue and an unbounded overflow.  The model shows that together they behave
    as one list, and that no result is lost, doubled or reordered by them. */
module WorkerEvents {
  import opened Collections

  datatype Event = Event(
    id: string, session: string, worker: string, turn: string, attempt: nat, sequence: nat, join: bool)

  /** Which results a turn is waiting for; no worker set means any worker. */
  datatype Selector = Selector(turn: string, workers: Option<set<string>>)

  predicate Selects(sel: Selector, e: Event) {
    e.turn == sel.turn && (sel.workers.None? || e.worker in sel.workers.value)
  }

  /** The selected results, in order. */
  function Selected(sel: Selector, l: seq<Event>): seq<Event> {
    if l == [] then [] else (if Selects(sel, l[0]) then [l[0]] else []) + Selected(sel, l[1..])
  }

  /** The results that are not selected, in order. */
  function Rejected(sel: Selector, l: seq<Event>): seq<Event> {
    if l == [] then [] else (if Selects(sel, l[0]) then [] else [l[0]]) + Rejected(sel, l[1..])
  }

  /** The list after its first `k` selected results have been taken out. */
  function Without(sel: Selector, l: seq<Event>, k: nat): seq<Event> {
    if l == [] || k == 0 then l
    else if Selects(sel, l[0]) then Without(sel, l[1..], k - 1)
    else [l[0]] + Without(sel, l[1..], k)
  }

  /** Which results of a list are selected: those of the turn, by one of its Workers if these are named. */
  lemma {:induction false} SelectedMeans(sel: Selector, l: seq<Event>, e: Event)
    ensures e in Selected(sel, l) <==>
            e in l && e.turn == sel.turn && (sel.workers.Some? ==> e.worker in sel.workers.value)
    ensures e in Rejected(sel, l) <==>
            e in l && !(e.turn == sel.turn && (sel.workers.Some? ==> e.worker in sel.workers.value))
  {
    if l != [] {
      SelectedMeans(sel, l[1..], e);
      assert l == [l[0]] + l[1..];
    }
  }

  lemma {:induction false} SelectedConcat(sel: Selector, a: seq<Event>, b: seq<Event>)
    ensures Selected(sel, a + b) == Selected(sel, a) + Selected(sel, b)
    ensures Rejected(sel, a + b) == Rejected(sel, a) + Rejected(sel, b)
  {
    if a == [] {
      assert a + b == b;
    } else {
      assert (a + b)[1..] == a[1..] + b;
      SelectedConcat(sel, a[1..], b);
      if Selects(sel, a[0]) {
        assert Selected(sel, a) == [a[0]] + Selected(sel, a[1..]);
        assert Rejected(sel, a) == Rejected(sel, a[1..]);
      } else {
        assert Rejected(sel, a) == [a[0]] + Rejected(sel, a[1..]);
        assert Selected(sel, a) == Selected(sel, a[1..]);
      }
    }
  }

  lemma {:induction false} WithoutInFirst(sel: Selector, a: seq<Event>, b: seq<Event>, k: nat)
    requires k <= |Selected(sel, a)|
    ensures Without(sel, a + b, k) == Without(sel, a, k) + b
  {
    if a == [] {
      assert a + b == b;
    } else if k > 0 {
      assert (a + b)[1..] == a[1..] + b;
      if Selects(sel, a[0]) {
        WithoutInFirst(sel, a[1..], b, k - 1);
      } else {
        WithoutInFirst(sel, a[1..], b, k);
        Associative([a[0]], Without(sel, a[1..], k), b);
      }
    }
  }

  lemma WithoutCons(sel: Selector, x: Event, l: seq<Event>, k: nat)
    ensures !Selects(sel, x) ==> Without(sel, [x] + l, k) == [x] + Without(sel, l, k)
    ensures Selects(sel, x) && k > 0 ==> Without(sel, [x] + l, k) == Without(sel, l, k - 1)
  {
    assert ([x] + l)[1..] == l;
  }

  lemma {:induction false} WithoutBeyond(sel: Selector, a: seq<Event>, b: seq<Event>, k: nat)
    requires |Selected(sel, a)| <= k
    ensures Without(sel, a + b, k) == Rejected(sel, a) + Without(sel, b, k - |Selected(sel, a)|)
  {
    if a == [] {
      assert a + b == b;
    } else {
      var x, rest := a[0], a[1..];
      assert a + b == [x] + (rest + b);
      WithoutCons(sel, x, rest + b, k);
      if Selects(sel, x) {
        WithoutBeyond(sel, rest, b, k - 1);
      } else {
        WithoutBeyond(sel, rest, b, k);
        Associative([x], Rejected(sel, rest), Without(sel, b, k - |Selected(sel, rest)|));
      }
    }
  }

  /** Taking `k` from the front of a longer list: the second part is touched only when the first runs out. */
  lemma WithoutConcat(sel: Selector, a: seq<Event>, b: seq<Event>, k: nat)
    ensures k <= |Selected(sel, a)| ==> Without(sel, a + b, k) == Without(sel, a, k) + b
    ensures |Selected(sel, a)| <= k
            ==> Without(sel, a + b, k) == Rejected(sel, a) + Without(sel, b, k - |Selected(sel, a)|)
  {
    if k <= |Selected(sel, a)| {
      WithoutInFirst(sel, a, b, k);
    }
    if |Selected(sel, a)| <= k {
      WithoutBeyond(sel, a, b, k);
    }
  }

  lemma {:induction false} WithoutAll(sel: Selector, l: seq<Event>, k: nat)
    requires |Selected(sel, l)| <= k
    ensures Without(sel, l, k) == Rejected(sel, l)
  {
    WithoutConcat(sel, l, [], k);
    assert l + [] == l;
    assert Without(sel, [], k - |Selected(sel, l)|) == [];
  }

  /** What removal means: the rejected results keep their order and exactly the
      first `k` selected ones are gone. */
  lemma {:induction false} WithoutKeepsTheRest(sel: Selector, l: seq<Event>, k: nat)
    ensures Rejected(sel, Without(sel, l, k)) == Rejected(sel, l)
    ensures Selected(sel, Without(sel, l, k)) == Selected(sel, l)[Min(k, |Selected(sel, l)|)..]
  {
    if l != [] && k > 0 {
      var rest := l[1..];
      if Selects(sel, l[0]) {
        WithoutKeepsTheRest(sel, rest, k - 1);
      } else {
        WithoutKeepsTheRest(sel, rest, k);
        assert ([l[0]] + Without(sel, rest, k))[1..] == Without(sel, rest, k);
      }
    }
  }

  /** The first `k` selected results. */
  function Taken(sel: Selector, l: seq<Event>, k: nat): seq<Event> {
    Selected(sel, l)[..Min(k, |Selected(sel, l)|)]
  }

  lemma TakenCons(sel: Selector, x: Event, l: seq<Event>, k: nat)
    requires k > 0
    ensures Taken(sel, [x] + l, k) == if Selects(sel, x) then [x] + Taken(sel, l, k - 1) else Taken(sel, l, k)
  {
    assert ([x] + l)[1..] == l;
  }

  /** One more element on either side. */
  lemma ConsParts(x: Event, l: seq<Event>, a: seq<Event>, b: seq<Event>)
    requires multiset(l) == multiset(a) + multiset(b)
    ensures multiset([x] + l) == multiset([x] + a) + multiset(b)
    ensures multiset([x] + l) == multiset(a) + multiset([x] + b)
  {
  }

  /** Nothing appears or disappears: what was taken and what stays make up the list. */
  lemma {:induction false} WithoutConserves(sel: Selector, l: seq<Event>, k: nat)
    ensures multiset(l) == multiset(Without(sel, l, k)) + multiset(Taken(sel, l, k))
  {
    if l == [] || k == 0 {
      assert Taken(sel, l, k) == [];
    } else {
      var x, rest := l[0], l[1..];
      assert l == [x] + rest;
      TakenCons(sel, x, rest, k);
      WithoutCons(sel, x, rest, k);
      var less := if Selects(sel, x) then k - 1 else k;
      WithoutConserves(sel, rest, less);
      ConsParts(x, rest, Without(sel, rest, less), Taken(sel, rest, less));
    }
  }

  /** `r` is the first selected result of `list` and `rest` is `list` without it; or there is none, or the search
      gave up before it came to one, and then nothing is missing. */
  ghost predicate TakesFirst(sel: Selector, list: seq<Event>, r: Option<Event>, rest: seq<Event>, gaveUp: bool) {
    && (r.Some? ==> Selected(sel, list) != [] && r.value == Selected(sel, list)[0] && rest == Without(sel, list, 1))
    && (r.None? ==> rest == list && (gaveUp || Selected(sel, list) == []))
  }

  lemma {:induction false} WithoutLength(sel: Selector, l: seq<Event>, k: nat)
    ensures |Without(sel, l, k)| == |l| - Min(k, |Selected(sel, l)|)
  {
    if l != [] && k > 0 {
      WithoutLength(sel, l[1..], if Selects(sel, l[0]) then k - 1 else k);
    }
  }

  /** Removals compose: taking `a` and then `b` is taking `a + b`. */
  lemma {:induction false} WithoutTwice(sel: Selector, l: seq<Event>, a: nat, b: nat)
    ensures Without(sel, Without(sel, l, a), b) == Without(sel, l, a + b)
  {
    if l != [] && a > 0 {
      if Selects(sel, l[0]) {
        WithoutTwice(sel, l[1..], a - 1, b);
      } else {
        WithoutTwice(sel, l[1..], a, b);
        var w := Without(sel, l[1..], a);
        assert ([l[0]] + w)[1..] == w;
      }
    }
  }

  /** Every two equal ids in an acceptance history are more than `w` apart. */
  ghost predicate Spaced(h: seq<string>, w: nat) {
    forall i, j :: 0 <= i < j < |h| && h[i] == h[j] ==> j - i > w
  }

  /** Accepting an id keeps the history spaced exactly when the window does not hold it. */
  lemma AcceptKeepsSpacing(h: seq<string>, w: nat, id: string)
    requires Spaced(h, w)
    ensures Spaced(h + [id], w) <==> id !in LastN(h, w)
  {
    var g, last := h + [id], LastN(h, w);
    var off := |h| - |last|;
    if id in last {
      var i :| 0 <= i < |last| && last[i] == id;
      assert g[off + i] == g[|h|];
    } else {
      forall i, j | 0 <= i < j < |g| && g[i] == g[j]
        ensures j - i > w
      {
        if j == |h| && i >= off {
          assert last[i - off] != id;
        }
      }
    }
  }

  lemma WindowSlides(h: seq<string>, w: nat, id: string)
    ensures LastN(h + [id], w) == LastN(LastN(h, w) + [id], w)
  {
  }

  /** The window itself never holds an id twice. */
  lemma WindowDistinct(h: seq<string>, w: nat)
    requires Spaced(h, w)
    ensures Distinct(LastN(h, w)) && |LastN(h, w)| <= w
  {
    var last := LastN(h, w);
    var off := |h| - |last|;
    forall i, j | 0 <= i < j < |last|
      ensures last[i] != last[j]
    {
      assert last[i] == h[off + i] && last[j] == h[off + j];
    }
  }

  /** One session's part of the bus. */
  datatype Channel = Channel(
    deferred: seq<Event>, queue: seq<Event>, overflow: seq<Event>, seenIds: set<string>, seenOrder: seq<string>)
  {
    /** The one list that the three containers stand for. */
    function List(): seq<Event> {
      deferred + queue + overflow
    }
  }

  const EMPTY_CHANNEL := Channel([], [], [], {}, [])

  /** Queue capacity `max`; as in `asyncio.Queue`, zero or less means unbounded. */
  predicate Full(max: int, q: seq<Event>) {
    max > 0 && |q| >= max
  }

  /** Overflow is used only behind a full queue. */
  predicate Ordered(max: int, c: Channel) {
    c.overflow != [] ==> Full(max, c.queue)
  }

  /** The window remembers exactly the last `window` ids of the acceptance history `h`, and equal ids in
      that history are more than `window` acceptances apart. */
  ghost predicate WindowExact(window: nat, c: Channel, h: seq<string>) {
    && c.seenOrder == LastN(h, window)
    && c.seenIds == Elements(c.seenOrder)
    && Spaced(h, window)
  }

  ghost predicate ChannelOk(max: int, window: nat, c: Channel, h: seq<string>) {
    Ordered(max, c) && WindowExact(window, c, h)
  }

  /** Forgets the oldest ids until no more than the window's size are left. */
  method Forget(window: nat, seen: set<string>, all: seq<string>) returns (ids: set<string>, order: seq<string>)
    requires seen == Elements(all) && Distinct(all)
    ensures order == LastN(all, window) && ids == Elements(order)
  {
    ids, order := seen, all;
    ghost var k := 0;
    while |order| > window
      invariant 0 <= k <= |all| && order == all[k..]
      invariant |order| >= Min(|all|, window)
      invariant ids == Elements(order) && Distinct(order)
      decreases |order|
    {
      assert order == [order[0]] + order[1..];
      ids, order, k := ids - {order[0]}, order[1..], k + 1;
    }
  }

  /** Adds an id to the window and forgets what falls out of it. */
  method Remember(window: nat, c: Channel, id: string, ghost h: seq<string>) returns (r: Channel)
    requires WindowExact(window, c, h)
    requires id !in c.seenIds
    ensures WindowExact(window, r, h + [id])
    ensures r == c.(seenIds := r.seenIds, seenOrder := r.seenOrder)
  {
    AcceptKeepsSpacing(h, window, id);
    WindowSlides(h, window, id);
    WindowDistinct(h, window);
    var ids, order := Forget(window, c.seenIds + {id}, c.seenOrder + [id]);
    r := c.(seenIds := ids, seenOrder := order);
  }

  /** Accepts a result unless its id is in the window.  Waiting for room ends,
      after a timeout, in the overflow, so the whole call is one step. */
  method Accept(max: int, window: nat, c: Channel, e: Event, ghost h: seq<string>)
    returns (isNew: bool, timedOut: bool, r: Channel)
    requires ChannelOk(max, window, c, h)
    ensures isNew == (e.id !in LastN(h, window))
    ensures isNew ==> ChannelOk(max, window, r, h + [e.id]) && r.List() == c.List() + [e]
    ensures !isNew ==> r == c
    ensures r.deferred == c.deferred && timedOut == (isNew && max > 0 && |c.queue| >= max)
    ensures timedOut ==> r.queue == c.queue && r.overflow == c.overflow + [e]
  {
    if e.id in c.seenIds {
      return false, false, c;
    }
    timedOut := Full(max, c.queue);
    r := if timedOut then c.(overflow := c.overflow + [e]) else c.(queue := c.queue + [e]);
    assert r.List() == c.List() + [e];
    r := Remember(window, r, e.id, h);
    isNew := true;
  }

  /** Moves overflow into the queue while there is room. */
  method Refill(max: int, q: seq<Event>, o: seq<Event>) returns (q2: seq<Event>, o2: seq<Event>)
    ensures q2 + o2 == q + o
    ensures q <= q2 && (max > 0 && |q| <= max ==> |q2| <= max)
    ensures o2 != [] ==> Full(max, q2)
  {
    q2, o2 := q, o;
    while o2 != [] && !Full(max, q2)
      invariant q2 + o2 == q + o
      invariant q <= q2 && (max > 0 && |q| <= max ==> |q2| <= max)
      decreases |o2|
    {
      q2, o2 := q2 + [o2[0]], o2[1..];
    }
  }

  /** Takes the oldest queued result and refills the queue behind it. */
  method TakeQueued(max: int, q: seq<Event>, o: seq<Event>)
    returns (e: Event, q2: seq<Event>, o2: seq<Event>)
    requires q != []
    ensures q + o == [e] + (q2 + o2)
    ensures o2 != [] ==> Full(max, q2)
  {
    e := q[0];
    q2, o2 := Refill(max, q[1..], o);
    assert q + o == [e] + (q[1..] + o);
  }

  /** Takes the first selected result out of the deferred list. */
  method TakeDeferred(sel: Selector, d: seq<Event>) returns (r: Option<Event>, d2: seq<Event>)
    ensures r.None? <==> Selected(sel, d) == []
    ensures r.Some? ==> r.value == Selected(sel, d)[0]
    ensures d2 == Without(sel, d, 1)
  {
    for i := 0 to |d|
      invariant Selected(sel, d[..i]) == []
      invariant Rejected(sel, d[..i]) == d[..i]
    {
      SelectedConcat(sel, d[..i], [d[i]]);
      assert d[..i + 1] == d[..i] + [d[i]];
      if Selects(sel, d[i]) {
        assert d == d[..i] + d[i..] && d[i..][1..] == d[i + 1..];
        SelectedConcat(sel, d[..i], d[i..]);
        WithoutConcat(sel, d[..i], d[i..], 1);
        return Some(d[i]), d[..i] + d[i + 1..];
      }
    }
    assert d[..|d|] == d;
    WithoutAll(sel, d, 1);
    return None, d;
  }

  /** One more element at the end of a scanned prefix. */
  lemma WithoutSnoc(sel: Selector, p: seq<Event>, e: Event, k: nat)
    ensures Without(sel, p + [e], k)
            == Without(sel, p, k) + (if Selects(sel, e) && |Selected(sel, p)| < k then [] else [e])
    ensures Selected(sel, p + [e]) == Selected(sel, p) + (if Selects(sel, e) then [e] else [])
  {
    WithoutConcat(sel, p, [e], k);
    SelectedConcat(sel, p, [e]);
    if |Selected(sel, p)| < k {
      WithoutAll(sel, p, k);
      assert Without(sel, [e], k - |Selected(sel, p)|) == if Selects(sel, e) then [] else [e];
    }
  }

  /** Splits the deferred list into at most `limit` selected results and the rest. */
  method SplitDeferred(sel: Selector, d: seq<Event>, limit: nat)
    returns (taken: seq<Event>, kept: seq<Event>)
    ensures taken == Taken(sel, d, limit)
    ensures kept == Without(sel, d, limit)
  {
    taken, kept := [], [];
    for i := 0 to |d|
      invariant taken == Taken(sel, d[..i], limit)
      invariant kept == Without(sel, d[..i], limit)
    {
      WithoutSnoc(sel, d[..i], d[i], limit);
      assert d[..i + 1] == d[..i] + [d[i]];
      if Selects(sel, d[i]) && |taken| < limit {
        taken := taken + [d[i]];
      } else {
        kept := kept + [d[i]];
      }
    }
    assert d[..|d|] == d;
  }

  /** Drains at most `limit` results of one turn and keeps everything else in order. */
  method DrainSelected(max: int, c: Channel, sel: Selector, limit: nat)
    returns (events: seq<Event>, r: Channel)
    requires Ordered(max, c)
    ensures events == Taken(sel, c.List(), limit)
    ensures r.List() == Without(sel, c.List(), limit)
    ensures Ordered(max, r) && r == c.(deferred := r.deferred, queue := r.queue, overflow := r.overflow)
  {
    var d: seq<Event>;
    events, d := SplitDeferred(sel, c.deferred, limit);
    var q, o := c.queue, c.overflow;
    ghost var p := c.deferred;
    while |events| < limit && q != []
      invariant c.List() == p + (q + o)
      invariant o != [] ==> Full(max, q)
      invariant events == Taken(sel, p, limit)
      invariant d == Without(sel, p, limit)
      decreases |q| + |o|
    {
      var e: Event;
      ghost var before := q + o;
      e, q, o := TakeQueued(max, q, o);
      assert p + before == (p + [e]) + (q + o);
      WithoutSnoc(sel, p, e, limit);
      p := p + [e];
      if Selects(sel, e) {
        events := events + [e];
      } else {
        d := d + [e];
      }
    }
    SelectedConcat(sel, p, q + o);
    WithoutConcat(sel, p, q + o, limit);
    if |events| < limit {
      WithoutAll(sel, p, limit);
      assert c.List() == p;
    }
    r := c.(deferred := d, queue := q, overflow := o);
    assert r.List() == d + (q + o);
  }

  /** Drains the oldest `limit` results whatever their turn. */
  method DrainAny(max: int, c: Channel, limit: nat) returns (events: seq<Event>, r: Channel)
    requires Ordered(max, c)
    ensures c.List() == events + r.List() && |events| == Min(limit, |c.List()|)
    ensures Ordered(max, r) && r == c.(deferred := r.deferred, queue := r.queue, overflow := r.overflow)
  {
    events := [];
    var d, q, o := c.deferred, c.queue, c.overflow;
    while |events| < limit && d != []
      invariant |events| <= limit
      invariant events + d == c.deferred
      decreases |d|
    {
      events, d := events + [d[0]], d[1..];
    }
    assert c.List() == events + d + (q + o);
    ghost var front, tail := events, q + o;
    var queued: seq<Event>;
    queued, q, o := DrainQueue(max, q, o, limit - |events|);
    assert |events| < limit ==> d == [];
    assert |queued| > 0 ==> d == [];
    events := events + queued;
    // An empty queue has room, so it leaves no overflow: the loop that pops the overflow directly never runs.
    assert |events| < limit ==> o == [];
    r := c.(deferred := d, queue := q, overflow := o);
    DrainedApart(front, d, queued, q + o);
    assert r.List() == d + (q + o);
  }

  lemma DrainedApart(front: seq<Event>, d: seq<Event>, queued: seq<Event>, rest: seq<Event>)
    requires queued != [] ==> d == []
    ensures front + d + (queued + rest) == (front + queued) + (d + rest)
  {
  }

  /** Pops at most `limit` queued results, refilling the queue after each. */
  method DrainQueue(max: int, q: seq<Event>, o: seq<Event>, limit: nat)
    returns (events: seq<Event>, q2: seq<Event>, o2: seq<Event>)
    requires o != [] ==> Full(max, q)
    ensures q + o == events + (q2 + o2)
    ensures |events| <= limit
    ensures |events| < limit ==> q2 == [] && o2 == []
    ensures o2 != [] ==> Full(max, q2)
  {
    events, q2, o2 := [], q, o;
    while |events| < limit && q2 != []
      invariant |events| <= limit
      invariant o2 != [] ==> Full(max, q2)
      invariant q + o == events + (q2 + o2)
      decreases |q2| + |o2|
    {
      ghost var before := q2 + o2;
      var e: Event;
      e, q2, o2 := TakeQueued(max, q2, o2);
      assert events + before == (events + [e]) + (q2 + o2);
      events := events + [e];
    }
  }

  /** Passing over an unselected prefix `d`: the next result is either the first match or one more to pass over. */
  lemma FirstMatch(sel: Selector, d: seq<Event>, e: Event, rest: seq<Event>)
    requires Selected(sel, d) == []
    ensures Selects(sel, e) ==>
              && Selected(sel, d + ([e] + rest)) == [e] + Selected(sel, rest)
              && Without(sel, d + ([e] + rest), 1) == d + rest
    ensures !Selects(sel, e) ==> Selected(sel, d + [e]) == []
    ensures d + ([e] + rest) == (d + [e]) + rest
  {
    SelectedConcat(sel, d, [e]);
    if Selects(sel, e) {
      MatchBehind(sel, d, e, rest);
    }
  }

  lemma MatchBehind(sel: Selector, d: seq<Event>, e: Event, rest: seq<Event>)
    requires Selected(sel, d) == [] && Selects(sel, e)
    ensures Selected(sel, d + ([e] + rest)) == [e] + Selected(sel, rest)
    ensures Without(sel, d + ([e] + rest), 1) == d + rest
  {
    SelectedConcat(sel, d, [e] + rest);
    SelectedConcat(sel, [e], rest);
    WithoutBeyond(sel, d, [e] + rest, 1);
    WithoutCons(sel, e, rest, 1);
    WithoutAll(sel, d, 0);
  }

  lemma ListInParts(c: Channel)
    ensures c.List() == c.deferred + (c.queue + c.overflow)
    ensures c.queue == [] && c.overflow == [] ==> c.List() == c.deferred
  {
  }

  function Count<T>(r: Option<T>): nat {
    if r.Some? then 1 else 0
  }

  /** The place of the first selected result, counted from one. */
  function FirstPlace(sel: Selector, l: seq<Event>): nat {
    if l == [] || Selects(sel, l[0]) then 1 else 1 + FirstPlace(sel, l[1..])
  }

  lemma {:induction false} FirstPlaceBehind(sel: Selector, d: seq<Event>, e: Event, rest: seq<Event>)
    requires Selected(sel, d) == [] && Selects(sel, e)
    ensures FirstPlace(sel, d + ([e] + rest)) == |d| + 1
  {
    if d != [] {
      assert (d + ([e] + rest))[1..] == d[1..] + ([e] + rest);
      FirstPlaceBehind(sel, d[1..], e, rest);
    }
  }

  /** Scans the queue for a selected result; everything passed over is deferred.  The deadline passes after `looks`
      entries have been looked at. */
  method ScanQueue(max: int, c: Channel, sel: Selector, looks: nat)
    returns (r: Option<Event>, c2: Channel, looked: nat)
    requires Ordered(max, c)
    requires Selected(sel, c.deferred) == []
    ensures looked <= looks && TakesFirst(sel, c.List(), r, c2.List(), looked == looks)
    ensures |c2.deferred| + Count(r) == |c.deferred| + looked
    ensures r.Some? ==> looked > 0 && FirstPlace(sel, c.List()) == |c.deferred| + looked
    ensures Selected(sel, c2.deferred) == []
    ensures Ordered(max, c2) && c2 == c.(deferred := c2.deferred, queue := c2.queue, overflow := c2.overflow)
  {
    var d, q, o := c.deferred, c.queue, c.overflow;
    looked := 0;
    ListInParts(c);
    while q != [] && looked < looks
      invariant looked <= looks && |d| == |c.deferred| + looked
      invariant c.List() == d + (q + o)
      invariant o != [] ==> Full(max, q)
      invariant Selected(sel, d) == []
      decreases |q| + |o|
    {
      var e: Event;
      e, q, o := TakeQueued(max, q, o);
      looked := looked + 1;
      FirstMatch(sel, d, e, q + o);
      if Selects(sel, e) {
        FirstPlaceBehind(sel, d, e, q + o);
        c2 := c.(deferred := d, queue := q, overflow := o);
        ListInParts(c2);
        return Some(e), c2, looked;
      }
      d := d + [e];
    }
    c2 := c.(deferred := d, queue := q, overflow := o);
    ListInParts(c2);
    return None, c2, looked;
  }

  function Ids(l: seq<Event>): seq<string> {
    seq(|l|, i requires 0 <= i < |l| => l[i].id)
  }

  lemma IdsConcat(a: seq<Event>, b: seq<Event>)
    ensures Ids(a + b) == Ids(a) + Ids(b)
  {
  }

  /** The results among `arrivals` that a session accepts, `h` being the ids that it has accepted before. */
  function NewOnes(session: string, window: nat, h: seq<string>, arrivals: seq<Event>): seq<Event>
    decreases |arrivals|
  {
    if arrivals == [] then []
    else if arrivals[0].session == session && arrivals[0].id !in LastN(h, window)
    then [arrivals[0]] + NewOnes(session, window, h + [arrivals[0].id], arrivals[1..])
    else NewOnes(session, window, h, arrivals[1..])
  }

  lemma NewOne(session: string, window: nat, h: seq<string>, e: Event)
    ensures NewOnes(session, window, h, [e]) == if e.session == session && e.id !in LastN(h, window) then [e] else []
    ensures Ids([e]) == [e.id] && h + Ids([]) == h
  {
  }

  lemma {:induction false} NewOnesConcat(session: string, window: nat, h: seq<string>, a: seq<Event>, b: seq<Event>)
    ensures var before := NewOnes(session, window, h, a);
            NewOnes(session, window, h, a + b) == before + NewOnes(session, window, h + Ids(before), b)
    decreases |a|
  {
    if a == [] {
      assert a + b == b && h + Ids([]) == h;
    } else {
      var e, rest := a[0], a[1..];
      assert a == [e] + rest && a + b == [e] + (rest + b);
      NewOnesCons(session, window, h, e, rest);
      NewOnesCons(session, window, h, e, rest + b);
      if e.session == session && e.id !in LastN(h, window) {
        var more := NewOnes(session, window, h + [e.id], rest);
        NewOnesConcat(session, window, h + [e.id], rest, b);
        IdsCons(h, e, more);
        Associative([e], more, NewOnes(session, window, h + Ids([e] + more), b));
      } else {
        NewOnesConcat(session, window, h, rest, b);
      }
    }
  }

  lemma IdsCons(h: seq<string>, e: Event, more: seq<Event>)
    ensures h + [e.id] + Ids(more) == h + Ids([e] + more)
  {
    assert Ids([e] + more) == [e.id] + Ids(more);
    Associative(h, [e.id], Ids(more));
  }

  lemma NewOnesCons(session: string, window: nat, h: seq<string>, e: Event, rest: seq<Event>)
    ensures NewOnes(session, window, h, [e] + rest)
            == if e.session == session && e.id !in LastN(h, window)
               then [e] + NewOnes(session, window, h + [e.id], rest)
               else NewOnes(session, window, h, rest)
  {
    assert ([e] + rest)[1..] == rest;
  }

  /** One more arrival, of which a session accepts `got`. */
  lemma OneMore(session: string, window: nat, h: seq<string>, list: seq<Event>,
                arrivals: seq<Event>, used: nat, arrived: seq<Event>, got: seq<Event>)
    requires used < |arrivals| && arrived == NewOnes(session, window, h, arrivals[..used])
    requires got == NewOnes(session, window, h + Ids(arrived), [arrivals[used]])
    ensures arrived + got == NewOnes(session, window, h, arrivals[..used + 1])
    ensures h + Ids(arrived) + Ids(got) == h + Ids(arrived + got)
    ensures list + arrived + got == list + (arrived + got)
  {
    NewOnesConcat(session, window, h, arrivals[..used], [arrivals[used]]);
    assert arrivals[..used + 1] == arrivals[..used] + [arrivals[used]];
    IdsConcat(arrived, got);
    Associative(h, Ids(arrived), Ids(got));
  }

  function ChannelOf(m: map<string, Channel>, s: string): Channel {
    if s in m then m[s] else EMPTY_CHANNEL
  }

  /** Every session's channel is in order and remembers the right ids. */
  ghost predicate ChannelsOk(
    max: int, window: nat, m: map<string, Channel>, accepted: map<string, seq<string>>)
  {
    forall s :: ChannelOk(max, window, ChannelOf(m, s), At(accepted, s))
  }

  lemma StoreKeepsChannelsOk(
    max: int, window: nat, m: map<string, Channel>, accepted: map<string, seq<string>>,
    s: string, c: Channel, h: seq<string>)
    requires ChannelsOk(max, window, m, accepted)
    requires ChannelOk(max, window, c, h)
    ensures ChannelsOk(max, window, m[s := c], accepted[s := h])
    ensures At(accepted, s) == h ==> ChannelsOk(max, window, m[s := c], accepted)
  {
    var m2, a2 := m[s := c], accepted[s := h];
    forall t
      ensures ChannelOk(max, window, ChannelOf(m2, t), At(a2, t))
      ensures At(accepted, s) == h ==> ChannelOk(max, window, ChannelOf(m2, t), At(accepted, t))
    {
      assert t != s ==> ChannelOk(max, window, ChannelOf(m, t), At(accepted, t));
    }
  }

  ghost function TotalPending(m: map<string, Channel>): nat {
    SumLen(map s | s in m :: m[s].List())
  }

  lemma TotalAfterStore(m: map<string, Channel>, s: string, c: Channel)
    ensures TotalPending(m[s := c]) == TotalPending(m) - |ChannelOf(m, s).List()| + |c.List()|
  {
    var m2, lists := m[s := c], map t | t in m :: m[t].List();
    SumLenUpdate(lists, s, c.List());
    assert (map t | t in m2 :: m2[t].List()) == lists[s := c.List()];
  }

  /** What is taken from the queue is taken behind the deferred list. */
  lemma TakenFromQueue(c: Channel, e: Event, q: seq<Event>, o: seq<Event>)
    requires c.queue + c.overflow == [e] + (q + o)
    ensures var n, l := |c.deferred|, c.List();
            n < |l| && l[n] == e && c.(queue := q, overflow := o).List() == l[..n] + l[n + 1..]
  {
    var n, l := |c.deferred|, c.List();
    ListInParts(c);
    ListInParts(c.(queue := q, overflow := o));
    assert l == c.deferred + ([e] + (q + o));
    assert l[..n] == c.deferred && l[n + 1..] == q + o;
  }

  /** What is taken from the deferred list is taken from the one list. */
  lemma TakenFromDeferred(c: Channel, sel: Selector, d: seq<Event>)
    requires Selected(sel, c.deferred) != [] && d == Without(sel, c.deferred, 1)
    ensures Selected(sel, c.List()) != [] && Selected(sel, c.List())[0] == Selected(sel, c.deferred)[0]
    ensures c.(deferred := d).List() == Without(sel, c.List(), 1)
    ensures |Without(sel, c.List(), 1)| == |c.List()| - 1 && |d| == |c.deferred| - 1
  {
    WithoutLength(sel, c.deferred, 1);
    var tail := c.queue + c.overflow;
    ListInParts(c);
    ListInParts(c.(deferred := d));
    SelectedConcat(sel, c.deferred, tail);
    WithoutConcat(sel, c.deferred, tail, 1);
    WithoutLength(sel, c.List(), 1);
  }

  class WorkerEventBus {
    const maxEvents: int
    const window: nat
    var channels: map<string, Channel>
    var published: nat
    var consumed: nat
    var duplicates: nat
    var timeouts: nat
    var depthPeak: nat
    /** Sessions for which the subscriber has been scheduled, oldest first. */
    var notified: seq<string>
    /** Ids accepted so far, per session. */
    ghost var accepted: map<string, seq<string>>

    function Chan(s: string): Channel
      reads this
    {
      ChannelOf(channels, s)
    }

    function Pending(s: string): seq<Event>
      reads this
    {
      Chan(s).List()
    }

    ghost function PendingTotal(): nat
      reads this
    {
      TotalPending(channels)
    }

    ghost predicate Valid()
      reads this
    {
      && ChannelsOk(maxEvents, window, channels, accepted)
      && published == consumed + PendingTotal()
    }

    constructor (maxEvents: int, window: nat)
      ensures Valid()
      ensures forall s :: Pending(s) == []
      ensures this.maxEvents == maxEvents && this.window == window
      ensures published == consumed == 0 && notified == [] && accepted == map[]
    {
      this.maxEvents := maxEvents;
      this.window := window;
      channels, accepted := map[], map[];
      published, consumed, duplicates, timeouts, depthPeak := 0, 0, 0, 0, 0;
      notified := [];
    }

    /** Replaces one session's channel, whose acceptance history is `h` from now on. */
    method Store(s: string, c: Channel, ghost h: seq<string>)
      requires ChannelsOk(maxEvents, window, channels, accepted)
      requires ChannelOk(maxEvents, window, c, h)
      modifies `channels
      ensures channels == old(channels)[s := c]
      ensures ChannelsOk(maxEvents, window, channels, accepted[s := h])
      ensures At(accepted, s) == h ==> ChannelsOk(maxEvents, window, channels, accepted)
      ensures PendingTotal() == old(PendingTotal()) - |old(Pending(s))| + |c.List()|
    {
      StoreKeepsChannelsOk(maxEvents, window, channels, accepted, s, c, h);
      TotalAfterStore(channels, s, c);
      channels := channels[s := c];
    }

    /** Accepts a result unless its id is still in the window.  Waiting for room
        ends, after a timeout, in the overflow, so the whole call is one step. */
    method Publish(e: Event) returns (isNew: bool)
      requires Valid()
      modifies this
      ensures Valid()
      ensures isNew == (e.id !in LastN(old(At(accepted, e.session)), window))
      ensures isNew ==>
                && Pending(e.session) == old(Pending(e.session)) + [e]
                && accepted == old(accepted)[e.session := old(At(accepted, e.session)) + [e.id]]
                && published == old(published) + 1 && duplicates == old(duplicates)
                && notified == old(notified) + [e.session]
      ensures !isNew ==>
                && unchanged(`channels, `accepted, `published, `notified)
                && duplicates == old(duplicates) + 1
      ensures consumed == old(consumed) && Chan(e.session).deferred == old(Chan(e.session).deferred)
      ensures isNew ==> channels == old(channels)[e.session := Chan(e.session)]
    {
      ghost var h := At(accepted, e.session);
      assert ChannelOk(maxEvents, window, Chan(e.session), h);
      var timedOut, c;
      isNew, timedOut, c := Accept(maxEvents, window, Chan(e.session), e, h);
      if isNew {
        Record(e, c, timedOut);
      } else {
        duplicates := duplicates + 1;
      }
    }

    /** Stores the channel of an accepted result and schedules the subscriber. */
    method Record(e: Event, c: Channel, timedOut: bool)
      requires Valid()
      requires c.List() == Pending(e.session) + [e]
      requires ChannelOk(maxEvents, window, c, At(accepted, e.session) + [e.id])
      modifies `channels, `accepted, `published, `timeouts, `depthPeak, `notified
      ensures Valid()
      ensures channels == old(channels)[e.session := c]
      ensures accepted == old(accepted)[e.session := old(At(accepted, e.session)) + [e.id]]
      ensures published == old(published) + 1 && notified == old(notified) + [e.session]
    {
      ghost var h := At(accepted, e.session) + [e.id];
      Store(e.session, c, h);
      accepted := accepted[e.session := h];
      timeouts := timeouts + (if timedOut then 1 else 0);
      published := published + 1;
      depthPeak := Max(depthPeak, |c.queue|);
      notified := notified + [e.session];
    }

    /** Takes a queued result without looking at the deferred list. */
    method Get(session: string) returns (r: Option<Event>)
      requires Valid()
      modifies `channels, `consumed
      ensures Valid()
      ensures r.None? <==> old(Chan(session).queue) == []
      ensures r.None? ==> unchanged(this)
      ensures r.Some? ==>
                var n := |Chan(session).deferred|;
                && n < |old(Pending(session))| && r.value == old(Pending(session))[n]
                && Pending(session) == old(Pending(session))[..n] + old(Pending(session))[n + 1..]
                && consumed == old(consumed) + 1
      ensures channels == old(channels) || channels == old(channels)[session := Chan(session)]
    {
      var c := Chan(session);
      assert ChannelOk(maxEvents, window, c, At(accepted, session));
      if c.queue == [] {
        return None;
      }
      var e, q, o := TakeQueued(maxEvents, c.queue, c.overflow);
      TakenFromQueue(c, e, q, o);
      Store(session, c.(queue := q, overflow := o), At(accepted, session));
      consumed := consumed + 1;
      return Some(e);
    }

    /** Takes the oldest `limit` results of a session. */
    method Drain(session: string, limit: nat) returns (events: seq<Event>)
      requires Valid()
      modifies `channels, `consumed
      ensures Valid()
      ensures old(Pending(session)) == events + Pending(session)
      ensures |events| == Min(limit, |old(Pending(session))|)
      ensures consumed == old(consumed) + |events|
      ensures channels == old(channels) || channels == old(channels)[session := Chan(session)]
    {
      var c := Chan(session);
      assert ChannelOk(maxEvents, window, c, At(accepted, session));
      var r: Channel;
      events, r := DrainAny(maxEvents, c, limit);
      Store(session, r, At(accepted, session));
      consumed := consumed + |events|;
    }

    /** Takes at most `limit` results of one turn. */
    method DrainForTurn(session: string, sel: Selector, limit: nat) returns (events: seq<Event>)
      requires Valid()
      modifies `channels, `consumed
      ensures Valid()
      ensures var l := old(Pending(session));
              && events == Taken(sel, l, limit)
              && Pending(session) == Without(sel, l, limit)
      ensures consumed == old(consumed) + |events|
      ensures channels == old(channels) || channels == old(channels)[session := Chan(session)]
    {
      var c := Chan(session);
      assert ChannelOk(maxEvents, window, c, At(accepted, session));
      var r: Channel;
      events, r := DrainSelected(maxEvents, c, sel, limit);
      WithoutLength(sel, c.List(), limit);
      Store(session, r, At(accepted, session));
      consumed := consumed + |events|;
    }

    /** Takes the first deferred result of a turn. */
    method GetDeferred(session: string, sel: Selector) returns (r: Option<Event>)
      requires Valid()
      modifies `channels, `consumed
      ensures Valid()
      ensures r.Some? ==>
                && Selected(sel, old(Pending(session))) != []
                && r.value == Selected(sel, old(Pending(session)))[0]
                && Pending(session) == Without(sel, old(Pending(session)), 1)
      ensures r.None? <==> Selected(sel, old(Chan(session).deferred)) == []
      ensures |Chan(session).deferred| + Count(r) == |old(Chan(session)).deferred|
      ensures r.None? ==> unchanged(this)
      ensures consumed == old(consumed) + Count(r)
    {
      var c := Chan(session);
      assert ChannelOk(maxEvents, window, c, At(accepted, session));
      var d: seq<Event>;
      r, d := TakeDeferred(sel, c.deferred);
      if r.Some? {
        TakenFromDeferred(c, sel, d);
        c := c.(deferred := d);
        Store(session, c, At(accepted, session));
        consumed := consumed + 1;
      }
    }

    /** Takes the first queued result of a turn; what is passed over is deferred. */
    method GetQueued(session: string, sel: Selector, looks: nat) returns (r: Option<Event>, looked: nat)
      requires Valid()
      requires Selected(sel, Chan(session).deferred) == []
      modifies `channels, `consumed
      ensures Valid()
      ensures looked <= looks
      ensures r.Some? ==> looked > 0 && FirstPlace(sel, old(Pending(session))) == |old(Chan(session)).deferred| + looked
      ensures TakesFirst(sel, old(Pending(session)), r, Pending(session), looked == looks)
      ensures |Chan(session).deferred| + Count(r) == |old(Chan(session)).deferred| + looked
      ensures Selected(sel, Chan(session).deferred) == []
      ensures consumed == old(consumed) + Count(r)
    {
      var c := Chan(session);
      assert ChannelOk(maxEvents, window, c, At(accepted, session));
      WithoutLength(sel, c.List(), 1);
      r, c, looked := ScanQueue(maxEvents, c, sel, looks);
      Store(session, c, At(accepted, session));
      consumed := consumed + (if r.Some? then 1 else 0);
    }

    /** A publication as one session sees it. */
    method Arrive(session: string, e: Event) returns (ghost got: seq<Event>)
      requires Valid()
      modifies this
      ensures Valid()
      ensures Pending(session) == old(Pending(session)) + got
      ensures got == NewOnes(session, window, old(At(accepted, session)), [e])
      ensures At(accepted, session) == old(At(accepted, session)) + Ids(got)
      ensures Chan(session).deferred == old(Chan(session).deferred) && consumed == old(consumed)
    {
      ghost var h := At(accepted, session);
      var isNew := Publish(e);
      got := if isNew && e.session == session then [e] else [];
      NewOne(session, window, h, e);
    }

    /** A suspended wait: the next arrival is published, then the queue is looked at again.  What is pending are `list`
        and what the session has accepted of the arrivals so far. */
    method AwaitArrival(session: string, sel: Selector, arrivals: seq<Event>, used: nat, looks: nat,
                        ghost list: seq<Event>, ghost h: seq<string>, ghost arrived: seq<Event>)
      returns (r: Option<Event>, looked: nat, ghost arrived2: seq<Event>)
      requires Valid() && used < |arrivals|
      requires Selected(sel, Chan(session).deferred) == []
      requires Pending(session) == list + arrived
      requires arrived == NewOnes(session, window, h, arrivals[..used]) && At(accepted, session) == h + Ids(arrived)
      modifies this
      ensures Valid()
      ensures Selected(sel, Chan(session).deferred) == []
      ensures arrived2 == NewOnes(session, window, h, arrivals[..used + 1]) && At(accepted, session) == h + Ids(arrived2)
      ensures looked <= looks
      ensures r.Some? ==> looked > 0 && FirstPlace(sel, list + arrived2) == |old(Chan(session)).deferred| + looked
      ensures TakesFirst(sel, list + arrived2, r, Pending(session), looked == looks)
      ensures |Chan(session).deferred| + Count(r) == |old(Chan(session)).deferred| + looked
      ensures consumed == old(consumed) + Count(r)
    {
      ghost var got := Arrive(session, arrivals[used]);
      OneMore(session, window, h, list, arrivals, used, arrived, got);
      arrived2 := arrived + got;
      r, looked := GetQueued(session, sel, looks);
    }

    /** The waiting part of a call that has found nothing among the deferred results. */
    method WaitQueued(session: string, sel: Selector, arrivals: seq<Event>, looks: nat)
      returns (r: Option<Event>, used: nat, looked: nat, ghost arrived: seq<Event>)
      requires Valid()
      requires Selected(sel, Chan(session).deferred) == []
      modifies this
      ensures Valid()
      ensures used <= |arrivals| && looked <= looks
      ensures r.None? ==> used == |arrivals| || looked == looks
      ensures used > 0 ==> Selected(sel, old(Pending(session))) == []
      ensures used <= |arrivals| && arrived == NewOnes(session, window, old(At(accepted, session)), arrivals[..used])
      ensures At(accepted, session) == old(At(accepted, session)) + Ids(arrived)
      ensures TakesFirst(sel, old(Pending(session)) + arrived, r, Pending(session), looked == looks)
      ensures r.Some? ==>
                looked > 0 && FirstPlace(sel, old(Pending(session)) + arrived) == |old(Chan(session)).deferred| + looked
      ensures Selected(sel, Chan(session).deferred) == []
      ensures |Chan(session).deferred| + Count(r) == |old(Chan(session)).deferred| + looked
      ensures consumed == old(consumed) + Count(r)
    {
      ghost var list, start, h := Pending(session), |Chan(session).deferred|, At(accepted, session);
      arrived, used := [], 0;
      assert list + arrived == list;
      r, looked := GetQueued(session, sel, looks);
      while r.None? && used < |arrivals| && looked < looks
        invariant Valid() && used <= |arrivals| && looked <= looks
        invariant used > 0 ==> Selected(sel, list) == []
        invariant TakesFirst(sel, list + arrived, r, Pending(session), looked == looks)
        invariant r.Some? ==> looked > 0 && FirstPlace(sel, list + arrived) == start + looked
        invariant Selected(sel, Chan(session).deferred) == []
        invariant |Chan(session).deferred| + Count(r) == start + looked
        invariant arrived == NewOnes(session, window, h, arrivals[..used])
        invariant At(accepted, session) == h + Ids(arrived)
        invariant consumed == old(consumed) + Count(r)
        decreases |arrivals| - used
      {
        SelectedConcat(sel, list, arrived);
        var more;
        r, more, arrived := AwaitArrival(session, sel, arrivals, used, looks - looked, list, h, arrived);
        used, looked := used + 1, looked + more;
      }
    }

    /** Waits for one result of a turn.  `arrivals` are the publications that happen while the call is suspended, and
        `looks` is how many queued results it looks at before its deadline passes; it times out when either runs out.
        A deferred match is returned before any look; a match in the queue is the last of the `looked` entries.
        The first `used` arrivals were needed, and `arrived` are those accepted for this session. */
    method GetForTurn(session: string, sel: Selector, arrivals: seq<Event>, looks: nat)
      returns (r: Option<Event>, used: nat, looked: nat, ghost arrived: seq<Event>)
      requires Valid()
      modifies this
      ensures Valid()
      ensures used <= |arrivals| && looked <= looks
      ensures r.None? ==> used == |arrivals| || looked == looks
      ensures Selected(sel, old(Chan(session).deferred)) != [] ==> r.Some? && looked == 0
      ensures Selected(sel, old(Chan(session).deferred)) == [] ==>
                (r.Some? ==>
                  && looked > 0
                  && FirstPlace(sel, old(Pending(session)) + arrived) == |old(Chan(session)).deferred| + looked)
      ensures looks == 0 ==> (r.Some? <==> Selected(sel, old(Chan(session).deferred)) != [])
      ensures r.None? ==> Selected(sel, Chan(session).deferred) == []
      ensures Selected(sel, old(Pending(session))) != [] ==> used == 0
      ensures used <= |arrivals| && arrived == NewOnes(session, window, old(At(accepted, session)), arrivals[..used])
      ensures At(accepted, session) == old(At(accepted, session)) + Ids(arrived)
      ensures TakesFirst(sel, old(Pending(session)) + arrived, r, Pending(session), looked == looks)
      ensures |Chan(session).deferred| + Count(r) == |old(Chan(session)).deferred| + looked
      ensures consumed == old(consumed) + Count(r)
    {
      arrived, used, looked := [], 0, 0;
      assert Pending(session) + arrived == Pending(session);
      r := GetDeferred(session, sel);
      if r.None? {
        r, used, looked, arrived := WaitQueued(session, sel, arrivals, looks);
      }
    }

    method HasPending(session: string) returns (b: bool)
      ensures b <==> Pending(session) != []
    {
      var c := Chan(session);
      b := c.queue != [] || c.overflow != [] || c.deferred != [];
    }
  }
}
