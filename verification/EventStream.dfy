/** A subscriber's lossy queue and the stream that combines it with the durable log.

    The queue may drop, publications may be repeated or out of order, and the
    table may be pruned.  The stream fills every gap from the log, so what it
    yields is exactly the log of its turn as long as pruning leaves that turn
    alone, which it does while the turn is active.  Whatever happens between
    two suspensions of the stream is a script. */
module EventStream {
  import opened Collections
  import opened EventLog

  // ---------------------------------------------------- a subscriber's queue

  /** Capacity zero or less means unbounded. */
  predicate Full(max: int, q: seq<Event>) {
    max > 0 && |q| >= max
  }

  /** Adds an event; a full queue loses its oldest one. */
  function Offer(max: int, q: seq<Event>, e: Event): seq<Event> {
    if Full(max, q) then q[1..] + [e] else q + [e]
  }

  /** The table, one subscriber of one turn, and three auxiliary facts: every event that the turn ever had, the highest
      number published so far, and whether publications never went back and pruning never touched the turn. */
  datatype World = World(
    rows: Rows, turn: string, queue: seq<Event>, ever: set<Event>, top: nat, inOrder: bool, intact: bool)
  {
    function Log(): seq<Event> {
      At(rows, turn)
    }
  }

  /** What other tasks do: append an event, publish one that has been appended, or prune the table. */
  datatype Happening = Append(e: Event) | Publish(e: Event) | Prune(p: Policy)

  function Happen(w: World, max: int, h: Happening): World {
    match h
    case Append(e) =>
      var own := At(w.rows, e.turn);
      var numbered := e.(sequence := MaxSequence(own) + 1);
      w.(rows := w.rows[e.turn := own + [numbered]], ever := if e.turn == w.turn then w.ever + {numbered} else w.ever)
    case Publish(e) =>
      if e !in w.ever then w
      else w.(queue := Offer(max, w.queue, e), top := Max(w.top, e.sequence),
              inOrder := w.inOrder && e.sequence >= w.top)
    case Prune(p) => w.(rows := PrunedRows(w.rows, p), intact := w.intact && w.turn !in p.over)
  }

  function HappenAll(w: World, max: int, hs: seq<Happening>): World
    decreases |hs|
  {
    if hs == [] then w else HappenAll(Happen(w, max, hs[0]), max, hs[1..])
  }

  /** The world but for the queue, which the stream empties. */
  function Unqueued(w: World): World {
    w.(queue := [])
  }

  /** What a script leads to in the end, whatever the stream takes from the queue. */
  function Outcome(w: World, max: int, script: seq<seq<Happening>>): World
    decreases |script|
  {
    if script == [] then Unqueued(w) else Outcome(HappenAll(w, max, script[0]), max, script[1..])
  }

  lemma {:induction false} HappenAllUnqueued(w: World, v: World, max: int, hs: seq<Happening>)
    requires Unqueued(w) == Unqueued(v)
    ensures Unqueued(HappenAll(w, max, hs)) == Unqueued(HappenAll(v, max, hs))
    decreases |hs|
  {
    if hs != [] {
      HappenAllUnqueued(Happen(w, max, hs[0]), Happen(v, max, hs[0]), max, hs[1..]);
    }
  }

  lemma {:induction false} OutcomeUnqueued(w: World, v: World, max: int, script: seq<seq<Happening>>)
    requires Unqueued(w) == Unqueued(v)
    ensures Outcome(w, max, script) == Outcome(v, max, script)
    decreases |script|
  {
    if script != [] {
      HappenAllUnqueued(w, v, max, script[0]);
      OutcomeUnqueued(HappenAll(w, max, script[0]), HappenAll(v, max, script[0]), max, script[1..]);
    }
  }

  /** No pruning counts the turn as over. */
  predicate StaysActive(turn: string, hs: seq<Happening>) {
    forall i :: 0 <= i < |hs| ==> hs[i].Prune? ==> turn !in hs[i].p.over
  }

  predicate Logged(log: seq<Event>, e: Event) {
    1 <= e.sequence <= |log| && log[e.sequence - 1] == e
  }

  /** Only events of the turn are published or in its log; an intact log has no gaps and holds all of them. */
  ghost predicate WorldOk(w: World) {
    && TableOk(w.rows)
    && (forall e :: e in w.ever ==> e.turn == w.turn)
    && (forall e :: e in w.Log() ==> e in w.ever)
    && (forall e :: e in w.queue ==> e in w.ever)
    && (w.intact ==> Gapless(w))
  }

  ghost predicate Gapless(w: World) {
    && DenseFrom(w.Log(), 0)
    && (forall e :: e in w.ever ==> Logged(w.Log(), e))
    && w.top <= |w.Log()|
  }

  /** The last published event is not lost: it has been yielded, is in hand, or is the newest in the queue.
      `base` is what had been published before the subscription. */
  predicate Covered(w: World, base: nat, last: nat) {
    w.inOrder ==>
      w.top <= base || w.top <= last || (w.queue != [] && w.queue[|w.queue| - 1].sequence == w.top)
  }

  /** One world is later than another: same turn, and a log that only grows while it is intact. */
  predicate Later(r: World, w: World) {
    && r.turn == w.turn && w.ever <= r.ever && (r.intact ==> w.intact && w.Log() <= r.Log())
  }

  lemma AppendKeeps(w: World, max: int, e: Event)
    requires WorldOk(w)
    ensures WorldOk(Happen(w, max, Append(e))) && Later(Happen(w, max, Append(e)), w)
  {
    var numbered := e.(sequence := MaxSequence(At(w.rows, e.turn)) + 1);
    AppendKeepsOrder(w.rows, numbered);
    var r := Happen(w, max, Append(e));
    if e.turn == w.turn {
      assert r.Log() == w.Log() + [numbered];
    } else {
      assert r.Log() == w.Log();
    }
  }

  lemma PruneKeeps(w: World, max: int, p: Policy)
    requires WorldOk(w)
    ensures WorldOk(Happen(w, max, Prune(p))) && Later(Happen(w, max, Prune(p)), w)
  {
    var r := Happen(w, max, Prune(p));
    PruningKeepsTable(w.rows, p);
    if w.turn !in p.over {
      PruningSparesActiveTurns(w.rows, p, w.turn);
    }
    PruningKeepsMembers(w.rows, p, w.turn);
  }

  lemma HappenKeeps(w: World, max: int, h: Happening, base: nat, last: nat)
    requires WorldOk(w) && Covered(w, base, last)
    ensures WorldOk(Happen(w, max, h)) && Covered(Happen(w, max, h), base, last)
    ensures Later(Happen(w, max, h), w)
    ensures StaysActive(w.turn, [h]) ==> Happen(w, max, h).intact == w.intact
  {
    match h
    case Append(e) => AppendKeeps(w, max, e);
    case Publish(e) =>
      if e in w.ever {
        var q := Happen(w, max, h).queue;
        assert q[|q| - 1] == e;
        assert Happen(w, max, h).Log() == w.Log();
      }
    case Prune(p) =>
      PruneKeeps(w, max, p);
      assert [h][0] == h;
  }

  lemma {:induction false} HappenAllKeeps(w: World, max: int, hs: seq<Happening>, base: nat, last: nat)
    requires WorldOk(w) && Covered(w, base, last)
    ensures WorldOk(HappenAll(w, max, hs)) && Covered(HappenAll(w, max, hs), base, last)
    ensures Later(HappenAll(w, max, hs), w)
    ensures StaysActive(w.turn, hs) ==> HappenAll(w, max, hs).intact == w.intact
    decreases |hs|
  {
    if hs != [] {
      HappenKeeps(w, max, hs[0], base, last);
      HappenAllKeeps(Happen(w, max, hs[0]), max, hs[1..], base, last);
    }
  }

  /** A single publication can uncover the newest event exactly in one way: a full queue whose oldest entry is
      its only copy drops it in favour of an older event. */
  lemma PublishUncoversIff(w: World, max: int, e: Event)
    requires e in w.ever
    requires exists i :: 0 <= i < |w.queue| && w.queue[i].sequence == w.top
    ensures var r := Happen(w, max, Publish(e));
            (forall i :: 0 <= i < |r.queue| ==> r.queue[i].sequence != r.top)
            <==> Full(max, w.queue) && e.sequence < w.top
                 && (forall i :: 1 <= i < |w.queue| ==> w.queue[i].sequence != w.top)
  {
    var r := Happen(w, max, Publish(e));
    var q, full := r.queue, Full(max, w.queue);
    assert q[|q| - 1] == e;
    forall i | 0 <= i < |q| - 1
      ensures q[i] == w.queue[if full then i + 1 else i]
    {
    }
    if full {
      forall i | 1 <= i < |w.queue|
        ensures q[i - 1] == w.queue[i]
      {
      }
    } else {
      var i :| 0 <= i < |w.queue| && w.queue[i].sequence == w.top;
      assert q[i] == w.queue[i];
    }
  }

  // ------------------------------------------------------------ the stream

  /** What has been yielded is the log from `after` on, in order, each event once. */
  predicate Exact(log: seq<Event>, after: nat, yielded: seq<Event>) {
    && (yielded != [] ==> after + |yielded| <= |log|)
    && forall i :: 0 <= i < |yielded| ==> yielded[i] == log[after + i]
  }

  /** Numbers rise above `after`, so nothing is yielded twice. */
  predicate Ascending(after: nat, yielded: seq<Event>) {
    && Increasing(yielded)
    && forall i :: 0 <= i < |yielded| ==> yielded[i].sequence > after
  }

  function LastNumber(after: nat, yielded: seq<Event>): nat {
    if yielded == [] then after else yielded[|yielded| - 1].sequence
  }

  /** What the stream keeps, pruned or not; and exactly, while its turn's log is intact. */
  ghost predicate Yields(w: World, after: nat, last: nat, yielded: seq<Event>) {
    && WorldOk(w) && last == LastNumber(after, yielded) && Ascending(after, yielded)
    && (forall e :: e in yielded ==> e in w.ever)
    && (w.intact ==> last == after + |yielded| && Exact(w.Log(), after, yielded))
  }

  ghost predicate Good(w: World, base: nat, after: nat, last: nat, yielded: seq<Event>) {
    Yields(w, after, last, yielded) && Covered(w, base, last)
  }

  /** As `Good`, with the live event `e` taken from the queue but not yielded yet. */
  ghost predicate GoodInHand(w: World, base: nat, after: nat, last: nat, yielded: seq<Event>, e: Event) {
    Yields(w, after, last, yielded) && e in w.ever && Covered(w, base, Max(last, e.sequence))
  }

  lemma YieldsLater(w: World, r: World, after: nat, last: nat, yielded: seq<Event>)
    requires Yields(w, after, last, yielded) && WorldOk(r) && Later(r, w)
    ensures Yields(r, after, last, yielded)
  {
  }

  /** Every part of the script leaves the turn active. */
  predicate AllActive(turn: string, script: seq<seq<Happening>>) {
    forall i :: 0 <= i < |script| ==> StaysActive(turn, script[i])
  }

  /** One suspension of the stream: the next part of the script happens. */
  method Suspend(w: World, max: int, script: seq<seq<Happening>>,
                 ghost base: nat, ghost mark: nat, ghost after: nat, ghost last: nat, ghost yielded: seq<Event>)
    returns (r: World, rest: seq<seq<Happening>>)
    requires Yields(w, after, last, yielded) && Covered(w, base, mark)
    ensures Yields(r, after, last, yielded) && Covered(r, base, mark) && Later(r, w)
    ensures script == [] ==> r == w && rest == []
    ensures script != [] ==> r == HappenAll(w, max, script[0]) && rest == script[1..]
    ensures Outcome(r, max, rest) == Outcome(w, max, script)
    ensures AllActive(w.turn, script) ==> r.intact == w.intact && AllActive(w.turn, rest)
  {
    r, rest := w, script;
    if script != [] {
      HappenAllKeeps(w, max, script[0], base, mark);
      r, rest := HappenAll(w, max, script[0]), script[1..];
      YieldsLater(w, r, after, last, yielded);
    }
  }

  lemma YieldAscending(after: nat, yielded: seq<Event>, page: seq<Event>)
    requires Ascending(after, yielded) && Ascending(LastNumber(after, yielded), page)
    ensures Ascending(after, yielded + page)
    ensures LastNumber(after, yielded + page) == LastNumber(LastNumber(after, yielded), page)
  {
    var all := yielded + page;
    forall i, j | 0 <= i < j < |all|
      ensures all[i].sequence < all[j].sequence
    {
      if i < |yielded| <= j && i < |yielded| - 1 {
        assert yielded[i].sequence < yielded[|yielded| - 1].sequence;
      }
    }
  }

  /** Yields one page read from the log. */
  lemma YieldPage(w: World, base: nat, mark: nat, after: nat, last: nat, yielded: seq<Event>, limit: int)
    requires Yields(w, after, last, yielded) && Covered(w, base, mark)
    ensures var page := EventsAfter(w.Log(), last, limit);
            && Yields(w, after, LastNumber(last, page), yielded + page)
            && Covered(w, base, Max(mark, LastNumber(last, page)))
            && (page != [] ==> last < LastNumber(last, page) <= MaxSequence(w.Log()))
            && (w.intact ==> |page| == Min(Max(0, |w.Log()| - last), Min(Max(1, limit), PAGE)))
  {
    var page := EventsAfter(w.Log(), last, limit);
    LogIncreasing(w);
    PageIsSegment(w.Log(), last, limit);
    YieldAscending(after, yielded, page);
    PageEnds(w.Log(), last, page);
    forall e | e in yielded + page
      ensures e in w.ever
    {
      assert e in yielded || e in page;
    }
    if w.intact {
      YieldExact(w.Log(), after, last, yielded, limit);
    }
  }

  lemma LogIncreasing(w: World)
    requires WorldOk(w)
    ensures Increasing(w.Log())
  {
  }

  lemma PageEnds(log: seq<Event>, last: nat, page: seq<Event>)
    requires Increasing(log) && Ascending(last, page) && forall e :: e in page ==> e in log
    ensures page != [] ==> last < LastNumber(last, page) <= MaxSequence(log)
  {
    MaxSequenceIsMax(log);
    if page != [] {
      var e := page[|page| - 1];
      assert e in page;
      var i :| 0 <= i < |log| && log[i] == e;
    }
  }

  lemma YieldExact(log: seq<Event>, after: nat, last: nat, yielded: seq<Event>, limit: int)
    requires DenseFrom(log, 0) && last == after + |yielded| && Exact(log, after, yielded)
    ensures var page := EventsAfter(log, last, limit);
            && Exact(log, after, yielded + page) && LastNumber(last, page) == after + |yielded + page|
            && |page| == Min(Max(0, |log| - last), Min(Max(1, limit), PAGE))
  {
    PageIsSlice(log, last, limit);
    var page := EventsAfter(log, last, limit);
    if last < |log| {
      assert page == log[last..last + |page|];
    }
  }

  /** A page of any log holds rows behind the given number, in order. */
  lemma PageIsSegment(rows: seq<Event>, after: nat, limit: int)
    requires Increasing(rows)
    ensures Ascending(after, EventsAfter(rows, after, limit))
    ensures forall e :: e in EventsAfter(rows, after, limit) ==> e in rows
  {
    BehindIsSuffix(rows, after);
  }

  lemma {:induction false} BehindIsSuffix(rows: seq<Event>, after: nat)
    requires Increasing(rows)
    ensures Ascending(after, Behind(rows, after))
    ensures forall e :: e in Behind(rows, after) ==> e in rows
  {
    if rows != [] {
      var rest := Behind(rows[1..], after);
      BehindIsSuffix(rows[1..], after);
      assert rows == [rows[0]] + rows[1..];
      forall i | 0 <= i < |rest|
        ensures rows[0].sequence < rest[i].sequence
      {
        assert rest[i] in rest;
        assert rest[i] in rows[1..];
      }
    }
  }

  /** Reads and yields one page. */
  method ReadPage(w0: World, max: int, script0: seq<seq<Happening>>, last0: nat, yielded0: seq<Event>, limit: int,
                  ghost base: nat, ghost mark: nat, ghost after: nat, ghost start: World)
    returns (w: World, script: seq<seq<Happening>>, last: nat, yielded: seq<Event>, page: seq<Event>)
    requires Yields(w0, after, last0, yielded0) && Covered(w0, base, mark) && Later(w0, start)
    ensures Yields(w, after, last, yielded) && Covered(w, base, Max(mark, last))
    ensures Later(w, start) && (w.intact ==> w0.intact)
    ensures yielded == yielded0 + page && last == LastNumber(last0, page)
    ensures page != [] ==> last0 < last <= MaxSequence(w.Log())
    ensures w.intact ==> |page| == Min(Max(0, |w.Log()| - last0), Min(Max(1, limit), PAGE))
    ensures |page| <= Min(Max(1, limit), PAGE)
    ensures script == (if script0 == [] then [] else script0[1..]) && (script0 == [] ==> w == w0)
    ensures Outcome(w, max, script) == Outcome(w0, max, script0)
    ensures AllActive(w0.turn, script0) ==> w.intact == w0.intact && AllActive(w0.turn, script)
  {
    w, script := Suspend(w0, max, script0, base, mark, after, last0, yielded0);
    page := EventsAfter(w.Log(), last0, limit);
    YieldPage(w, base, mark, after, last0, yielded0, limit);
    LaterTwice(start, w0, w);
    yielded := yielded0 + page;
    last := if page != [] then page[|page| - 1].sequence else last0;
  }

  ghost predicate EndsWith(l: seq<Event>, page: seq<Event>) {
    |page| <= |l| && l[|l| - |page|..] == page
  }

  lemma SuffixOf(a: seq<Event>, b: seq<Event>)
    ensures EndsWith(a + b, b)
  {
  }

  /** So many full pages and `k` more. */
  predicate PagesAnd(n: nat, k: nat) {
    n >= k && (n - k) % 2000 == 0
  }

  lemma OnePageMore(n: nat, k: nat)
    requires PagesAnd(n, 0)
    ensures PagesAnd(n + k, k) && (k == 2000 ==> PagesAnd(n + k, 0))
  {
  }

  /** Reads and yields one page of the replay. */
  method ReplayPage(w0: World, max: int, script0: seq<seq<Happening>>, last0: nat, yielded0: seq<Event>,
                    ghost base: nat, ghost after: nat, ghost start: World)
    returns (w: World, script: seq<seq<Happening>>, last: nat, yielded: seq<Event>, page: seq<Event>)
    requires Good(w0, base, after, last0, yielded0) && Later(w0, start) && PagesAnd(|yielded0|, 0)
    ensures Good(w, base, after, last, yielded) && Later(w, start)
    ensures PagesAnd(|yielded|, |page|) && EndsWith(yielded, page) && |page| <= PAGE
    ensures |page| == PAGE ==> PagesAnd(|yielded|, 0)
    ensures |page| < PAGE && w.intact ==> last == Max(last0, |w.Log()|)
    ensures || |script| < |script0|
            || (script == script0 && w == w0 && (page != [] ==> last0 < last <= MaxSequence(w.Log())))
    ensures last0 <= last
    ensures Outcome(w, max, script) == Outcome(w0, max, script0)
    ensures AllActive(w0.turn, script0) ==> w.intact == w0.intact && AllActive(w0.turn, script)
  {
    w, script, last, yielded, page := ReadPage(w0, max, script0, last0, yielded0, PAGE, base, last0, after, start);
    OnePageMore(|yielded0|, |page|);
    SuffixOf(yielded0, page);
  }

  /** Reads the log until a page is not full. */
  method ReplayHistory(w0: World, max: int, after: nat, script0: seq<seq<Happening>>)
    returns (w: World, script: seq<seq<Happening>>, last: nat, yielded: seq<Event>, page: seq<Event>)
    requires WorldOk(w0) && Covered(w0, w0.top, after)
    ensures Good(w, w0.top, after, last, yielded) && Later(w, w0)
    ensures w.intact ==> last == Max(after, |w.Log()|)
    ensures |page| < PAGE && EndsWith(yielded, page) && PagesAnd(|yielded|, |page|)
    ensures Outcome(w, max, script) == Outcome(w0, max, script0)
    ensures AllActive(w0.turn, script0) ==> w.intact == w0.intact && AllActive(w0.turn, script)
  {
    w, script, last, yielded, page := w0, script0, after, [], [];
    while true
      invariant Good(w, w0.top, after, last, yielded) && Later(w, w0)
      invariant PagesAnd(|yielded|, 0) && Outcome(w, max, script) == Outcome(w0, max, script0)
      invariant AllActive(w0.turn, script0) ==> w.intact == w0.intact && AllActive(w0.turn, script)
      decreases |script|, Max(0, MaxSequence(w.Log()) - last)
    {
      w, script, last, yielded, page := ReplayPage(w, max, script, last, yielded, w0.top, after, w0);
      if |page| < PAGE {
        return;
      }
    }
  }

  /** Fills the gap in front of a live event from the log. */
  method FillGap(w0: World, max: int, e: Event, script0: seq<seq<Happening>>, last0: nat, yielded0: seq<Event>,
                 ghost base: nat, ghost after: nat)
    returns (w: World, script: seq<seq<Happening>>, last: nat, yielded: seq<Event>)
    requires GoodInHand(w0, base, after, last0, yielded0, e) && last0 < e.sequence
    ensures GoodInHand(w, base, after, last, yielded, e) && Later(w, w0)
    ensures w.intact ==> last == e.sequence - 1
    ensures yielded0 <= yielded
    ensures |script| <= |script0| && (|script| == |script0| ==> w.queue == w0.queue)
    ensures Outcome(w, max, script) == Outcome(w0, max, script0)
    ensures AllActive(w0.turn, script0) ==> w.intact == w0.intact && AllActive(w0.turn, script)
  {
    w, script, last, yielded := w0, script0, last0, yielded0;
    while last + 1 < e.sequence
      invariant GoodInHand(w, base, after, last, yielded, e) && Later(w, w0)
      invariant (w.intact ==> last < e.sequence) && yielded0 <= yielded
      invariant |script| <= |script0| && (|script| == |script0| ==> w.queue == w0.queue)
      invariant Outcome(w, max, script) == Outcome(w0, max, script0)
      invariant AllActive(w0.turn, script0) ==> w.intact == w0.intact && AllActive(w0.turn, script)
      decreases e.sequence - last
    {
      var limit := Min(PAGE, e.sequence - last - 1);
      var missing;
      w, script, last, yielded, missing :=
        ReadPage(w, max, script, last, yielded, limit, base, Max(last, e.sequence), after, w0);
      // Only pruning can have taken what is missing.
      if missing == [] {
        assert !w.intact;
        break;
      }
    }
  }

  predicate LastEnds(l: seq<Event>) {
    l != [] && Ends(l[|l| - 1])
  }

  /** Handles one event taken from the queue: skips it, or yields it behind whatever was missing. */
  method TakeEvent(w0: World, max: int, e: Event, script0: seq<seq<Happening>>, last0: nat, yielded0: seq<Event>,
                   ghost base: nat, ghost after: nat)
    returns (w: World, script: seq<seq<Happening>>, last: nat, yielded: seq<Event>, ended: bool)
    requires GoodInHand(w0, base, after, last0, yielded0, e)
    ensures Good(w, base, after, last, yielded) && Later(w, w0)
    ensures yielded0 <= yielded && last0 <= last
    ensures ended ==> LastEnds(yielded)
    ensures w.intact && !ended ==> yielded == yielded0 || !LastEnds(yielded)
    ensures |script| <= |script0| && (|script| == |script0| ==> w.queue == w0.queue)
    ensures Outcome(w, max, script) == Outcome(w0, max, script0)
    ensures AllActive(w0.turn, script0) ==> w.intact == w0.intact && AllActive(w0.turn, script)
  {
    w, script, last, yielded, ended := w0, script0, last0, yielded0, false;
    if e.sequence <= last {
      return;
    }
    if e.sequence > last + 1 {
      w, script, last, yielded := FillGap(w, max, e, script, last, yielded, base, after);
      PrefixRises(after, yielded0, yielded);
      if e.sequence <= last {
        return;
      }
    }
    YieldOne(w, base, after, last, yielded, e);
    last := e.sequence;
    yielded := yielded + [e];
    ended := Ends(e);
  }

  lemma PrefixRises(after: nat, a: seq<Event>, b: seq<Event>)
    requires a <= b && Ascending(after, b)
    ensures LastNumber(after, a) <= LastNumber(after, b)
  {
    if a != [] && |a| < |b| {
      assert b[|a| - 1] == a[|a| - 1];
    }
  }

  /** Follows the live queue until a terminal event, or until nothing more happens. */
  method FollowLive(w0: World, max: int, script0: seq<seq<Happening>>, last0: nat, yielded0: seq<Event>,
                    ghost base: nat, ghost after: nat)
    returns (w: World, ghost last: nat, yielded: seq<Event>, finished: bool)
    requires Good(w0, base, after, last0, yielded0) && (w0.intact ==> base <= last0)
    ensures Yields(w, after, last, yielded) && Later(w, w0)
    ensures yielded0 <= yielded
    ensures finished ==> LastEnds(yielded)
    ensures !finished ==> Unqueued(w) == Outcome(w0, max, script0)
    ensures !finished && w.intact ==> yielded == yielded0 || !LastEnds(yielded)
    ensures !finished ==> w.queue == [] && (w.inOrder && w.intact ==> w.top <= after + |yielded|)
    ensures AllActive(w0.turn, script0) ==> w.intact == w0.intact
  {
    var script, now := script0, last0;
    w, yielded, finished, last := w0, yielded0, false, last0;
    while true
      invariant Good(w, base, after, now, yielded) && Later(w, w0) && (w.intact ==> base <= now) && last == now
      invariant yielded0 <= yielded && Outcome(w, max, script) == Outcome(w0, max, script0)
      invariant w.intact ==> yielded == yielded0 || !LastEnds(yielded)
      invariant AllActive(w0.turn, script0) ==> w.intact == w0.intact && AllActive(w0.turn, script)
      decreases |script|, |w.queue|
    {
      ghost var earlier := w;
      w, script := Suspend(w, max, script, base, now, after, now, yielded);
      LaterTwice(w0, earlier, w);
      if w.queue == [] {
        if script == [] {
          return;
        }
        continue;
      }
      var e := w.queue[0];
      TookFromQueue(w, base, after, now, yielded);
      OutcomeUnqueued(w, w.(queue := w.queue[1..]), max, script);
      w := w.(queue := w.queue[1..]);
      earlier := w;
      w, script, now, yielded, finished := TakeEvent(w, max, e, script, now, yielded, base, after);
      LaterTwice(w0, earlier, w);
      last := now;
      if finished {
        return;
      }
    }
  }

  lemma LaterTwice(a: World, b: World, c: World)
    requires Later(b, a) && Later(c, b)
    ensures Later(c, a)
  {
  }

  lemma TookFromQueue(w: World, base: nat, after: nat, last: nat, yielded: seq<Event>)
    requires Good(w, base, after, last, yielded) && w.queue != []
    ensures GoodInHand(w.(queue := w.queue[1..]), base, after, last, yielded, w.queue[0])
  {
    var r := w.(queue := w.queue[1..]);
    assert r.Log() == w.Log();
    assert r.queue != [] ==> r.queue[|r.queue| - 1] == w.queue[|w.queue| - 1];
    assert forall i :: 0 <= i < |r.queue| ==> r.queue[i] == w.queue[i + 1];
  }

  lemma YieldOne(w: World, base: nat, after: nat, last: nat, yielded: seq<Event>, e: Event)
    requires GoodInHand(w, base, after, last, yielded, e) && e.sequence > last
    requires w.intact ==> e.sequence == last + 1
    ensures Good(w, base, after, e.sequence, yielded + [e])
  {
    YieldAscending(after, yielded, [e]);
  }

  ghost predicate HasEnd(l: seq<Event>) {
    exists e :: e in l && Ends(e)
  }

  lemma SuffixHasEnd(l: seq<Event>, page: seq<Event>)
    requires EndsWith(l, page) && HasEnd(page)
    ensures HasEnd(l)
  {
    var e :| e in page && Ends(e);
    assert e in l;
  }

  /** What is left behind the full pages. */
  function Unpaged(l: seq<Event>): seq<Event> {
    l[|l| - |l| % 2000..]
  }

  lemma LastPageIsUnpaged(l: seq<Event>, page: seq<Event>)
    requires EndsWith(l, page) && PagesAnd(|l|, |page|) && |page| < 2000
    ensures Unpaged(l) == page
  {
  }

  lemma StopsAtPage(replayed: seq<Event>, page: seq<Event>, yielded: seq<Event>)
    requires EndsWith(replayed, page) && !HasEnd(page) && PagesAnd(|replayed|, |page|)
    requires yielded == replayed || !LastEnds(yielded)
    ensures LastEnds(yielded) ==> |yielded| % 2000 == 0
  {
    if page != [] {
      assert replayed[|replayed| - 1] == page[|page| - 1];
    }
  }

  /** The last page of a turn that is over. */
  method LastPage(w0: World, max: int, script: seq<seq<Happening>>, at: nat, yielded0: seq<Event>,
                  ghost base: nat, ghost after: nat)
    returns (w: World, ghost last: nat, yielded: seq<Event>)
    requires Good(w0, base, after, at, yielded0)
    ensures Yields(w, after, last, yielded) && Later(w, w0) && |yielded0| <= |yielded|
    ensures AllActive(w0.turn, script) ==> w.intact == w0.intact
    ensures w.intact ==> |yielded| == |yielded0| + Min(Max(0, |w.Log()| - at), 2000)
  {
    var rest;
    w, rest := Suspend(w0, max, script, base, at, after, at, yielded0);
    var page := EventsAfter(w.Log(), at, PAGE);
    YieldPage(w, base, at, after, at, yielded0, PAGE);
    last, yielded := LastNumber(at, page), yielded0 + page;
  }

  /** The stream behind its replay: one more page of a turn that is over, or the live queue. */
  method AfterReplay(w0: World, max: int, script0: seq<seq<Happening>>, at: nat, yielded0: seq<Event>, over: bool,
                     ghost base: nat, ghost after: nat, ghost page: seq<Event>)
    returns (w: World, ghost last: nat, yielded: seq<Event>, finished: bool)
    requires Good(w0, base, after, at, yielded0) && (w0.intact ==> base <= at && |w0.Log()| <= at)
    requires EndsWith(yielded0, page) && !HasEnd(page) && PagesAnd(|yielded0|, |page|)
    ensures Yields(w, after, last, yielded) && Later(w, w0) && |yielded0| <= |yielded|
    ensures AllActive(w0.turn, script0) ==> w.intact == w0.intact
    ensures !finished ==> !over && w.queue == [] && (w.inOrder && w.intact ==> w.top <= after + |yielded|)
    ensures finished && !over ==> HasEnd(yielded) && LastEnds(yielded)
    ensures !finished ==> Unqueued(w) == Outcome(w0, max, script0)
    ensures !finished && w.intact && LastEnds(yielded) ==> |yielded| % 2000 == 0
    ensures over && w.intact ==> after + |yielded| >= Min(|w.Log()|, at + 2000)
  {
    var script;
    w, script := Suspend(w0, max, script0, base, at, after, at, yielded0);
    ghost var earlier := w;
    if over {
      w, last, yielded := LastPage(w, max, script, at, yielded0, base, after);
      finished := true;
    } else {
      w, last, yielded, finished := FollowLive(w, max, script, at, yielded0, base, after);
      if !finished && w.intact {
        StopsAtPage(yielded0, page, yielded);
      }
    }
    LaterTwice(w0, earlier, w);
  }

  /** The stream behind `after`, from a subscription on. */
  method StreamFrom(w0: World, max: int, after: nat, over: bool, script0: seq<seq<Happening>>)
    returns (w: World, ghost last: nat, yielded: seq<Event>, finished: bool)
    requires WorldOk(w0) && Covered(w0, w0.top, after) && (w0.intact ==> w0.top <= |w0.Log()|)
    ensures Yields(w, after, last, yielded) && Later(w, w0)
    ensures AllActive(w0.turn, script0) ==> w.intact == w0.intact
    ensures !finished ==> !over && w.queue == [] && (w.inOrder && w.intact ==> w.top <= after + |yielded|)
    ensures finished && !over ==> HasEnd(yielded) && (LastEnds(yielded) || HasEnd(Unpaged(yielded)))
    ensures !finished ==> Unqueued(w) == Outcome(w0, max, script0)
    ensures !finished && w.intact && LastEnds(yielded) ==> |yielded| % 2000 == 0
    ensures w.intact ==> after + |yielded| >= |w0.Log()|
    ensures over && w.intact ==> HasEnd(yielded) || after + |yielded| >= Min(|w.Log()|, |w0.Log()| + 2000)
  {
    var script, at, page;
    w, script, at, yielded, page := ReplayHistory(w0, max, after, script0);
    last, finished := at, true;
    if exists e :: e in page && Ends(e) {
      SuffixHasEnd(yielded, page);
      LastPageIsUnpaged(yielded, page);
    } else {
      ghost var earlier := w;
      w, last, yielded, finished := AfterReplay(w, max, script, at, yielded, over, w0.top, after, page);
      LaterTwice(w0, earlier, w);
    }
  }

  /** A new subscription. */
  function StartOf(rows: Rows, turn: string, top: nat): World {
    var log := At(rows, turn);
    World(rows, turn, [], (set e | e in log), top, true, top <= |log| && DenseFrom(log, 0))
  }

  /** Streams a turn's events behind `afterSequence`.  `top` is the highest number published before, and `over` what the
      turn's status says after the replay.  The log counts as intact if it has no gaps at the start. */
  method StreamEvents(
    rows: Rows, turn: string, top: nat, max: int, afterSequence: int, over: bool, script: seq<seq<Happening>>)
    returns (w: World, yielded: seq<Event>, finished: bool)
    requires TableOk(rows)
    ensures DenseFrom(At(rows, turn), 0) && top <= |At(rows, turn)| && AllActive(turn, script) ==> w.intact
    ensures w.intact ==> At(rows, turn) <= At(w.rows, turn) && Exact(At(w.rows, turn), Max(0, afterSequence), yielded)
    ensures Ascending(Max(0, afterSequence), yielded) && forall e :: e in yielded ==> e in w.ever && e.turn == turn
    ensures !finished ==>
              !over && w.queue == [] && (w.inOrder && w.intact ==> w.top <= Max(0, afterSequence) + |yielded|)
    ensures w.intact ==> Max(0, afterSequence) + |yielded| >= |At(rows, turn)|
    ensures over && w.intact ==>
              || HasEnd(yielded)
              || Max(0, afterSequence) + |yielded| >= Min(|At(w.rows, turn)|, |At(rows, turn)| + 2000)
    ensures finished && !over ==> HasEnd(yielded) && (LastEnds(yielded) || HasEnd(Unpaged(yielded)))
    ensures !finished ==> Unqueued(w) == Outcome(StartOf(rows, turn, top), max, script)
    ensures !finished && w.intact && LastEnds(yielded) ==> |yielded| % 2000 == 0
  {
    var log := At(rows, turn);
    var start := StartOf(rows, turn, top);
    ghost var dense := start.intact;
    StartOk(start, log, dense);
    ghost var last;
    w, last, yielded, finished := StreamFrom(start, max, Max(0, afterSequence), over, script);
  }

  lemma StartOk(w: World, log: seq<Event>, dense: bool)
    requires TableOk(w.rows) && log == w.Log() && w.queue == [] && w.ever == (set e | e in log) && w.intact == dense
    requires dense ==> DenseFrom(log, 0) && w.top <= |log|
    ensures WorldOk(w)
  {
    forall e | e in log
      ensures e.turn == w.turn
    {
      var i :| 0 <= i < |log| && log[i] == e;
    }
    if dense {
      forall e | e in w.ever
        ensures Logged(log, e)
      {
        var i :| 0 <= i < |log| && log[i] == e;
      }
    }
  }

  /** Without the order of publication a subscriber that has emptied its queue may still miss the newest event.  From
      an empty table, two events are appended and published the other way round to a queue for one event. */
  lemma OutOfOrderIsMissed(turn: string, a: Event, b: Event)
    requires a.turn == turn && b.turn == turn && a.sequence == 1 && b.sequence == 2
    ensures WorldOk(World(map[], turn, [], {}, 0, true, true))
    ensures var w := HappenAll(World(map[], turn, [], {}, 0, true, true), 1,
                               [Append(a), Append(b), Publish(b), Publish(a)]);
            && WorldOk(w) && w.intact && w.Log() == [a, b]
            && w.queue == [a] && w.top == 2 && !w.inOrder
  {
    var start := World(map[], turn, [], {}, 0, true, true);
    var w1 := Happen(start, 1, Append(a));
    assert w1.Log() == [a] && w1.ever == {a};
    var w2 := Happen(w1, 1, Append(b));
    assert w2.Log() == [a, b] && w2.ever == {a, b};
    var w3 := Happen(w2, 1, Publish(b));
    assert w3.queue == [b] && w3.top == 2;
    var all := [Append(a), Append(b), Publish(b), Publish(a)];
    assert all[1..] == [Append(b), Publish(b), Publish(a)] && all[1..][1..] == [Publish(b), Publish(a)];
    assert all[1..][1..][1..] == [Publish(a)];
    assert HappenAll(w3, 1, [Publish(a)]) == Happen(w3, 1, Publish(a));
    assert HappenAll(w2, 1, all[1..][1..]) == HappenAll(w3, 1, [Publish(a)]);
    assert HappenAll(w1, 1, all[1..]) == HappenAll(w2, 1, all[1..][1..]);
    HappenAllKeeps(start, 1, all, 0, 0);
  }
}
