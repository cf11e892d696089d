/** The durable event log: pages of one turn, numbering and pruning. */
module EventLog {
  import opened Collections

  datatype Kind = TurnCompleted | TurnFailed | TurnCancelled | MessageCompleted | Other(name: string)

  /** Ids are hexadecimal numbers of fixed length and compare as numbers. */
  datatype Event = Event(id: nat, turn: string, session: string, sequence: nat, kind: Kind, at: int)

  const PAGE: nat := 2000

  predicate Ends(e: Event) {
    e.kind == TurnCompleted || e.kind == TurnFailed || e.kind == TurnCancelled
  }

  // -------------------------------------------------------------- the log

  /** The rows of one turn behind a sequence number, in order. */
  function Behind(rows: seq<Event>, after: nat): seq<Event> {
    if rows == [] then []
    else (if rows[0].sequence > after then [rows[0]] else []) + Behind(rows[1..], after)
  }

  function FirstN<T>(s: seq<T>, n: nat): seq<T> {
    if |s| <= n then s else s[..n]
  }

  function EventsAfter(rows: seq<Event>, after: int, limit: int): seq<Event> {
    FirstN(Behind(rows, Max(0, after)), Min(Max(1, limit), PAGE))
  }

  /** Sequence numbers count on from `k` without gaps. */
  predicate DenseFrom(rows: seq<Event>, k: nat) {
    forall i :: 0 <= i < |rows| ==> rows[i].sequence == k + i + 1
  }

  /** On a log without gaps a page is a slice. */
  lemma {:induction false} BehindDense(rows: seq<Event>, k: nat, after: nat)
    requires DenseFrom(rows, k)
    ensures Behind(rows, after) == rows[Min(|rows|, Max(0, after - k))..]
  {
    if rows != [] {
      BehindDense(rows[1..], k + 1, after);
    }
  }

  lemma PageIsSlice(log: seq<Event>, after: nat, limit: int)
    requires DenseFrom(log, 0)
    ensures var from, n := Min(|log|, after), Min(Max(1, limit), PAGE);
            EventsAfter(log, after, limit) == log[from..Min(|log|, from + n)]
  {
    BehindDense(log, 0, after);
  }

  // ------------------------------------------------------------ the table

  /** Rows by turn, in the order of their sequence numbers. */
  type Rows = map<string, seq<Event>>

  predicate Increasing(rows: seq<Event>) {
    forall i, j :: 0 <= i < j < |rows| ==> rows[i].sequence < rows[j].sequence
  }

  /** Rows are filed under their turn, numbered from one on, upwards. */
  ghost predicate TableOk(t: Rows) {
    forall k :: k in t ==>
      Increasing(t[k]) && forall i :: 0 <= i < |t[k]| ==> t[k][i].turn == k && t[k][i].sequence >= 1
  }

  /** `MAX(sequence)`, zero without rows. */
  function MaxSequence(rows: seq<Event>): (m: nat)
  {
    if rows == [] then 0 else rows[|rows| - 1].sequence
  }

  lemma MaxSequenceIsMax(rows: seq<Event>)
    requires Increasing(rows)
    ensures forall i :: 0 <= i < |rows| ==> rows[i].sequence <= MaxSequence(rows)
  {
  }

  /** The rows that are not deleted, in order. */
  function Kept(rows: seq<Event>, doomed: set<Event>): seq<Event> {
    if rows == [] then []
    else (if rows[0] in doomed then [] else [rows[0]]) + Kept(rows[1..], doomed)
  }

  lemma {:induction false} KeptMembers(rows: seq<Event>, doomed: set<Event>)
    ensures forall e :: e in Kept(rows, doomed) <==> e in rows && e !in doomed
  {
    if rows != [] {
      KeptMembers(rows[1..], doomed);
      assert rows == [rows[0]] + rows[1..];
    }
  }

  lemma {:induction false} KeptIncreasing(rows: seq<Event>, doomed: set<Event>)
    requires Increasing(rows)
    ensures Increasing(Kept(rows, doomed))
  {
    if rows != [] {
      var rest := Kept(rows[1..], doomed);
      KeptIncreasing(rows[1..], doomed);
      KeptMembers(rows[1..], doomed);
      forall i | 0 <= i < |rest|
        ensures rows[0].sequence < rest[i].sequence
      {
        assert rest[i] in rows[1..];
      }
    }
  }

  /** An appended event is the newest of its turn. */
  lemma AppendKeepsOrder(t: Rows, e: Event)
    requires TableOk(t) && e.sequence == MaxSequence(At(t, e.turn)) + 1
    ensures TableOk(t[e.turn := At(t, e.turn) + [e]])
  {
    MaxSequenceIsMax(At(t, e.turn));
  }

  /** A deletion restarts or lowers the numbering of a turn exactly when it takes the newest row. */
  lemma NumberingSurvivesIff(rows: seq<Event>, doomed: set<Event>)
    requires Increasing(rows) && rows != [] && forall i :: 0 <= i < |rows| ==> rows[i].sequence >= 1
    ensures MaxSequence(Kept(rows, doomed)) == MaxSequence(rows) <==> rows[|rows| - 1] !in doomed
  {
    var kept, last := Kept(rows, doomed), rows[|rows| - 1];
    KeptMembers(rows, doomed);
    KeptIncreasing(rows, doomed);
    if last !in doomed {
      assert last in kept;
      MaxSequenceIsMax(kept);
      assert kept[|kept| - 1] in rows;
      MaxSequenceIsMax(rows);
    } else if kept != [] {
      var e := kept[|kept| - 1];
      assert e in rows && e != last;
      var i :| 0 <= i < |rows| && rows[i] == e;
    }
  }

  function Deleted(t: Rows, doomed: set<Event>): Rows {
    map k | k in t :: Kept(t[k], doomed)
  }

  function AllRows(t: Rows): set<Event> {
    set k, e | k in t && e in t[k] :: e
  }

  lemma DeletedRows(t: Rows, doomed: set<Event>)
    ensures AllRows(Deleted(t, doomed)) == AllRows(t) - doomed
  {
    forall e
      ensures e in AllRows(Deleted(t, doomed)) <==> e in AllRows(t) - doomed
    {
      if e in AllRows(Deleted(t, doomed)) {
        var k :| k in t && e in Kept(t[k], doomed);
        KeptMembers(t[k], doomed);
      }
      if e in AllRows(t) - doomed {
        var k :| k in t && e in t[k];
        KeptMembers(t[k], doomed);
        assert k in Deleted(t, doomed) && e in Deleted(t, doomed)[k];
      }
    }
  }

  lemma DeletedOk(t: Rows, doomed: set<Event>)
    requires TableOk(t)
    ensures TableOk(Deleted(t, doomed))
  {
    forall k | k in t
      ensures Increasing(Kept(t[k], doomed))
      ensures forall i :: 0 <= i < |Kept(t[k], doomed)| ==>
                Kept(t[k], doomed)[i].turn == k && Kept(t[k], doomed)[i].sequence >= 1
    {
      KeptMembers(t[k], doomed);
      KeptIncreasing(t[k], doomed);
      forall i | 0 <= i < |Kept(t[k], doomed)|
        ensures Kept(t[k], doomed)[i] in t[k]
      {
        assert Kept(t[k], doomed)[i] in Kept(t[k], doomed);
      }
    }
  }

  // -------------------------------------------------------------- pruning

  datatype Policy = Policy(cutoff: int, cap: int, over: set<string>)

  predicate Retained(e: Event) {
    e.kind == MessageCompleted || Ends(e)
  }

  /** Old progress events of finished turns. */
  function Compactable(all: set<Event>, p: Policy): set<Event> {
    set e | e in all && e.at < p.cutoff && !Retained(e) && e.turn in p.over
  }

  /** A session's events in finished turns. */
  function Capped(all: set<Event>, p: Policy, session: string): set<Event> {
    set e | e in all && e.session == session && e.turn in p.over
  }

  predicate Newer(a: Event, b: Event) {
    || a.at > b.at
    || (a.at == b.at && a.sequence > b.sequence)
    || (a.at == b.at && a.sequence == b.sequence && a.id > b.id)
  }

  /** How many of `s` come before `e`, newest first. */
  function Rank(s: set<Event>, e: Event): nat {
    |Before(s, e)|
  }

  /** The rows behind the first `cap`. */
  function Excess(s: set<Event>, cap: int): set<Event> {
    set e | e in s && Rank(s, e) >= Max(1, cap)
  }

  ghost predicate UniqueIds(s: set<Event>) {
    forall a, b :: a in s && b in s && a != b ==> a.id != b.id
  }

  /** The oldest of a set of rows. */
  lemma {:induction false} Oldest(s: set<Event>) returns (m: Event)
    requires s != {} && UniqueIds(s)
    ensures m in s && forall e :: e in s && e != m ==> Newer(e, m)
    decreases s
  {
    var x :| x in s;
    if s == {x} {
      m := x;
    } else {
      var y := Oldest(s - {x});
      m := if Newer(y, x) then x else y;
      forall e | e in s && e != m
        ensures Newer(e, m)
      {
        assert e == x || e == y || Newer(e, y);
        assert x.id != y.id;
      }
    }
  }

  function Before(s: set<Event>, e: Event): set<Event> {
    set f | f in s && Newer(f, e)
  }

  /** What the cap leaves: at most `cap` rows... */
  lemma CapBounds(s: set<Event>, cap: int)
    requires UniqueIds(s)
    ensures |s - Excess(s, cap)| <= Max(1, cap)
  {
    var kept := s - Excess(s, cap);
    if kept != {} {
      var m := Oldest(kept);
      SubsetSize(kept - {m}, Before(s, m));
    }
  }

  /** ... all of them if they fit ... */
  lemma CapSpares(s: set<Event>, cap: int)
    requires |s| <= Max(1, cap)
    ensures Excess(s, cap) == {}
  {
    forall e | e in s
      ensures Rank(s, e) < Max(1, cap)
    {
      SubsetSize(Before(s, e), s - {e});
    }
  }

  /** ... and the newest ones. */
  lemma CapKeepsNewest(s: set<Event>, cap: int, e: Event, f: Event)
    requires e in s - Excess(s, cap) && f in s && Newer(f, e)
    ensures f !in Excess(s, cap)
  {
    SubsetSize(Before(s, f), Before(s, e));
  }

  // -------------------------------------------------------- a whole pruning

  /** What the cap takes from all sessions. */
  function AllExcess(all: set<Event>, p: Policy): set<Event> {
    set e | e in all && e in Excess(Capped(all, p, e.session), p.cap)
  }

  /** The table after a pruning: old progress of finished turns goes first, then what lies beyond a session's cap. */
  function PrunedRows(t: Rows, p: Policy): Rows {
    var compacted := Deleted(t, Compactable(AllRows(t), p));
    Deleted(compacted, AllExcess(AllRows(compacted), p))
  }

  lemma {:induction false} NothingDoomed(rows: seq<Event>, doomed: set<Event>)
    requires forall e :: e in rows ==> e !in doomed
    ensures Kept(rows, doomed) == rows
  {
    if rows != [] {
      NothingDoomed(rows[1..], doomed);
    }
  }

  /** A turn that is not over keeps its rows, every one and in order. */
  lemma PruningSparesActiveTurns(t: Rows, p: Policy, turn: string)
    requires TableOk(t) && turn !in p.over
    ensures At(PrunedRows(t, p), turn) == At(t, turn)
  {
    if turn in t {
      var compacted := Deleted(t, Compactable(AllRows(t), p));
      forall e | e in t[turn]
        ensures e.turn == turn
      {
        var i :| 0 <= i < |t[turn]| && t[turn][i] == e;
      }
      NothingDoomed(t[turn], Compactable(AllRows(t), p));
      NothingDoomed(t[turn], AllExcess(AllRows(compacted), p));
    }
  }

  lemma PruningKeepsTable(t: Rows, p: Policy)
    requires TableOk(t)
    ensures TableOk(PrunedRows(t, p)) && AllRows(PrunedRows(t, p)) <= AllRows(t)
  {
    var doomed := Compactable(AllRows(t), p);
    var compacted := Deleted(t, doomed);
    DeletedOk(t, doomed);
    DeletedRows(t, doomed);
    DeletedOk(compacted, AllExcess(AllRows(compacted), p));
    DeletedRows(compacted, AllExcess(AllRows(compacted), p));
  }

  lemma PruningKeepsMembers(t: Rows, p: Policy, turn: string)
    ensures forall e :: e in At(PrunedRows(t, p), turn) ==> e in At(t, turn)
  {
    if turn in t {
      var doomed := Compactable(AllRows(t), p);
      var compacted := Deleted(t, doomed);
      KeptMembers(t[turn], doomed);
      KeptMembers(compacted[turn], AllExcess(AllRows(compacted), p));
    }
  }

  /** What an order of rows by age means: the later one is newer, then the one with the higher number, then the one
      with the higher id. */
  lemma NewerIsByAge(a: Event, b: Event)
    ensures a.at > b.at ==> Newer(a, b) && !Newer(b, a)
    ensures a.at == b.at && a.sequence > b.sequence ==> Newer(a, b) && !Newer(b, a)
    ensures a.at == b.at && a.sequence == b.sequence ==> (Newer(a, b) <==> a.id > b.id)
  {
  }

  /** Which rows a pruning takes: of finished turns those that are older than the cutoff, unless they tell a message or
      the end of a turn, and those beyond the cap among the rest of their session. */
  lemma PruningTakes(t: Rows, p: Policy, e: Event)
    requires e in AllRows(t)
    ensures var stale := e.at < p.cutoff && e.kind !in {MessageCompleted, TurnCompleted, TurnFailed, TurnCancelled};
            var rest := Capped(AllRows(t) - Compactable(AllRows(t), p), p, e.session);
            e in AllRows(PrunedRows(t, p)) <==>
              e.turn !in p.over || (!stale && |Before(rest, e)| < Max(1, p.cap))
  {
    var all := AllRows(t);
    var compacted := Deleted(t, Compactable(all, p));
    DeletedRows(t, Compactable(all, p));
    DeletedRows(compacted, AllExcess(AllRows(compacted), p));
  }

  /** Of a session's finished turns exactly the newest rows within the cap are left, compaction aside. */
  lemma PruningLeavesNewest(t: Rows, p: Policy, session: string)
    ensures var before := Capped(AllRows(t) - Compactable(AllRows(t), p), p, session);
            Capped(AllRows(PrunedRows(t, p)), p, session) == before - Excess(before, p.cap)
  {
    var compacted := Deleted(t, Compactable(AllRows(t), p));
    DeletedRows(t, Compactable(AllRows(t), p));
    DeletedRows(compacted, AllExcess(AllRows(compacted), p));
    var all := AllRows(compacted);
    forall e | e in Capped(all, p, session)
      ensures e in AllExcess(all, p) <==> e in Excess(Capped(all, p, session), p.cap)
    {
    }
  }
}
