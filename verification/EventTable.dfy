/** The table of durable events, updated in place. */
module EventTable {
  import opened Collections
  import opened EventLog

  class EventRepository {
    var rows: Rows

    ghost predicate Valid()
      reads this
    {
      TableOk(rows) && UniqueIds(AllRows(rows))
    }

    constructor ()
      ensures Valid() && rows == map[]
    {
      rows := map[];
    }

    /** Appends an event, under a new id, behind everything its turn has. */
    method AppendEvent(turn: string, session: string, kind: Kind, id: nat, at: int) returns (e: Event)
      requires Valid() && forall f :: f in AllRows(rows) ==> f.id != id
      modifies this
      ensures Valid()
      ensures e == Event(id, turn, session, e.sequence, kind, at)
      ensures forall i :: 0 <= i < |old(At(rows, turn))| ==> old(At(rows, turn))[i].sequence < e.sequence
      ensures rows == old(rows)[turn := old(At(rows, turn)) + [e]]
      ensures DenseFrom(old(At(rows, turn)), 0) ==> DenseFrom(At(rows, turn), 0)
    {
      e := Event(id, turn, session, MaxSequence(At(rows, turn)) + 1, kind, at);
      AppendKeepsTable(rows, e);
      rows := rows[turn := At(rows, turn) + [e]];
    }

    /** Returns the turn's first event of a kind, appending one only if there is none. */
    method EnsureEvent(turn: string, session: string, kind: Kind, id: nat, at: int) returns (e: Event)
      requires Valid() && forall f :: f in AllRows(rows) ==> f.id != id
      modifies this
      ensures Valid()
      ensures e.kind == kind && e in At(rows, turn)
      ensures (exists f :: f in old(At(rows, turn)) && f.kind == kind) ==> unchanged(this)
      ensures !(exists f :: f in old(At(rows, turn)) && f.kind == kind)
              ==> rows == old(rows)[turn := old(At(rows, turn)) + [e]]
      ensures forall f :: f in At(rows, turn) && f.kind == kind ==> e.sequence <= f.sequence
    {
      var own := At(rows, turn);
      for i := 0 to |own|
        invariant rows == old(rows) && Valid()
        invariant forall j :: 0 <= j < i ==> own[j].kind != kind
      {
        if own[i].kind == kind {
          return own[i];
        }
      }
      e := AppendEvent(turn, session, kind, id, at);
    }

    /** Deletes the rows in `doomed`. */
    method Delete(doomed: set<Event>)
      requires Valid()
      modifies this
      ensures Valid()
      ensures rows == Deleted(old(rows), doomed) && AllRows(rows) == old(AllRows(rows)) - doomed
    {
      DeletedRows(rows, doomed);
      DeletedOk(rows, doomed);
      rows := Deleted(rows, doomed);
    }

    /** Compacts finished turns: old progress goes, then everything beyond the session's cap.
        Turns that are not over keep every row, so their logs stay without gaps. */
    method PruneEvents(p: Policy)
      requires Valid()
      modifies this
      ensures Valid()
      ensures rows == PrunedRows(old(rows), p)
      ensures forall k :: k !in p.over ==> At(rows, k) == At(old(rows), k)
      ensures forall s :: WithinCap(old(rows), rows, p, s)
    {
      ghost var start := rows;
      Delete(Compactable(AllRows(rows), p));
      ghost var compacted := rows;
      var todo := set e | e in AllRows(rows) :: e.session;
      NoneYet(compacted, p);
      while todo != {}
        invariant Valid() && CappedOutside(compacted, rows, p, todo)
        decreases todo
      {
        var s :| s in todo;
        CapNext(compacted, rows, p, todo, s);
        Delete(Excess(Capped(AllRows(rows), p, s), p.cap));
        todo := todo - {s};
      }
      CappedAll(compacted, rows, p);
      PruneMeaning(start, p);
    }
  }

  /** Of the finished turns of a session, compaction aside, exactly the newest rows within the cap are left. */
  ghost predicate WithinCap(before: Rows, now: Rows, p: Policy, session: string) {
    var own := Capped(AllRows(before) - Compactable(AllRows(before), p), p, session);
    && Capped(AllRows(now), p, session) == own - Excess(own, p.cap)
    && |Capped(AllRows(now), p, session)| <= Max(1, p.cap)
  }

  lemma PruneMeaning(t: Rows, p: Policy)
    requires TableOk(t) && UniqueIds(AllRows(t))
    ensures forall k :: k !in p.over ==> At(PrunedRows(t, p), k) == At(t, k)
    ensures forall s :: WithinCap(t, PrunedRows(t, p), p, s)
  {
    forall k | k !in p.over
      ensures At(PrunedRows(t, p), k) == At(t, k)
    {
      PruningSparesActiveTurns(t, p, k);
    }
    forall s
      ensures WithinCap(t, PrunedRows(t, p), p, s)
    {
      PruningLeavesNewest(t, p, s);
      CapBounds(Capped(AllRows(t) - Compactable(AllRows(t), p), p, s), p.cap);
    }
  }

  lemma AppendKeepsTable(t: Rows, e: Event)
    requires TableOk(t) && UniqueIds(AllRows(t)) && e.sequence == MaxSequence(At(t, e.turn)) + 1
    requires forall f :: f in AllRows(t) ==> f.id != e.id
    ensures TableOk(t[e.turn := At(t, e.turn) + [e]]) && UniqueIds(AllRows(t[e.turn := At(t, e.turn) + [e]]))
  {
    assert AllRows(t[e.turn := At(t, e.turn) + [e]]) <= AllRows(t) + {e};
    AppendKeepsOrder(t, e);
  }

  /** The excess of the sessions outside `todo`. */
  ghost function Gone(all: set<Event>, p: Policy, todo: set<string>): set<Event> {
    set e | e in AllExcess(all, p) && e.session !in todo
  }

  /** What a pass has taken when the sessions in `todo` are still to come. */
  ghost predicate CappedOutside(compacted: Rows, now: Rows, p: Policy, todo: set<string>) {
    && UniqueIds(AllRows(compacted))
    && now == Deleted(compacted, Gone(AllRows(compacted), p, todo))
  }

  lemma NoneYet(compacted: Rows, p: Policy)
    requires UniqueIds(AllRows(compacted))
    ensures CappedOutside(compacted, compacted, p, set e | e in AllRows(compacted) :: e.session)
  {
    var todo := set e | e in AllRows(compacted) :: e.session;
    assert Gone(AllRows(compacted), p, todo) == {};
    DeletedNothing(compacted);
  }

  lemma DeletedNothing(t: Rows)
    ensures Deleted(t, {}) == t
  {
    forall k | k in t
      ensures Kept(t[k], {}) == t[k]
    {
      NothingDoomed(t[k], {});
    }
  }

  lemma CappedAll(compacted: Rows, now: Rows, p: Policy)
    requires CappedOutside(compacted, now, p, {})
    ensures now == Deleted(compacted, AllExcess(AllRows(compacted), p))
  {
    assert Gone(AllRows(compacted), p, {}) == AllExcess(AllRows(compacted), p);
  }

  /** Taking one more session's excess. */
  lemma CapNext(compacted: Rows, now: Rows, p: Policy, todo: set<string>, s: string)
    requires CappedOutside(compacted, now, p, todo) && s in todo
    ensures CappedOutside(compacted, Deleted(now, Excess(Capped(AllRows(now), p, s), p.cap)), p, todo - {s})
  {
    var all := AllRows(compacted);
    var gone := Gone(all, p, todo);
    var more := Excess(Capped(AllRows(now), p, s), p.cap);
    DeletedRows(compacted, gone);
    assert Capped(AllRows(now), p, s) == Capped(all, p, s);
    assert Gone(all, p, todo - {s}) == gone + more;
    DeletedTwice(compacted, gone, more);
  }

  lemma DeletedTwice(t: Rows, a: set<Event>, b: set<Event>)
    ensures Deleted(Deleted(t, a), b) == Deleted(t, a + b)
  {
    forall k | k in t
      ensures Kept(Kept(t[k], a), b) == Kept(t[k], a + b)
    {
      KeptTwice(t[k], a, b);
    }
  }

  lemma {:induction false} KeptTwice(rows: seq<Event>, a: set<Event>, b: set<Event>)
    ensures Kept(Kept(rows, a), b) == Kept(rows, a + b)
  {
    if rows != [] {
      KeptTwice(rows[1..], a, b);
      if rows[0] !in a {
        var kept := [rows[0]] + Kept(rows[1..], a);
        assert kept[0] == rows[0] && kept[1..] == Kept(rows[1..], a);
        assert Kept(rows, a) == kept;
      } else {
        assert Kept(rows, a) == Kept(rows[1..], a);
        assert Kept(rows, a + b) == Kept(rows[1..], a + b);
      }
    }
  }
}
