/** What the operations of the knowledge book do to pages, files and lists, field by field, and when they are done. */
module BookEffects {
  import opened Collections
  import opened KnowledgeBook

  ghost function PublishedAt(b: Book, point: string): Option<Published> {
    if point in b.pages then b.pages[point].published else None
  }

  /** The page has this draft as the given revision, and what was published of it stays. */
  ghost predicate HasDraft(r: Book, b: Book, point: string, text: string, revision: nat) {
    && point in r.pages && r.pages[point].draft == text && r.pages[point].revision == revision
    && r.pages[point].published == PublishedAt(b, point)
  }

  ghost predicate OtherPagesStay(r: Book, b: Book, point: string) {
    forall x :: x != point ==> (x in r.pages <==> x in b.pages) && (x in r.pages ==> r.pages[x] == b.pages[x])
  }

  /** A draft is saved as the next revision exactly if the expected one is current or none is expected. */
  lemma SaveEffect(b: Book, point: string, text: string, expected: Option<int>)
    ensures var r := Next(b, SaveDraft(point, text, expected));
            && (expected.Some? && expected.value != Revision(b, point) ==>
                  r == b && Outcome(b, SaveDraft(point, text, expected)) == Refused(StaleRevision))
            && (expected.None? || expected.value == Revision(b, point) ==>
                  && HasDraft(r, b, point, text, (if point in b.pages then b.pages[point].revision else 0) + 1)
                  && OtherPagesStay(r, b, point) && r.files == b.files && r.refs == b.refs)
  {
  }

  /** A list may be set for a point if its files exist and belong to that point. */
  ghost predicate Referable(b: Book, point: string, ids: seq<string>) {
    forall x :: x in ids ==> x in b.files && b.files[x].point == point
  }

  /** A list is replaced, by the same ids without repetitions, exactly if it may be; nothing else changes. */
  lemma SetRefsEffect(b: Book, slot: Slot, ids: seq<string>)
    ensures Outcome(b, SetRefs(slot, ids)) == RefsSet(b, slot, ids)
    ensures RefsSet(b, slot, ids).Done? <==> Referable(b, slot.point, ids)
    ensures RefsSet(b, slot, ids).Done? ==>
              var r := RefsSet(b, slot, ids).book;
              && r == b.(refs := r.refs) && (forall x :: x in At(r.refs, slot) <==> x in ids)
              && At(r.refs, slot) == FirstOccurrences(ids) && forall s :: s != slot ==> At(r.refs, s) == At(b.refs, s)
  {
    NoRefError(b.files, slot.point, FirstOccurrences(ids));
    SameMembers(ids);
  }

  /** A page is published exactly if it exists, the expected revision is current, its draft has a character that is no
      blank, and the list that comes with it may be set.  Then the draft is what is published, as that revision. */
  lemma PublishEffect(b: Book, point: string, expected: int, ids: Option<seq<string>>)
    ensures Outcome(b, Publish(point, expected, ids)).Done? <==>
              && point in b.pages && expected == b.pages[point].revision
              && (exists i :: 0 <= i < |b.pages[point].draft| && b.pages[point].draft[i] !in {' ', '\t', '\n', '\r'})
              && (ids.Some? ==> Referable(b, point, ids.value))
    ensures Outcome(b, Publish(point, expected, ids)).Done? ==>
              var r, p := Outcome(b, Publish(point, expected, ids)).book, b.pages[point];
              && r.pages == b.pages[point := p.(published := Some(Published(p.draft, p.revision)))] && r.files == b.files
              && (ids.None? ==> r.refs == b.refs)
              && (ids.Some? ==> r.refs == b.refs[Slot(point, true) := FirstOccurrences(ids.value)])
    ensures point !in b.pages ==> Outcome(b, Publish(point, expected, ids)) == Refused(NoPage)
    ensures point in b.pages && expected != b.pages[point].revision ==>
              Outcome(b, Publish(point, expected, ids)) == Refused(StaleRevision)
  {
    if point in b.pages {
      var p := b.pages[point];
      var done := b.(pages := b.pages[point := p.(published := Some(Published(p.draft, p.revision)))]);
      if ids.Some? {
        SetRefsEffect(done, Slot(point, true), ids.value);
      }
    }
  }

  /** A file is added with its point and content, written only while it exists, and deleted exactly if no list has it;
      no other file changes. */
  lemma FileEffects(b: Book, id: string, f: File, content: string)
    ensures Next(b, AddFile(id, f)) == if id in b.files then b else b.(files := b.files[id := f])
    ensures id in b.files ==>
              Next(b, WriteFile(id, content)) == b.(files := b.files[id := File(b.files[id].point, content)])
    ensures id !in b.files ==> Next(b, WriteFile(id, content)) == b
    ensures (exists slot :: slot in b.refs && id in b.refs[slot]) ==> Next(b, DeleteFile(id)) == b
    ensures (forall slot :: slot in b.refs ==> id !in b.refs[slot]) ==>
              Next(b, DeleteFile(id)) == b.(files := b.files - {id})
  {
    AnyRefs(b, id);
    if id in b.files {
      assert b.files[id].(content := content) == File(b.files[id].point, content);
    }
  }

  // --------------------------------------------------------------- import

  /** No page that is new comes twice. */
  ghost predicate NoNewTwice(before: map<string, Page>, items: seq<Item>) {
    forall i, j :: 0 <= i < j < |items| && items[i].point == items[j].point ==> items[i].point in before
  }

  ghost predicate Natural(items: seq<Item>) {
    forall i :: 0 <= i < |items| ==> items[i].expected >= 0
  }

  function WithItem(b: Book, item: Item): Book
    requires item.expected >= 0
  {
    b.(pages := b.pages[item.point := Drafted(PageOf(b, item.point), item.expected, item.text)])
  }

  /** None of the items' pages has been written yet, but for those that were there before. */
  ghost predicate Fresh(b: Book, before: map<string, Page>, items: seq<Item>) {
    forall i :: 0 <= i < |items| && items[i].point in b.pages ==> items[i].point in before
  }

  lemma {:induction false} WrittenIff(b: Book, before: map<string, Page>, items: seq<Item>)
    requires Natural(items) && before.Keys <= b.pages.Keys
    ensures PagesWritten(b, before, items).Done? <==> Fresh(b, before, items) && NoNewTwice(before, items)
    decreases |items|
  {
    if items != [] {
      var item, rest := items[0], items[1..];
      if item.point in before || item.point !in b.pages {
        WrittenIff(WithItem(b, item), before, rest);
        FreshAfter(b, before, items);
      }
    }
  }

  lemma FreshAfter(b: Book, before: map<string, Page>, items: seq<Item>)
    requires items != [] && items[0].expected >= 0 && (items[0].point in before || items[0].point !in b.pages)
    ensures Fresh(b, before, items) && NoNewTwice(before, items)
            <==> Fresh(WithItem(b, items[0]), before, items[1..]) && NoNewTwice(before, items[1..])
  {
    var item, rest, n := items[0], items[1..], WithItem(b, items[0]);
    forall i | 0 <= i < |rest|
      ensures rest[i] == items[i + 1]
      ensures rest[i].point in n.pages <==> rest[i].point in b.pages || rest[i].point == item.point
    {
    }
    if Fresh(n, before, rest) && NoNewTwice(before, rest) {
      forall i | 0 <= i < |items| && items[i].point in b.pages
        ensures items[i].point in before
      {
        if i > 0 {
          assert rest[i - 1] == items[i];
        }
      }
      forall i, j | 0 <= i < j < |items| && items[i].point == items[j].point
        ensures items[i].point in before
      {
        assert rest[j - 1] == items[j];
        if i > 0 {
          assert rest[i - 1] == items[i];
        }
      }
    }
  }

  /** The item is the last one of its page. */
  predicate LastOf(items: seq<Item>, i: nat)
    requires i < |items|
  {
    forall j :: i < j < |items| ==> items[j].point != items[i].point
  }

  /** Pages that no item names stay, and the last item of a page decides its draft. */
  lemma {:induction false} WrittenEffect(b: Book, before: map<string, Page>, items: seq<Item>, point: string)
    requires Natural(items) && PagesWritten(b, before, items).Done?
    ensures var r := PagesWritten(b, before, items).book;
            && r == b.(pages := r.pages)
            && ((forall i :: 0 <= i < |items| ==> items[i].point != point) ==>
                  (point in r.pages <==> point in b.pages) && (point in r.pages ==> r.pages[point] == b.pages[point]))
            && (forall i: nat :: i < |items| && items[i].point == point && LastOf(items, i) ==>
                  HasDraft(r, b, point, items[i].text, items[i].expected + 1))
    decreases |items|
  {
    if items != [] {
      var item, rest, n := items[0], items[1..], WithItem(b, items[0]);
      WrittenEffect(n, before, rest, point);
      var r := PagesWritten(b, before, items).book;
      assert r == PagesWritten(n, before, rest).book;
      assert PublishedAt(n, point) == PublishedAt(b, point);
      forall i: nat | i < |items| && items[i].point == point && LastOf(items, i)
        ensures HasDraft(r, b, point, items[i].text, items[i].expected + 1)
      {
        if i > 0 {
          assert rest[i - 1] == items[i] && LastOf(rest, i - 1);
        } else {
          assert forall k :: 0 <= k < |rest| ==> rest[k] == items[k + 1];
        }
      }
      if forall i :: 0 <= i < |items| ==> items[i].point != point {
        assert forall k :: 0 <= k < |rest| ==> rest[k] == items[k + 1];
      }
    }
  }

  ghost predicate AllReferable(b: Book, refs: seq<Refs>) {
    forall k :: 0 <= k < |refs| ==> Referable(b, refs[k].point, refs[k].ids)
  }

  /** All lists are set exactly if each may be, and the last one for a point stands. */
  lemma {:induction false} AllRefsEffect(b: Book, refs: seq<Refs>, k: nat)
    ensures AllRefsSet(b, refs).Done? <==> AllReferable(b, refs)
    ensures AllRefsSet(b, refs).Done? ==> AllRefsSet(b, refs).book == b.(refs := AllRefsSet(b, refs).book.refs)
    ensures AllRefsSet(b, refs).Done? && k < |refs| && (forall j :: k < j < |refs| ==> refs[j].point != refs[k].point) ==>
              At(AllRefsSet(b, refs).book.refs, Slot(refs[k].point, false)) == FirstOccurrences(refs[k].ids)
    decreases |refs|
  {
    if refs != [] {
      var slot, rest := Slot(refs[0].point, false), refs[1..];
      SetRefsEffect(b, slot, refs[0].ids);
      assert forall j :: 0 <= j < |rest| ==> rest[j] == refs[j + 1];
      if Referable(b, refs[0].point, refs[0].ids) {
        var n := RefsSet(b, slot, refs[0].ids).book;
        AllRefsEffect(n, rest, if k > 0 then k - 1 else 0);
        SameReferable(n, b, rest);
        if k == 0 && AllRefsSet(b, refs).Done? && (forall j :: 0 < j < |refs| ==> refs[j].point != refs[0].point) {
          ImportedRefsAreLocal(n, rest, slot);
        }
      }
    }
  }

  lemma SameReferable(n: Book, b: Book, refs: seq<Refs>)
    requires n.files == b.files
    ensures AllReferable(n, refs) <==> AllReferable(b, refs)
  {
    forall k | 0 <= k < |refs|
      ensures Referable(n, refs[k].point, refs[k].ids) <==> Referable(b, refs[k].point, refs[k].ids)
    {
    }
  }

  /** A package is taken exactly if every revision is current, no new page comes twice and every list may be set. */
  lemma ImportTakenIff(b: Book, items: seq<Item>, refs: seq<Refs>)
    ensures Outcome(b, Import(items, refs)).Done? <==>
              && (forall i :: 0 <= i < |items| ==> items[i].expected == Revision(b, items[i].point))
              && NoNewTwice(b.pages, items) && AllReferable(b, refs)
  {
    if AllCurrent(b, items) {
      CurrentIsNatural(b, items);
      WrittenIff(b, b.pages, items);
      if PagesWritten(b, b.pages, items).Done? {
        var w := PagesWritten(b, b.pages, items).book;
        WrittenEffect(b, b.pages, items, "");
        AllRefsEffect(w, refs, 0);
        SameReferable(w, b, refs);
      }
    }
  }

  /** A package that is taken leaves each of its pages with the text of the last item for it, one revision up, and what
      was published of it; each of its lists with the ids that came last for it; and everything else as it was. */
  lemma ImportEffect(b: Book, items: seq<Item>, refs: seq<Refs>, i: nat, k: nat, point: string)
    requires Outcome(b, Import(items, refs)).Done?
    ensures var r := Outcome(b, Import(items, refs)).book;
            && (i < |items| && LastOf(items, i) ==>
                  HasDraft(r, b, items[i].point, items[i].text, Revision(b, items[i].point) + 1))
            && ((forall j :: 0 <= j < |items| ==> items[j].point != point) ==>
                  (point in r.pages <==> point in b.pages) && (point in r.pages ==> r.pages[point] == b.pages[point]))
            && (k < |refs| && (forall j :: k < j < |refs| ==> refs[j].point != refs[k].point) ==>
                  At(r.refs, Slot(refs[k].point, false)) == FirstOccurrences(refs[k].ids))
            && r.files == b.files && At(r.refs, Slot(point, true)) == At(b.refs, Slot(point, true))
  {
    CurrentIsNatural(b, items);
    var w := PagesWritten(b, b.pages, items).book;
    WrittenEffect(b, b.pages, items, point);
    if i < |items| {
      WrittenEffect(b, b.pages, items, items[i].point);
    }
    AllRefsEffect(w, refs, k);
    ImportedRefsAreLocal(w, refs, Slot(point, true));
  }
}
