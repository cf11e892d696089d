/** The pages, files and file references of one workspace's knowledge book.

    Every operation is one transaction: it is done completely or, with an
    error, not at all.  The update of a file is the exception: it looks, checks
    and writes in three transactions (`FileUpdates`), and only its write is a
    step here. */
module KnowledgeBook {
  import opened Collections

  /** `drafts` is the history of drafts, one per revision. */
  datatype Page = Page(draft: string, revision: nat, published: Option<Published>, drafts: seq<string>)

  datatype Published = Published(markdown: string, revision: nat)

  datatype File = File(point: string, content: string)

  /** A page's file references come in a draft list and a published list. */
  datatype Slot = Slot(point: string, published: bool)

  datatype Book = Book(pages: map<string, Page>, files: map<string, File>, refs: map<Slot, seq<string>>)

  const EMPTY := Book(map[], map[], map[])

  datatype Error = StaleRevision | NoPage | BlankDraft | NoFile | OtherPoint | IsPublished | IsReferenced | Twice

  datatype Result = Done(book: Book) | Refused(error: Error)

  function After(b: Book, r: Result): Book {
    if r.Done? then r.book else b
  }

  // ----------------------------------------------------------- references

  /** The list without repetitions, each at its first place. */
  function FirstOccurrences(ids: seq<string>): seq<string> {
    if ids == [] then []
    else
      var front, last := ids[..|ids| - 1], ids[|ids| - 1];
      FirstOccurrences(front) + if last in front then [] else [last]
  }

  lemma {:induction false} SameMembers(ids: seq<string>)
    ensures forall x :: x in FirstOccurrences(ids) <==> x in ids
  {
    if ids != [] {
      var front, last := ids[..|ids| - 1], ids[|ids| - 1];
      SameMembers(front);
      assert ids == front + [last];
    }
  }

  /** Where an id comes first. */
  function Place(ids: seq<string>, x: string): (i: nat)
    requires x in ids
    ensures i < |ids| && ids[i] == x && forall j :: 0 <= j < i ==> ids[j] != x
  {
    if ids[0] == x then 0
    else
      assert x in ids[1..];
      1 + Place(ids[1..], x)
  }

  lemma PlaceInFront(front: seq<string>, last: string, x: string)
    requires x in front
    ensures x in front + [last] && Place(front + [last], x) == Place(front, x)
  {
    var all := front + [last];
    assert all[Place(front, x)] == x;
    assert forall j :: 0 <= j < |front| ==> all[j] == front[j];
  }

  lemma PlaceOfNew(front: seq<string>, last: string)
    requires last !in front
    ensures last in front + [last] && Place(front + [last], last) == |front|
  {
    var all := front + [last];
    assert all[|front|] == last;
    assert forall j :: 0 <= j < |front| ==> all[j] == front[j];
  }

  /** The members of `r` come in the order of their first places in `ids`. */
  ghost predicate ByPlace(ids: seq<string>, r: seq<string>) {
    && (forall i :: 0 <= i < |r| ==> r[i] in ids)
    && (forall i, j :: 0 <= i < j < |r| ==> Place(ids, r[i]) < Place(ids, r[j]))
  }

  lemma ByPlaceInLonger(front: seq<string>, last: string, r: seq<string>)
    requires ByPlace(front, r)
    ensures ByPlace(front + [last], r)
    ensures last !in front ==> ByPlace(front + [last], r + [last])
  {
    forall i | 0 <= i < |r|
      ensures r[i] in front + [last] && Place(front + [last], r[i]) == Place(front, r[i])
    {
      PlaceInFront(front, last, r[i]);
    }
    if last !in front {
      PlaceOfNew(front, last);
      var s := r + [last];
      forall i, j | 0 <= i < j < |s|
        ensures Place(front + [last], s[i]) < Place(front + [last], s[j])
      {
        assert s[i] == r[i];
      }
    }
  }

  /** The members are in the order of their first places, so none is there twice. */
  lemma {:induction false} OrderedByPlace(ids: seq<string>)
    ensures ByPlace(ids, FirstOccurrences(ids))
    ensures Distinct(FirstOccurrences(ids))
  {
    if ids != [] {
      var front, last := ids[..|ids| - 1], ids[|ids| - 1];
      OrderedByPlace(front);
      ByPlaceInLonger(front, last, FirstOccurrences(front));
      assert ids == front + [last];
    }
    ByPlaceIsDistinct(ids, FirstOccurrences(ids));
  }

  lemma ByPlaceIsDistinct(ids: seq<string>, r: seq<string>)
    requires ByPlace(ids, r)
    ensures Distinct(r)
  {
    forall i, j | 0 <= i < j < |r|
      ensures r[i] != r[j]
    {
      assert Place(ids, r[i]) < Place(ids, r[j]);
    }
  }

  /** The first error among references that a page may not have. */
  function RefError(files: map<string, File>, point: string, ids: seq<string>): Option<Error> {
    if ids == [] then None
    else if ids[0] !in files then Some(NoFile)
    else if files[ids[0]].point != point then Some(OtherPoint)
    else RefError(files, point, ids[1..])
  }

  lemma {:induction false} NoRefError(files: map<string, File>, point: string, ids: seq<string>)
    ensures RefError(files, point, ids).None? <==> forall x :: x in ids ==> x in files && files[x].point == point
  {
    if ids != [] {
      NoRefError(files, point, ids[1..]);
      assert ids == [ids[0]] + ids[1..];
    }
  }

  function RefsSet(b: Book, slot: Slot, ids: seq<string>): Result {
    var list := FirstOccurrences(ids);
    var error := RefError(b.files, slot.point, list);
    if error.Some? then Refused(error.value) else Done(b.(refs := b.refs[slot := list]))
  }

  function RefsPublished(b: Book, point: string): Result {
    Done(b.(refs := b.refs[Slot(point, true) := At(b.refs, Slot(point, false))]))
  }

  // ---------------------------------------------------------------- files

  /** A file that some list of the given kind refers to. */
  ghost predicate Referenced(b: Book, id: string, slot: Slot) {
    id in At(b.refs, slot)
  }

  ghost predicate HasPublishedRef(b: Book, id: string) {
    exists point :: Referenced(b, id, Slot(point, true))
  }

  ghost predicate HasRef(b: Book, id: string) {
    exists slot :: Referenced(b, id, slot)
  }

  function FileAdded(b: Book, id: string, f: File): Book {
    b.(files := b.files[id := f])
  }

  /** The write of an update, which checks nothing; a file that is gone by then stays gone. */
  function FileWritten(b: Book, id: string, content: string): Book {
    if id in b.files then b.(files := b.files[id := b.files[id].(content := content)]) else b
  }

  ghost function FileDeleted(b: Book, id: string): Result {
    if HasRef(b, id) then Refused(IsReferenced) else Done(b.(files := b.files - {id}))
  }

  // ---------------------------------------------------------------- pages

  function Revision(b: Book, point: string): nat {
    if point in b.pages then b.pages[point].revision else 0
  }

  predicate Space(c: char) {
    c == ' ' || c == '\t' || c == '\n' || c == '\r'
  }

  predicate Blank(text: string) {
    forall i :: 0 <= i < |text| ==> Space(text[i])
  }

  /** The page after a draft was saved as the revision behind `revision`. */
  function Drafted(previous: Option<Page>, revision: nat, text: string): Page {
    match previous
    case None => Page(text, revision + 1, None, [text])
    case Some(p) => p.(draft := text, revision := revision + 1, drafts := p.drafts[..Min(revision, |p.drafts|)] + [text])
  }

  function PageOf(b: Book, point: string): Option<Page> {
    if point in b.pages then Some(b.pages[point]) else None
  }

  function DraftSaved(b: Book, point: string, text: string, expected: Option<int>): Result {
    var revision := Revision(b, point);
    if expected.Some? && expected.value != revision then Refused(StaleRevision)
    else Done(b.(pages := b.pages[point := Drafted(PageOf(b, point), revision, text)]))
  }

  function PagePublished(b: Book, point: string, expected: int, ids: Option<seq<string>>): Result {
    if point !in b.pages then Refused(NoPage)
    else
      var p := b.pages[point];
      if expected != p.revision then Refused(StaleRevision)
      else if Blank(p.draft) then Refused(BlankDraft)
      else
        var done := b.(pages := b.pages[point := p.(published := Some(Published(p.draft, p.revision)))]);
        if ids.Some? then RefsSet(done, Slot(point, true), ids.value) else Done(done)
  }

  // --------------------------------------------------------------- import

  datatype Item = Item(point: string, expected: int, text: string)

  datatype Refs = Refs(point: string, ids: seq<string>)

  predicate AllCurrent(b: Book, items: seq<Item>) {
    forall i :: 0 <= i < |items| ==> items[i].expected == Revision(b, items[i].point)
  }

  /** Writes the pages of a package.  `before` are the pages as they were when the revisions were checked; a page
      that is new and comes twice violates the table's key. */
  function PagesWritten(b: Book, before: map<string, Page>, items: seq<Item>): Result
    requires forall i :: 0 <= i < |items| ==> items[i].expected >= 0
    decreases |items|
  {
    if items == [] then Done(b)
    else
      var item := items[0];
      if item.point !in before && item.point in b.pages then Refused(Twice)
      else PagesWritten(
             b.(pages := b.pages[item.point := Drafted(PageOf(b, item.point), item.expected, item.text)]),
             before, items[1..])
  }

  function AllRefsSet(b: Book, refs: seq<Refs>): Result
    decreases |refs|
  {
    if refs == [] then Done(b)
    else
      var r := RefsSet(b, Slot(refs[0].point, false), refs[0].ids);
      if r.Refused? then r else AllRefsSet(r.book, refs[1..])
  }

  lemma CurrentIsNatural(b: Book, items: seq<Item>)
    requires AllCurrent(b, items)
    ensures forall i :: 0 <= i < |items| ==> items[i].expected >= 0
  {
  }

  function Imported(b: Book, items: seq<Item>, refs: seq<Refs>): Result {
    if !AllCurrent(b, items) then Refused(StaleRevision)
    else
      CurrentIsNatural(b, items);
      var written := PagesWritten(b, b.pages, items);
      if written.Refused? then written else AllRefsSet(written.book, refs)
  }

  // ----------------------------------------------------------------- runs

  datatype Step =
    | SaveDraft(point: string, text: string, checked: Option<int>)
    | Publish(point: string, expected: int, fileIds: Option<seq<string>>)
    | Import(items: seq<Item>, refs: seq<Refs>)
    | AddFile(id: string, file: File)
    | WriteFile(id: string, content: string)
    | DeleteFile(id: string)
    | SetRefs(slot: Slot, ids: seq<string>)
    | PublishRefs(point: string)

  /** A new file gets an unused id. */
  ghost function Outcome(b: Book, step: Step): Result {
    match step
    case SaveDraft(point, text, expected) => DraftSaved(b, point, text, expected)
    case Publish(point, expected, ids) => PagePublished(b, point, expected, ids)
    case Import(items, refs) => Imported(b, items, refs)
    case AddFile(id, file) => if id in b.files then Refused(Twice) else Done(FileAdded(b, id, file))
    case WriteFile(id, content) => Done(FileWritten(b, id, content))
    case DeleteFile(id) => FileDeleted(b, id)
    case SetRefs(slot, ids) => RefsSet(b, slot, ids)
    case PublishRefs(point) => RefsPublished(b, point)
  }

  ghost function Next(b: Book, step: Step): Book {
    After(b, Outcome(b, step))
  }

  ghost function Run(b: Book, steps: seq<Step>): Book
    decreases |steps|
  {
    if steps == [] then b else Run(Next(b, steps[0]), steps[1..])
  }

  // ----------------------------------------------------------- invariants

  /** The draft is the latest of the history, and what is published is the draft of an earlier or the same revision. */
  predicate PageOk(p: Page) {
    && p.revision == |p.drafts| && p.revision >= 1 && p.draft == p.drafts[p.revision - 1]
    && (p.published.Some? ==>
          && 1 <= p.published.value.revision <= p.revision
          && p.published.value.markdown == p.drafts[p.published.value.revision - 1])
  }

  ghost predicate PagesOk(b: Book) {
    forall x :: x in b.pages ==> PageOk(b.pages[x])
  }

  /** Every reference is to a file of the same knowledge point, once. */
  ghost predicate ListOk(files: map<string, File>, point: string, ids: seq<string>) {
    && Distinct(ids)
    && forall i :: 0 <= i < |ids| ==> ids[i] in files && files[ids[i]].point == point
  }

  ghost predicate RefsOk(b: Book) {
    forall slot :: slot in b.refs ==> ListOk(b.files, slot.point, b.refs[slot])
  }

  lemma SetRefsKeepsRefs(b: Book, slot: Slot, ids: seq<string>)
    requires RefsOk(b)
    ensures RefsOk(After(b, RefsSet(b, slot, ids)))
  {
    var list := FirstOccurrences(ids);
    OrderedByPlace(ids);
    NoRefError(b.files, slot.point, list);
    forall i | 0 <= i < |list|
      ensures list[i] in list
    {
    }
  }

  lemma {:induction false} AllRefsKeepRefs(b: Book, refs: seq<Refs>)
    requires RefsOk(b)
    ensures AllRefsSet(b, refs).Done? ==> RefsOk(AllRefsSet(b, refs).book)
    ensures AllRefsSet(b, refs).Done? ==> AllRefsSet(b, refs).book == b.(refs := AllRefsSet(b, refs).book.refs)
    ensures AllRefsSet(b, refs).Done? ==>
              forall point :: At(AllRefsSet(b, refs).book.refs, Slot(point, true)) == At(b.refs, Slot(point, true))
    decreases |refs|
  {
    if refs != [] {
      var r := RefsSet(b, Slot(refs[0].point, false), refs[0].ids);
      SetRefsKeepsRefs(b, Slot(refs[0].point, false), refs[0].ids);
      if r.Done? {
        AllRefsKeepRefs(r.book, refs[1..]);
      }
    }
  }

  /** The page of a point as it is, or as it was written with the same package. */
  ghost predicate Writable(b: Book, before: map<string, Page>, item: Item) {
    && item.expected >= 0
    && (item.point in before ==> item.point in b.pages)
    && (item.point in b.pages ==>
          b.pages[item.point].revision == item.expected || b.pages[item.point].revision == item.expected + 1)
    && (item.point in before ==> (before[item.point].published == b.pages[item.point].published
          && before[item.point].revision == item.expected
          && PageOk(before[item.point])))
    && (item.point !in before ==> item.expected == 0)
  }

  lemma DraftedIsOk(p: Page, revision: nat, text: string)
    requires PageOk(p) && (p.revision == revision || p.revision == revision + 1)
    requires p.published.Some? ==> p.published.value.revision <= revision
    ensures PageOk(Drafted(Some(p), revision, text))
    ensures Drafted(Some(p), revision, text).drafts[..revision] == p.drafts[..revision]
  {
  }

  lemma {:induction false} WrittenPagesAreOk(b: Book, before: map<string, Page>, items: seq<Item>)
    requires PagesOk(b)
    requires forall i :: 0 <= i < |items| ==> items[i].expected >= 0 && Writable(b, before, items[i])
    ensures var r := PagesWritten(b, before, items);
            r.Done? ==> PagesOk(r.book) && r.book == b.(pages := r.book.pages)
    decreases |items|
  {
    if items != [] {
      var item := items[0];
      if !(item.point !in before && item.point in b.pages) {
        var n := b.(pages := b.pages[item.point := Drafted(PageOf(b, item.point), item.expected, item.text)]);
        if item.point in b.pages {
          DraftedIsOk(b.pages[item.point], item.expected, item.text);
        }
        forall i | 0 <= i < |items[1..]|
          ensures Writable(n, before, items[1..][i])
        {
          assert Writable(b, before, items[i + 1]);
        }
        WrittenPagesAreOk(n, before, items[1..]);
      }
    }
  }

  lemma ImportKeepsOk(b: Book, items: seq<Item>, refs: seq<Refs>)
    requires PagesOk(b) && RefsOk(b)
    ensures PagesOk(After(b, Imported(b, items, refs))) && RefsOk(After(b, Imported(b, items, refs)))
    ensures After(b, Imported(b, items, refs)).files == b.files
    ensures forall point ::
              At(After(b, Imported(b, items, refs)).refs, Slot(point, true)) == At(b.refs, Slot(point, true))
  {
    if AllCurrent(b, items) {
      forall i | 0 <= i < |items|
        ensures Writable(b, b.pages, items[i])
      {
      }
      WrittenPagesAreOk(b, b.pages, items);
      var written := PagesWritten(b, b.pages, items);
      if written.Done? {
        AllRefsKeepRefs(written.book, refs);
      }
    }
  }

  lemma PublishKeepsOk(b: Book, point: string, expected: int, ids: Option<seq<string>>)
    requires PagesOk(b) && RefsOk(b)
    ensures PagesOk(After(b, PagePublished(b, point, expected, ids)))
    ensures RefsOk(After(b, PagePublished(b, point, expected, ids)))
  {
    if point in b.pages && ids.Some? {
      var p := b.pages[point];
      var done := b.(pages := b.pages[point := p.(published := Some(Published(p.draft, p.revision)))]);
      SetRefsKeepsRefs(done, Slot(point, true), ids.value);
    }
  }

  lemma DraftKeepsOk(b: Book, point: string, text: string, expected: Option<int>)
    requires PagesOk(b)
    ensures PagesOk(After(b, DraftSaved(b, point, text, expected)))
  {
    if point in b.pages {
      DraftedIsOk(b.pages[point], b.pages[point].revision, text);
    }
  }

  lemma FileStepKeepsRefs(b: Book, step: Step)
    requires RefsOk(b) && (step.AddFile? || step.WriteFile? || step.DeleteFile?)
    ensures RefsOk(Next(b, step))
  {
    var r := Next(b, step);
    forall slot | slot in b.refs
      ensures ListOk(r.files, slot.point, b.refs[slot])
    {
      assert ListOk(b.files, slot.point, b.refs[slot]);
      if step.DeleteFile? && !HasRef(b, step.id) {
        assert !Referenced(b, step.id, slot);
      }
    }
  }

  lemma StepKeepsOk(b: Book, step: Step)
    requires PagesOk(b) && RefsOk(b)
    ensures PagesOk(Next(b, step)) && RefsOk(Next(b, step))
  {
    match step
    case SaveDraft(point, text, expected) => DraftKeepsOk(b, point, text, expected);
    case Publish(point, expected, ids) => PublishKeepsOk(b, point, expected, ids);
    case Import(items, refs) => ImportKeepsOk(b, items, refs);
    case AddFile(_, _) => FileStepKeepsRefs(b, step);
    case WriteFile(_, _) => FileStepKeepsRefs(b, step);
    case DeleteFile(_) => FileStepKeepsRefs(b, step);
    case SetRefs(slot, ids) => SetRefsKeepsRefs(b, slot, ids);
    case PublishRefs(point) =>
  }

  lemma {:induction false} RunKeepsOk(b: Book, steps: seq<Step>)
    requires PagesOk(b) && RefsOk(b)
    ensures PagesOk(Run(b, steps)) && RefsOk(Run(b, steps))
    decreases |steps|
  {
    if steps != [] {
      StepKeepsOk(b, steps[0]);
      RunKeepsOk(Next(b, steps[0]), steps[1..]);
    }
  }

  /** Over every run: references are to files of the same point, and what is published is the draft of the revision
      it carries, which is not newer than the page's. */
  lemma PublicationIntegrity(steps: seq<Step>, slot: Slot, i: nat, point: string)
    ensures var b := Run(EMPTY, steps);
            && (slot in b.refs && i < |b.refs[slot]| ==>
                  b.refs[slot][i] in b.files && b.files[b.refs[slot][i]].point == slot.point)
            && (point in b.pages && b.pages[point].published.Some? ==>
                  var p := b.pages[point];
                  && 1 <= p.published.value.revision <= p.revision == |p.drafts|
                  && p.published.value.markdown == p.drafts[p.published.value.revision - 1])
  {
    RunKeepsOk(EMPTY, steps);
    var b := Run(EMPTY, steps);
    if slot in b.refs && i < |b.refs[slot]| {
      assert ListOk(b.files, slot.point, b.refs[slot]);
    }
    if point in b.pages {
      assert PageOk(b.pages[point]);
    }
  }

  /** Published files are there after the step, with the content they had. */
  ghost predicate KeepsPublished(b: Book, step: Step) {
    forall id :: HasPublishedRef(b, id) ==>
      id in b.files && id in Next(b, step).files && Next(b, step).files[id] == b.files[id]
  }

  /** The step writes other content to a file that a published list refers to at that moment. */
  ghost predicate WritesPublished(b: Book, step: Step) {
    && step.WriteFile? && step.id in b.files && b.files[step.id].content != step.content
    && HasPublishedRef(b, step.id)
  }

  lemma PublishedFileExists(b: Book, id: string)
    requires RefsOk(b) && HasPublishedRef(b, id)
    ensures id in b.files
  {
    var point :| Referenced(b, id, Slot(point, true));
    assert ListOk(b.files, point, b.refs[Slot(point, true)]);
  }

  /** A step changes or removes a published file exactly when it is a write that comes too late. */
  lemma StepKeepsPublishedIff(b: Book, step: Step)
    requires PagesOk(b) && RefsOk(b)
    ensures KeepsPublished(b, step) <==> !WritesPublished(b, step)
  {
    if !WritesPublished(b, step) {
      forall id | HasPublishedRef(b, id)
        ensures id in b.files && id in Next(b, step).files && Next(b, step).files[id] == b.files[id]
      {
        PublishedFileExists(b, id);
        if step.Import? {
          ImportKeepsOk(b, step.items, step.refs);
        }
      }
    }
  }

  ghost predicate AlwaysKeepsPublished(b: Book, steps: seq<Step>)
    decreases |steps|
  {
    steps == [] || (KeepsPublished(b, steps[0]) && AlwaysKeepsPublished(Next(b, steps[0]), steps[1..]))
  }

  ghost predicate NeverWritesPublished(b: Book, steps: seq<Step>)
    decreases |steps|
  {
    steps == [] || (!WritesPublished(b, steps[0]) && NeverWritesPublished(Next(b, steps[0]), steps[1..]))
  }

  /** Over every run published content is kept if and only if no write finds its file published. */
  lemma {:induction false} RunKeepsPublishedIff(b: Book, steps: seq<Step>)
    requires PagesOk(b) && RefsOk(b)
    ensures AlwaysKeepsPublished(b, steps) <==> NeverWritesPublished(b, steps)
    decreases |steps|
  {
    if steps != [] {
      StepKeepsPublishedIff(b, steps[0]);
      StepKeepsOk(b, steps[0]);
      RunKeepsPublishedIff(Next(b, steps[0]), steps[1..]);
    }
  }

  /** Publishing a point's files makes its published list the draft list, leaves every other list as it was, and from
      then on a check refuses to update any of these files and a deletion is refused. */
  lemma PublishingRefsFixesFiles(b: Book, point: string, id: string, other: Slot)
    requires id in At(b.refs, Slot(point, false)) && other != Slot(point, true)
    ensures var r := Next(b, PublishRefs(point));
            && At(r.refs, Slot(point, true)) == At(b.refs, Slot(point, false))
            && At(r.refs, other) == At(b.refs, other)
            && HasPublishedRef(r, id) && FileDeleted(r, id) == Refused(IsReferenced)
  {
    var r := Next(b, PublishRefs(point));
    assert Referenced(r, id, Slot(point, true));
  }

  /** A package with a stale revision changes nothing, and so does one that is refused for any other reason; one
      that is taken raises each page's revision by one. */
  lemma ImportIsAtomic(b: Book, items: seq<Item>, refs: seq<Refs>, i: nat)
    requires i < |items|
    ensures items[i].expected != Revision(b, items[i].point) ==> Imported(b, items, refs) == Refused(StaleRevision)
    ensures Imported(b, items, refs).Refused? ==> Next(b, Import(items, refs)) == b
    ensures Imported(b, items, refs).Done? ==>
              Revision(Imported(b, items, refs).book, items[i].point) == Revision(b, items[i].point) + 1
  {
    if Imported(b, items, refs).Done? {
      CurrentIsNatural(b, items);
      var written := PagesWritten(b, b.pages, items).book;
      WrittenRevision(b, b.pages, items, i, Revision(b, items[i].point));
      RefsKeepPages(written, refs);
    }
  }

  lemma {:induction false} RefsKeepPages(b: Book, refs: seq<Refs>)
    ensures AllRefsSet(b, refs).Done? ==> AllRefsSet(b, refs).book.pages == b.pages
    decreases |refs|
  {
    if refs != [] {
      var r := RefsSet(b, Slot(refs[0].point, false), refs[0].ids);
      if r.Done? {
        RefsKeepPages(r.book, refs[1..]);
      }
    }
  }

  /** A point keeps the revision it was written with, if all items for it expect the same. */
  lemma {:induction false} WrittenRevision(b: Book, before: map<string, Page>, items: seq<Item>, i: nat, revision: nat)
    requires i < |items| && forall k :: 0 <= k < |items| ==> items[k].expected >= 0
    requires forall k :: 0 <= k < |items| && items[k].point == items[i].point ==> items[k].expected == revision
    ensures PagesWritten(b, before, items).Done? ==>
              Revision(PagesWritten(b, before, items).book, items[i].point) == revision + 1
    decreases |items|
  {
    var item := items[0];
    var n := b.(pages := b.pages[item.point := Drafted(PageOf(b, item.point), item.expected, item.text)]);
    if i > 0 {
      WrittenRevision(n, before, items[1..], i - 1, revision);
    } else {
      StaysWritten(n, before, items[1..], item.point, revision);
    }
  }

  lemma {:induction false} StaysWritten(b: Book, before: map<string, Page>, items: seq<Item>, point: string, revision: nat)
    requires forall k :: 0 <= k < |items| ==> items[k].expected >= 0
    requires forall k :: 0 <= k < |items| && items[k].point == point ==> items[k].expected == revision
    requires Revision(b, point) == revision + 1
    ensures PagesWritten(b, before, items).Done? ==> Revision(PagesWritten(b, before, items).book, point) == revision + 1
    decreases |items|
  {
    if items != [] {
      var item := items[0];
      var n := b.(pages := b.pages[item.point := Drafted(PageOf(b, item.point), item.expected, item.text)]);
      StaysWritten(n, before, items[1..], point, revision);
    }
  }

  /** A package that has a page twice is taken only if the page exists already. */
  lemma NewPageTwiceIsRefused(b: Book, item: Item, again: Item, refs: seq<Refs>)
    requires item.point == again.point && AllCurrent(b, [item, again])
    ensures Imported(b, [item, again], refs) == Refused(Twice) <==> item.point !in b.pages
  {
    CurrentIsNatural(b, [item, again]);
    assert [item, again][0] == item && [item, again][1] == again;
    var n := b.(pages := b.pages[item.point := Drafted(PageOf(b, item.point), item.expected, item.text)]);
    assert [item, again][1..] == [again];
    assert PagesWritten(b, b.pages, [item, again]) == PagesWritten(n, b.pages, [again]);
    if item.point in b.pages {
      var m := n.(pages := n.pages[item.point := Drafted(PageOf(n, item.point), again.expected, again.text)]);
      assert PagesWritten(n, b.pages, [again]) == PagesWritten(m, b.pages, []);
      RefsNeverTwice(m, refs);
    }
  }

  lemma {:induction false} RefsNeverTwice(b: Book, refs: seq<Refs>)
    ensures AllRefsSet(b, refs) != Refused(Twice)
    decreases |refs|
  {
    if refs != [] {
      var slot, list := Slot(refs[0].point, false), FirstOccurrences(refs[0].ids);
      ErrorKinds(b.files, slot.point, list);
      if RefsSet(b, slot, refs[0].ids).Done? {
        RefsNeverTwice(RefsSet(b, slot, refs[0].ids).book, refs[1..]);
      }
    }
  }

  lemma {:induction false} ErrorKinds(files: map<string, File>, point: string, ids: seq<string>)
    ensures RefError(files, point, ids) in {None, Some(NoFile), Some(OtherPoint)}
  {
    if ids != [] {
      ErrorKinds(files, point, ids[1..]);
    }
  }

  lemma StepKeepsOtherLists(b: Book, slot: Slot, step: Step)
    requires !Writes(step, slot)
    ensures At(Next(b, step).refs, slot) == At(b.refs, slot)
  {
    if step.Import? && Imported(b, step.items, step.refs).Done? {
      CurrentIsNatural(b, step.items);
      WrittenKeepsRefs(b, b.pages, step.items);
      ImportedRefsAreLocal(PagesWritten(b, b.pages, step.items).book, step.refs, slot);
    }
  }

  lemma {:induction false} RunKeepsOtherLists(b: Book, slot: Slot, steps: seq<Step>)
    requires forall i :: 0 <= i < |steps| ==> !Writes(steps[i], slot)
    ensures At(Run(b, steps).refs, slot) == At(b.refs, slot)
    decreases |steps|
  {
    if steps != [] {
      StepKeepsOtherLists(b, slot, steps[0]);
      RunKeepsOtherLists(Next(b, steps[0]), slot, steps[1..]);
    }
  }

  /** Over every run, listing returns what was set last, without repetitions, as long as no step writes that list. */
  lemma ListingReturnsLastSet(b: Book, slot: Slot, ids: seq<string>, steps: seq<Step>)
    requires RefsSet(b, slot, ids).Done?
    requires forall i :: 0 <= i < |steps| ==> !Writes(steps[i], slot)
    ensures At(Run(Next(b, SetRefs(slot, ids)), steps).refs, slot) == FirstOccurrences(ids)
  {
    SetIsListed(b, slot, ids);
    RunKeepsOtherLists(Next(b, SetRefs(slot, ids)), slot, steps);
  }

  lemma SetIsListed(b: Book, slot: Slot, ids: seq<string>)
    requires RefsSet(b, slot, ids).Done?
    ensures At(Next(b, SetRefs(slot, ids)).refs, slot) == FirstOccurrences(ids)
  {
  }

  /** The step may replace the list. */
  predicate Writes(step: Step, slot: Slot) {
    match step
    case SetRefs(s, _) => s == slot
    case PublishRefs(point) => slot == Slot(point, true)
    case Publish(point, _, ids) => ids.Some? && slot == Slot(point, true)
    case Import(_, refs) => exists i :: 0 <= i < |refs| && slot == Slot(refs[i].point, false)
    case _ => false
  }

  lemma {:induction false} WrittenKeepsRefs(b: Book, before: map<string, Page>, items: seq<Item>)
    requires forall i :: 0 <= i < |items| ==> items[i].expected >= 0
    ensures PagesWritten(b, before, items).Done? ==> PagesWritten(b, before, items).book.refs == b.refs
    decreases |items|
  {
    if items != [] {
      var item := items[0];
      WrittenKeepsRefs(
        b.(pages := b.pages[item.point := Drafted(PageOf(b, item.point), item.expected, item.text)]), before, items[1..]);
    }
  }

  lemma {:induction false} ImportedRefsAreLocal(b: Book, refs: seq<Refs>, slot: Slot)
    requires forall i :: 0 <= i < |refs| ==> slot != Slot(refs[i].point, false)
    ensures AllRefsSet(b, refs).Done? ==> At(AllRefsSet(b, refs).book.refs, slot) == At(b.refs, slot)
    decreases |refs|
  {
    if refs != [] {
      var r := RefsSet(b, Slot(refs[0].point, false), refs[0].ids);
      if r.Done? {
        ImportedRefsAreLocal(r.book, refs[1..], slot);
      }
    }
  }

  // ------------------------------------------------------- the repository

  class KnowledgeRepository {
    var pages: map<string, Page>
    var files: map<string, File>
    var refs: map<Slot, seq<string>>

    ghost function Snapshot(): Book
      reads this
    {
      Book(pages, files, refs)
    }

    constructor ()
      ensures Snapshot() == EMPTY
    {
      pages, files, refs := map[], map[], map[];
    }

    /** Replaces a list of references after checking each of them. */
    method ReplaceRefs(slot: Slot, ids: seq<string>) returns (error: Option<Error>)
      modifies `refs
      ensures error == RefError(files, slot.point, FirstOccurrences(ids))
      ensures Snapshot() == After(old(Snapshot()), RefsSet(old(Snapshot()), slot, ids))
    {
      var list := Dedupe(ids);
      error := CheckRefs(files, slot.point, list);
      if error.None? {
        refs := refs[slot := list];
      }
    }

    /** Saves a draft; a revision that is expected must be the current one. */
    method UpdatePage(point: string, text: string, expected: Option<int>) returns (error: Option<Error>)
      modifies `pages
      ensures error == if expected.Some? && expected.value != Revision(old(Snapshot()), point)
                       then Some(StaleRevision) else None
      ensures error.None? ==> point in pages && pages[point].draft == text
      ensures Snapshot() == After(old(Snapshot()), DraftSaved(old(Snapshot()), point, text, expected))
    {
      var revision := if point in pages then pages[point].revision else 0;
      if expected.Some? && expected.value != revision {
        return Some(StaleRevision);
      }
      var page := if point in pages then Some(pages[point]) else None;
      pages := pages[point := Drafted(page, revision, text)];
      return None;
    }

    /** Publishes the current draft, and with it a list of files. */
    method PublishPage(point: string, expected: int, ids: Option<seq<string>>) returns (error: Option<Error>)
      modifies `pages, `refs
      ensures error.Some? ==> PagePublished(old(Snapshot()), point, expected, ids) == Refused(error.value)
      ensures error.None? ==> PagePublished(old(Snapshot()), point, expected, ids) == Done(Snapshot())
      ensures Snapshot() == After(old(Snapshot()), PagePublished(old(Snapshot()), point, expected, ids))
    {
      if point !in pages {
        return Some(NoPage);
      }
      var p := pages[point];
      if expected != p.revision {
        return Some(StaleRevision);
      }
      if Blank(p.draft) {
        return Some(BlankDraft);
      }
      if ids.Some? {
        error := ReplaceRefs(Slot(point, true), ids.value);
        if error.Some? {
          return;
        }
      }
      pages := pages[point := p.(published := Some(Published(p.draft, p.revision)))];
      return None;
    }

    /** Makes the draft list of files the published one. */
    method PublishRefs(point: string)
      modifies `refs
      ensures RefsPublished(old(Snapshot()), point) == Done(Snapshot())
    {
      refs := refs[Slot(point, true) := At(refs, Slot(point, false))];
    }

    /** Reads what an update will write: the given content, or what the file has now. */
    method ReadForUpdate(id: string, content: Option<string>) returns (r: Option<string>)
      ensures r == if id in files then Some(if content.Some? then content.value else files[id].content) else None
    {
      if id !in files {
        return None;
      }
      return Some(if content.Some? then content.value else files[id].content);
    }

    /** Looks for a published reference to a file. */
    method IsPublished(id: string) returns (published: bool)
      ensures published <==> HasPublishedRef(Snapshot(), id)
    {
      PublishedRefs(Snapshot(), id);
      return exists slot :: slot in refs && slot.published && id in refs[slot];
    }

    /** Writes a file's content without looking again. */
    method WriteFile(id: string, content: string)
      modifies `files
      ensures Snapshot() == Next(old(Snapshot()), Step.WriteFile(id, content))
    {
      if id in files {
        files := files[id := files[id].(content := content)];
      }
    }

    /** An update that nobody interferes with: refused for a missing or a published file, written otherwise. */
    method UpdateFile(id: string, content: Option<string>) returns (error: Option<Error>)
      modifies `files
      ensures error == if id !in old(files) then Some(NoFile)
                       else if HasPublishedRef(old(Snapshot()), id) then Some(Error.IsPublished)
                       else None
      ensures error.Some? ==> Snapshot() == old(Snapshot())
      ensures error.None? ==>
                && Snapshot() == old(Snapshot()).(files := files) && files.Keys == old(files.Keys)
                && (content.Some? ==> files[id] == old(files)[id].(content := content.value))
                && (content.None? ==> files[id] == old(files)[id])
                && forall x :: x in files && x != id ==> files[x] == old(files)[x]
    {
      var text := ReadForUpdate(id, content);
      if text.None? {
        return Some(NoFile);
      }
      var published := IsPublished(id);
      if published {
        return Some(Error.IsPublished);
      }
      WriteFile(id, text.value);
      return None;
    }

    /** Deletes a file that no list refers to. */
    method DeleteFile(id: string) returns (error: Option<Error>, deleted: bool)
      modifies `files
      ensures error.Some? ==> FileDeleted(old(Snapshot()), id) == Refused(error.value)
      ensures error.None? ==> FileDeleted(old(Snapshot()), id) == Done(Snapshot())
      ensures Snapshot() == After(old(Snapshot()), FileDeleted(old(Snapshot()), id))
      ensures deleted <==> error.None? && id in old(files)
    {
      var referenced := exists slot :: slot in refs && id in refs[slot];
      AnyRefs(Snapshot(), id);
      if referenced {
        return Some(IsReferenced), false;
      }
      deleted := id in files;
      files := files - {id};
      return None, deleted;
    }

    /** Takes a package of pages and draft references, all of it or nothing. */
    method ApplyImport(items: seq<Item>, fileRefs: seq<Refs>) returns (error: Option<Error>)
      modifies `pages, `refs
      ensures error.Some? ==> Imported(old(Snapshot()), items, fileRefs) == Refused(error.value)
      ensures error.None? ==> Imported(old(Snapshot()), items, fileRefs) == Done(Snapshot())
      ensures error.Some? ==> Snapshot() == old(Snapshot())
    {
      var r := ImportInto(Book(pages, files, refs), items, fileRefs);
      if r.Refused? {
        return Some(r.error);
      }
      pages, refs := r.book.pages, r.book.refs;
      ImportKeepsFiles(old(Snapshot()), items, fileRefs);
      return None;
    }
  }

  lemma PublishedRefs(b: Book, id: string)
    ensures HasPublishedRef(b, id) <==> exists slot :: slot in b.refs && slot.published && id in b.refs[slot]
  {
    if slot :| slot in b.refs && slot.published && id in b.refs[slot] {
      assert slot == Slot(slot.point, true);
      assert Referenced(b, id, Slot(slot.point, true));
    }
  }

  lemma AnyRefs(b: Book, id: string)
    ensures HasRef(b, id) <==> exists slot :: slot in b.refs && id in b.refs[slot]
  {
    if slot :| slot in b.refs && id in b.refs[slot] {
      assert Referenced(b, id, slot);
    }
  }

  lemma {:induction false} WrittenKeepsFiles(b: Book, before: map<string, Page>, items: seq<Item>)
    requires forall i :: 0 <= i < |items| ==> items[i].expected >= 0
    ensures PagesWritten(b, before, items).Done? ==> PagesWritten(b, before, items).book.files == b.files
    decreases |items|
  {
    if items != [] {
      var item := items[0];
      WrittenKeepsFiles(
        b.(pages := b.pages[item.point := Drafted(PageOf(b, item.point), item.expected, item.text)]), before, items[1..]);
    }
  }

  lemma {:induction false} RefsKeepFiles(b: Book, refs: seq<Refs>)
    ensures AllRefsSet(b, refs).Done? ==> AllRefsSet(b, refs).book.files == b.files
    decreases |refs|
  {
    if refs != [] {
      var r := RefsSet(b, Slot(refs[0].point, false), refs[0].ids);
      if r.Done? {
        RefsKeepFiles(r.book, refs[1..]);
      }
    }
  }

  lemma ImportKeepsFiles(b: Book, items: seq<Item>, refs: seq<Refs>)
    ensures After(b, Imported(b, items, refs)).files == b.files
  {
    if Imported(b, items, refs).Done? {
      CurrentIsNatural(b, items);
      WrittenKeepsFiles(b, b.pages, items);
      RefsKeepFiles(PagesWritten(b, b.pages, items).book, refs);
    }
  }

  /** Checks every revision, then writes the pages, then the references. */
  method ImportInto(b: Book, items: seq<Item>, refs: seq<Refs>) returns (r: Result)
    ensures r == Imported(b, items, refs)
  {
    for i := 0 to |items|
      invariant forall k :: 0 <= k < i ==> items[k].expected == Revision(b, items[k].point)
    {
      if items[i].expected != Revision(b, items[i].point) {
        return Refused(StaleRevision);
      }
    }
    CurrentIsNatural(b, items);
    var now := b;
    for i := 0 to |items|
      invariant PagesWritten(b, b.pages, items) == PagesWritten(now, b.pages, items[i..])
    {
      var item := items[i];
      assert items[i..][0] == item && items[i..][1..] == items[i + 1..];
      if item.point !in b.pages && item.point in now.pages {
        return Refused(Twice);
      }
      now := now.(pages := now.pages[item.point := Drafted(PageOf(now, item.point), item.expected, item.text)]);
    }
    ghost var written := now;
    for i := 0 to |refs|
      invariant AllRefsSet(written, refs) == AllRefsSet(now, refs[i..])
    {
      var slot := Slot(refs[i].point, false);
      assert refs[i..][0] == refs[i] && refs[i..][1..] == refs[i + 1..];
      var list := Dedupe(refs[i].ids);
      var error := CheckRefs(now.files, slot.point, list);
      if error.Some? {
        return Refused(error.value);
      }
      now := now.(refs := now.refs[slot := list]);
    }
    return Done(now);
  }

  /** Keeps the first of equal ids. */
  method Dedupe(ids: seq<string>) returns (list: seq<string>)
    ensures list == FirstOccurrences(ids)
  {
    list := [];
    for i := 0 to |ids|
      invariant list == FirstOccurrences(ids[..i])
    {
      SameMembers(ids[..i]);
      assert ids[..i + 1][..i] == ids[..i];
      if ids[i] !in list {
        list := list + [ids[i]];
      }
    }
    assert ids[..|ids|] == ids;
  }

  method CheckRefs(files: map<string, File>, point: string, ids: seq<string>) returns (error: Option<Error>)
    ensures error == RefError(files, point, ids)
  {
    for i := 0 to |ids|
      invariant RefError(files, point, ids) == RefError(files, point, ids[i..])
    {
      if ids[i] !in files {
        return Some(NoFile);
      }
      if files[ids[i]].point != point {
        return Some(OtherPoint);
      }
    }
    return None;
  }
}
