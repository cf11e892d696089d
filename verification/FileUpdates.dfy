/** Updates of files by several callers at once.

    An update reads the file, looks for a published reference and writes, each
    in its own transaction; anything may happen between them. */
module FileUpdates {
  import opened Collections
  import opened KnowledgeBook

  /** A call that has read its file.  `checked` says that it found no published reference; `overtaken`, which no
      step reads, that the file was published after the check. */
  datatype Call = Call(id: string, content: string, checked: bool, overtaken: bool)

  datatype State = State(book: Book, calls: map<string, Call>)

  const START := State(KnowledgeBook.EMPTY, map[])

  /** `Other` is any operation of the book but a write, which only calls make. */
  datatype Act =
    | Other(step: Step)
    | Begin(w: string, id: string, content: Option<string>)
    | Check(w: string)
    | Finish(w: string)

  /** Notes which checked calls a step has overtaken. */
  ghost function Noted(calls: map<string, Call>, b: Book): map<string, Call> {
    map w | w in calls ::
      calls[w].(overtaken := calls[w].overtaken || (calls[w].checked && HasPublishedRef(b, calls[w].id)))
  }

  /** The step of the book that an act makes, if it makes one. */
  function StepOf(s: State, a: Act): Option<Step> {
    match a
    case Other(step) => if step.WriteFile? then None else Some(step)
    case Finish(w) =>
      if w in s.calls && s.calls[w].checked then Some(WriteFile(s.calls[w].id, s.calls[w].content)) else None
    case _ => None
  }

  ghost function Acted(s: State, a: Act): State {
    var b := if StepOf(s, a).Some? then Next(s.book, StepOf(s, a).value) else s.book;
    match a
    case Other(_) => State(b, Noted(s.calls, b))
    case Begin(w, id, content) =>
      if w in s.calls || id !in s.book.files then s
      else
        var text := if content.Some? then content.value else s.book.files[id].content;
        s.(calls := s.calls[w := Call(id, text, false, false)])
    case Check(w) =>
      if w !in s.calls || s.calls[w].checked then s
      else if HasPublishedRef(s.book, s.calls[w].id) then s.(calls := s.calls - {w})
      else s.(calls := s.calls[w := s.calls[w].(checked := true)])
    case Finish(w) =>
      if StepOf(s, a).Some? then State(b, s.calls - {w}) else s
  }

  ghost function Play(s: State, acts: seq<Act>): State
    decreases |acts|
  {
    if acts == [] then s else Play(Acted(s, acts[0]), acts[1..])
  }

  /** The steps of the book that the acts make. */
  ghost function StepsOf(s: State, acts: seq<Act>): seq<Step>
    decreases |acts|
  {
    if acts == [] then []
    else (if StepOf(s, acts[0]).Some? then [StepOf(s, acts[0]).value] else []) + StepsOf(Acted(s, acts[0]), acts[1..])
  }

  /** What calls do to the book is a run of the book, so everything proved about runs of the book holds. */
  lemma {:induction false} CallsRunTheBook(s: State, acts: seq<Act>)
    ensures Play(s, acts).book == Run(s.book, StepsOf(s, acts))
    decreases |acts|
  {
    if acts != [] {
      var rest := StepsOf(Acted(s, acts[0]), acts[1..]);
      CallsRunTheBook(Acted(s, acts[0]), acts[1..]);
      if StepOf(s, acts[0]).Some? {
        assert ([StepOf(s, acts[0]).value] + rest)[1..] == rest;
      } else {
        assert [] + rest == rest;
      }
    }
  }

  /** A checked call whose file is published by now has been overtaken. */
  ghost predicate Aware(s: State) {
    && PagesOk(s.book) && RefsOk(s.book)
    && forall w :: w in s.calls && s.calls[w].checked && HasPublishedRef(s.book, s.calls[w].id)
         ==> s.calls[w].overtaken
  }

  lemma WriteKeepsLists(b: Book, id: string, content: string, x: string)
    ensures HasPublishedRef(Next(b, WriteFile(id, content)), x) <==> HasPublishedRef(b, x)
  {
    var r := Next(b, WriteFile(id, content));
    forall point
      ensures Referenced(r, x, Slot(point, true)) <==> Referenced(b, x, Slot(point, true))
    {
    }
  }

  lemma ActKeepsAware(s: State, a: Act)
    requires Aware(s)
    ensures Aware(Acted(s, a))
  {
    if StepOf(s, a).Some? {
      StepKeepsOk(s.book, StepOf(s, a).value);
    }
    if a.Finish? && StepOf(s, a).Some? {
      forall x
        ensures HasPublishedRef(Acted(s, a).book, x) <==> HasPublishedRef(s.book, x)
      {
        WriteKeepsLists(s.book, s.calls[a.w].id, s.calls[a.w].content, x);
      }
    }
  }

  lemma {:induction false} PlayKeepsAware(s: State, acts: seq<Act>)
    requires Aware(s)
    ensures Aware(Play(s, acts))
    decreases |acts|
  {
    if acts != [] {
      ActKeepsAware(s, acts[0]);
      PlayKeepsAware(Acted(s, acts[0]), acts[1..]);
    }
  }

  /** The act is the write of a call whose file was published after its check, is still published, and has other
      content. */
  ghost predicate WritesLate(s: State, a: Act) {
    && a.Finish? && a.w in s.calls && s.calls[a.w].checked
    && s.calls[a.w].overtaken
    && HasPublishedRef(s.book, s.calls[a.w].id)
    && s.calls[a.w].id in s.book.files && s.book.files[s.calls[a.w].id].content != s.calls[a.w].content
  }

  /** Published files are there after the act, with the content they had. */
  ghost predicate ActKeepsPublished(s: State, a: Act) {
    forall id :: HasPublishedRef(s.book, id) ==>
      id in s.book.files && id in Acted(s, a).book.files && Acted(s, a).book.files[id] == s.book.files[id]
  }

  /** In every reachable state an act changes or removes a published file exactly when it writes late. */
  lemma ActKeepsPublishedIff(s: State, a: Act)
    requires Aware(s)
    ensures ActKeepsPublished(s, a) <==> !WritesLate(s, a)
  {
    if StepOf(s, a).Some? {
      StepKeepsPublishedIff(s.book, StepOf(s, a).value);
    } else {
      forall id | HasPublishedRef(s.book, id)
        ensures id in s.book.files
      {
        PublishedFileExists(s.book, id);
      }
    }
  }

  ghost predicate AllKeepPublished(s: State, acts: seq<Act>)
    decreases |acts|
  {
    acts == [] || (ActKeepsPublished(s, acts[0]) && AllKeepPublished(Acted(s, acts[0]), acts[1..]))
  }

  ghost predicate NobodyWritesLate(s: State, acts: seq<Act>)
    decreases |acts|
  {
    acts == [] || (!WritesLate(s, acts[0]) && NobodyWritesLate(Acted(s, acts[0]), acts[1..]))
  }

  /** Over every run of overlapping calls published content is kept if and only if nobody writes late. */
  lemma {:induction false} PlayKeepsPublishedIff(s: State, acts: seq<Act>)
    requires Aware(s)
    ensures AllKeepPublished(s, acts) <==> NobodyWritesLate(s, acts)
    decreases |acts|
  {
    if acts != [] {
      ActKeepsPublishedIff(s, acts[0]);
      ActKeepsAware(s, acts[0]);
      PlayKeepsPublishedIff(Acted(s, acts[0]), acts[1..]);
    }
  }

  /** A book with one file, which a draft list refers to. */
  function OneFile(point: string, id: string, text: string): Book {
    Book(map[], map[id := File(point, text)], map[Slot(point, false) := [id]])
  }

  lemma OneFileIsReached(point: string, id: string, text: string)
    ensures Run(KnowledgeBook.EMPTY, [AddFile(id, File(point, text)), SetRefs(Slot(point, false), [id])])
            == OneFile(point, id, text)
  {
    var b := Next(KnowledgeBook.EMPTY, AddFile(id, File(point, text)));
    var slot := Slot(point, false);
    assert [id][..0] == [] && FirstOccurrences([id]) == [id];
    NoRefError(b.files, point, [id]);
    assert Next(b, SetRefs(slot, [id])) == b.(refs := b.refs[slot := [id]]);
    assert [AddFile(id, File(point, text)), SetRefs(slot, [id])][1..] == [SetRefs(slot, [id])];
    assert Run(b, [SetRefs(slot, [id])]) == Next(b, SetRefs(slot, [id]));
  }

  /** The same update with a publication between its check and its write: a published file changes.  The book that
      it starts from is reachable (`OneFileIsReached`). */
  lemma LateWriteChangesPublished(point: string, id: string, w: string, text: string, other: string)
    requires text != other
    ensures var s := State(OneFile(point, id, text), map[]);
            var before := Play(s, [Begin(w, id, Some(other)), Check(w), Other(PublishRefs(point))]);
            var after := Acted(before, Finish(w));
            && HasPublishedRef(before.book, id) && id in before.book.files && before.book.files[id].content == text
            && HasPublishedRef(after.book, id) && id in after.book.files && after.book.files[id].content == other
  {
    var s := State(OneFile(point, id, text), map[]);
    var read := Acted(s, Begin(w, id, Some(other)));
    assert read.calls[w] == Call(id, other, false, false);
    NotPublished(point, id, text);
    var checked := Acted(read, Check(w));
    assert checked.calls[w] == Call(id, other, true, false) && checked.book == s.book;
    var published := Acted(checked, Other(PublishRefs(point)));
    assert Referenced(published.book, id, Slot(point, true));
    assert published.calls[w].checked && published.calls[w].content == other;
    PlayThree(s, Begin(w, id, Some(other)), Check(w), Other(PublishRefs(point)));
    WriteKeepsLists(published.book, id, other, id);
  }

  lemma NotPublished(point: string, id: string, text: string)
    ensures !HasPublishedRef(OneFile(point, id, text), id)
  {
    forall p
      ensures !Referenced(OneFile(point, id, text), id, Slot(p, true))
    {
    }
  }

  lemma PlayThree(s: State, a: Act, b: Act, c: Act)
    ensures Play(s, [a, b, c]) == Acted(Acted(Acted(s, a), b), c)
  {
    assert [a, b, c][1..] == [b, c] && [b, c][1..] == [c] && [c][1..] == [];
    assert Play(Acted(s, a), [b, c]) == Play(Acted(Acted(s, a), b), [c]);
  }
}
