/** What each act of an overlapping update does to its own call, and that it does nothing to any other. */
module UpdateCalls {
  import opened Collections
  import opened KnowledgeBook
  import opened FileUpdates

  /** A call opens for a file that exists, with the new content or, without one, the content it has read. */
  lemma BeginEffect(s: FileUpdates.State, w: string, id: string, content: Option<string>)
    requires w !in s.calls
    ensures var n := Acted(s, Begin(w, id, content));
            && n.book == s.book
            && (id !in s.book.files ==> n.calls == s.calls)
            && (id in s.book.files ==>
                  && w in n.calls && n.calls == s.calls[w := n.calls[w]]
                  && n.calls[w].id == id && !n.calls[w].checked && !n.calls[w].overtaken
                  && n.calls[w].content == (if content.Some? then content.value else s.book.files[id].content))
  {
  }

  /** The check ends the call exactly if some published list has the file. */
  lemma CheckEffect(s: FileUpdates.State, w: string)
    requires w in s.calls && !s.calls[w].checked
    ensures var n := Acted(s, FileUpdates.Check(w));
            && n.book == s.book
            && (HasPublishedRef(s.book, s.calls[w].id) ==> n.calls == s.calls - {w})
            && (!HasPublishedRef(s.book, s.calls[w].id) ==>
                  w in n.calls && n.calls == s.calls[w := n.calls[w]] && n.calls[w] == s.calls[w].(checked := true))
  {
  }

  /** A checked call writes its content into its file and into nothing else, and is over. */
  lemma FinishEffect(s: FileUpdates.State, w: string)
    requires w in s.calls && s.calls[w].checked
    ensures var n, c := Acted(s, Finish(w)), s.calls[w];
            && n.calls == s.calls - {w} && n.book.pages == s.book.pages
            && n.book.files.Keys == s.book.files.Keys
            && (c.id in s.book.files ==> n.book.files[c.id].content == c.content)
            && forall x :: x in s.book.files && x != c.id ==> n.book.files[x] == s.book.files[x]
  {
  }

  /** An operation of the book leaves every call as it was, but for the note that it was overtaken. */
  lemma OtherEffect(s: FileUpdates.State, step: KnowledgeBook.Step, w: string)
    requires w in s.calls && !step.WriteFile?
    ensures var n := Acted(s, Other(step));
            && n.book == KnowledgeBook.Next(s.book, step) && n.calls.Keys == s.calls.Keys
            && n.calls[w].(overtaken := s.calls[w].overtaken) == s.calls[w]
            && (n.calls[w].overtaken <==>
                  s.calls[w].overtaken || (s.calls[w].checked && HasPublishedRef(n.book, s.calls[w].id)))
  {
  }

  /** What is not possible does nothing: a second call of a name, a second check, an end without a check, and a write
      that no call makes. */
  lemma NothingElse(s: FileUpdates.State, a: Act)
    requires match a
             case Begin(w, _, _) => w in s.calls
             case Check(w) => w !in s.calls || s.calls[w].checked
             case Finish(w) => w !in s.calls || !s.calls[w].checked
             case Other(step) => step.WriteFile?
    ensures Acted(s, a).book == s.book && Acted(s, a).calls.Keys == s.calls.Keys
  {
  }
}
