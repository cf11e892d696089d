/** What each step of a recording or grading call does, and that it does nothing to any other call. */
module ExerciseEffects {
  import opened Collections
  import opened ExerciseSessions

  /** Call `w` is now `c`; the session and every other call are as they were. */
  predicate Becomes(n: State, s: State, w: string, c: Call) {
    n == State(s.session, s.calls[w := c])
  }

  /** Call `w` is over and has left this session; every other call is as it was. */
  predicate EndsWith(n: State, s: State, w: string, session: Session) {
    n == State(session, s.calls - {w})
  }

  /** A recording call opens with a text, in an active session only. */
  lemma RecordOpens(s: State, w: string, text: string)
    requires w !in s.calls
    ensures var n := Next(s, StartRecord(w, text));
            if |text| > 0 && s.session.status == Active then Becomes(n, s, w, Recording(text, false)) else n == s
  {
  }

  /** It goes on only while the session has no question. */
  lemma RecordLooks(s: State, w: string, text: string)
    requires w in s.calls && s.calls[w] == Recording(text, false)
    ensures var n := Next(s, LookRecord(w));
            if |s.session.questions| == 0 then Becomes(n, s, w, Recording(text, true)) else EndsWith(n, s, w, s.session)
  {
  }

  /** It writes its text as an open question, unless another call has written one by then. */
  lemma RecordWrites(s: State, w: string, text: string)
    requires w in s.calls && s.calls[w] == Recording(text, true)
    ensures EndsWith(Next(s, WriteRecord(w)), s, w,
              if |s.session.questions| == 0 then s.session.(questions := [Question(text, true)]) else s.session)
  {
  }

  /** A grading call opens in an active session only. */
  lemma GradeOpens(s: State, w: string, answer: string, score: Option<int>)
    requires w !in s.calls
    ensures var n := Next(s, StartGrade(w, answer, score));
            if s.session.status == Active then Becomes(n, s, w, Call.Grading(answer, score, false, None)) else n == s
  {
  }

  /** It goes on only with an open question and a result that was accepted. */
  lemma GradeLooks(s: State, w: string, answer: string, score: Option<int>)
    requires w in s.calls && s.calls[w] == Call.Grading(answer, score, false, None)
    ensures var n := Next(s, LookGrade(w));
            if score.Some? && exists q :: q in s.session.questions && q.awaiting
            then Becomes(n, s, w, Call.Grading(answer, score, true, None))
            else EndsWith(n, s, w, s.session)
  {
  }

  /** It takes the number of attempts there are. */
  lemma GradeCounts(s: State, w: string, answer: string, score: Option<int>)
    requires w in s.calls && s.calls[w] == Call.Grading(answer, score, true, None)
    ensures Becomes(Next(s, CountAttempts(w)), s, w, Call.Grading(answer, score, true, Some(|s.session.attempts|)))
  {
  }

  /** The session with one more attempt and piece of evidence, its question answered and itself completed, unless it
      has evidence of that number. */
  ghost predicate Recorded(n: Session, s: Session, a: Attempt)
    requires s.questions != []
  {
    if exists i :: 0 <= i < |s.evidence| && s.evidence[i].number == a.number then n == s
    else n == Session(Completed, [s.questions[0].(awaiting := false)], s.attempts + [a], s.evidence + [a])
  }

  lemma WriteRecords(s: Session, a: Attempt)
    requires |s.questions| == 1
    ensures Recorded(AttemptWritten(s, a), s, a)
  {
    AnsweredOne(s.questions[0]);
    assert s.questions == [s.questions[0]];
  }

  /** It records its answer and score with the number it has taken, one above the attempts it counted. */
  lemma GradeWrites(s: State, w: string, answer: string, x: int, count: nat)
    requires Ok(s) && w in s.calls && s.calls[w] == Call.Grading(answer, Some(x), true, Some(count))
    ensures var n := Next(s, WriteGrade(w));
            && s.session.questions != [] && Recorded(n.session, s.session, Attempt(answer, count + 1, x))
            && EndsWith(n, s, w, n.session)
  {
    assert CallOk(s.session, s.calls[w]);
    WriteRecords(s.session, Attempt(answer, count + 1, x));
  }

  /** Only an active session is closed, as completed, cancelled or expired. */
  lemma CloseEffect(s: State, status: Status)
    ensures Next(s, Close(status))
            == if s.session.status == Active && status in {Completed, Cancelled, Expired}
               then s.(session := s.session.(status := status)) else s
  {
  }
}
