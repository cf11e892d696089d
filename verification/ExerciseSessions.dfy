/** What an exercise session records.

    Recording a question and grading an answer read in several transactions and
    write in a last one, so calls can overlap; two of the database's uniqueness
    rules decide what an overlap can do. */
module ExerciseSessions {
  import opened Collections
  import opened Grading

  datatype Status = Active | Completed | Cancelled | Expired

  datatype Question = Question(text: string, awaiting: bool)

  datatype Attempt = Attempt(answer: string, number: nat, score: int)

  datatype Session = Session(status: Status, questions: seq<Question>, attempts: seq<Attempt>, evidence: seq<Attempt>)

  const NEW_SESSION := Session(Active, [], [], [])

  predicate Awaiting(s: Session) {
    exists i :: 0 <= i < |s.questions| && s.questions[i].awaiting
  }

  /** The last question without an answer is answered. */
  function Answered(q: seq<Question>): seq<Question> {
    if q == [] then []
    else
      var last := q[|q| - 1];
      if last.awaiting then q[..|q| - 1] + [last.(awaiting := false)] else Answered(q[..|q| - 1]) + [last]
  }

  /** The write of a question, whose sequence number is always one; a second question of that number is refused. */
  function QuestionWritten(s: Session, text: string): Session {
    if s.questions != [] then s else s.(questions := [Question(text, true)])
  }

  /** The write of an attempt with its evidence; a second piece of evidence with that number is refused. */
  function AttemptWritten(s: Session, a: Attempt): Session {
    if exists i :: 0 <= i < |s.evidence| && s.evidence[i].number == a.number then s
    else Session(Completed, Answered(s.questions), s.attempts + [a], s.evidence + [a])
  }

  // ----------------------------------------------------------------- calls

  /** A call that has found its session active.  `score` is what grading comes to, if the result is accepted. */
  datatype Call =
    | Recording(text: string, looked: bool)
    | Grading(answer: string, score: Option<int>, looked: bool, counted: Option<nat>)

  datatype State = State(session: Session, calls: map<string, Call>)

  const START := State(NEW_SESSION, map[])

  datatype Step =
    | StartRecord(w: string, text: string)
    | LookRecord(w: string)
    | WriteRecord(w: string)
    | StartGrade(w: string, answer: string, score: Option<int>)
    | LookGrade(w: string)
    | CountAttempts(w: string)
    | WriteGrade(w: string)
    | Close(status: Status)

  function Goes(s: State, w: string, c: Call): State {
    s.(calls := s.calls[w := c])
  }

  function Ends(s: State, w: string): State {
    s.(calls := s.calls - {w})
  }

  function Next(s: State, step: Step): State {
    match step
    case StartRecord(w, text) =>
      if w in s.calls || text == "" || s.session.status != Active then s else Goes(s, w, Recording(text, false))
    case LookRecord(w) =>
      if w !in s.calls || !s.calls[w].Recording? || s.calls[w].looked then s
      else if Awaiting(s.session) || |s.session.questions| >= 1 then Ends(s, w)
      else Goes(s, w, Recording(s.calls[w].text, true))
    case WriteRecord(w) =>
      if w !in s.calls || !s.calls[w].Recording? || !s.calls[w].looked then s
      else Ends(s, w).(session := QuestionWritten(s.session, s.calls[w].text))
    case StartGrade(w, answer, score) =>
      if w in s.calls || s.session.status != Active then s else Goes(s, w, Grading(answer, score, false, None))
    case LookGrade(w) =>
      if w !in s.calls || !s.calls[w].Grading? || s.calls[w].looked then s
      else if !Awaiting(s.session) || s.calls[w].score.None? then Ends(s, w)
      else Goes(s, w, Grading(s.calls[w].answer, s.calls[w].score, true, None))
    case CountAttempts(w) =>
      if w !in s.calls || !s.calls[w].Grading? || !s.calls[w].looked || s.calls[w].counted.Some? then s
      else Goes(s, w, Grading(s.calls[w].answer, s.calls[w].score, true, Some(|s.session.attempts|)))
    case WriteGrade(w) =>
      if w !in s.calls || !s.calls[w].Grading? || s.calls[w].counted.None? || s.calls[w].score.None? then s
      else
        var a := Attempt(s.calls[w].answer, s.calls[w].counted.value + 1, s.calls[w].score.value);
        Ends(s, w).(session := AttemptWritten(s.session, a))
    case Close(status) =>
      if s.session.status != Active || status == Active then s else s.(session := s.session.(status := status))
  }

  function Run(s: State, steps: seq<Step>): State
    decreases |steps|
  {
    if steps == [] then s else Run(Next(s, steps[0]), steps[1..])
  }

  /** At most one question; attempts and evidence agree and are numbered from one on; an answer completes. */
  predicate SessionOk(s: Session) {
    && |s.questions| <= 1 && s.evidence == s.attempts
    && (forall i :: 0 <= i < |s.attempts| ==> s.attempts[i].number == i + 1)
    && (s.attempts != [] ==> s.status == Completed && s.questions != [] && !s.questions[0].awaiting)
    && (s.attempts == [] && s.questions != [] ==> s.questions[0].awaiting)
  }

  predicate CallOk(s: Session, c: Call) {
    c.Grading? ==>
      && (c.looked ==> s.questions != [] && c.score.Some?)
      && (c.counted.Some? ==> c.looked && c.counted.value <= |s.attempts|)
  }

  ghost predicate Ok(s: State) {
    SessionOk(s.session) && forall w :: w in s.calls ==> CallOk(s.session, s.calls[w])
  }

  lemma WriteKeepsSession(s: Session, a: Attempt)
    requires SessionOk(s) && s.questions != [] && 1 <= a.number <= |s.attempts| + 1
    ensures SessionOk(AttemptWritten(s, a))
    ensures |AttemptWritten(s, a).attempts| == |s.attempts| + if a.number == |s.attempts| + 1 then 1 else 0
  {
    AnsweredOne(s.questions[0]);
    assert s.questions == [s.questions[0]];
    if a.number <= |s.attempts| {
      assert s.evidence[a.number - 1].number == a.number;
    }
  }

  lemma AnsweredOne(q: Question)
    ensures Answered([q]) == [q.(awaiting := false)]
  {
    assert [q][..0] == [];
    assert Answered([]) == [];
  }

  lemma StepKeepsOk(s: State, step: Step)
    requires Ok(s)
    ensures Ok(Next(s, step))
    ensures s.session.attempts <= Next(s, step).session.attempts
  {
    if step.WriteGrade? && Next(s, step) != s {
      var c := s.calls[step.w];
      WriteKeepsSession(s.session, Attempt(c.answer, c.counted.value + 1, c.score.value));
    }
  }

  lemma {:induction false} RunKeepsOk(s: State, steps: seq<Step>)
    requires Ok(s)
    ensures Ok(Run(s, steps))
    ensures s.session.attempts <= Run(s, steps).session.attempts
    decreases |steps|
  {
    if steps != [] {
      StepKeepsOk(s, steps[0]);
      RunKeepsOk(Next(s, steps[0]), steps[1..]);
    }
  }

  /** Over every run, however calls overlap, a session has at most one question, its attempts are numbered without gaps
      or repetitions, and its evidence is the same list. */
  lemma OneQuestion(steps: seq<Step>, i: nat)
    ensures var s := Run(START, steps).session;
            |s.questions| <= 1 && s.evidence == s.attempts && (i < |s.attempts| ==> s.attempts[i].number == i + 1)
  {
    RunKeepsOk(START, steps);
  }

  /** The step writes an attempt whose number was taken after another attempt had been written. */
  predicate WritesRecount(s: State, step: Step) {
    && step.WriteGrade? && step.w in s.calls && s.calls[step.w].Grading? && s.calls[step.w].score.Some?
    && s.calls[step.w].counted.Some? && s.calls[step.w].counted.value >= 1
  }

  predicate NeverRecounts(s: State, steps: seq<Step>)
    decreases |steps|
  {
    steps == [] || (!WritesRecount(s, steps[0]) && NeverRecounts(Next(s, steps[0]), steps[1..]))
  }

  lemma StepAddsSecondIff(s: State, step: Step)
    requires Ok(s) && |s.session.attempts| <= 1
    ensures |Next(s, step).session.attempts| <= 1 <==> !WritesRecount(s, step)
  {
    if step.WriteGrade? && Next(s, step) != s {
      var c := s.calls[step.w];
      WriteKeepsSession(s.session, Attempt(c.answer, c.counted.value + 1, c.score.value));
    }
  }

  /** A run ends with at most one attempt and one piece of evidence if and only if no call writes after it has counted
      another call's attempt. */
  lemma {:induction false} OneAttemptIffNoRecount(s: State, steps: seq<Step>)
    requires Ok(s) && |s.session.attempts| <= 1
    ensures |Run(s, steps).session.attempts| <= 1 <==> NeverRecounts(s, steps)
    decreases |steps|
  {
    if steps != [] {
      StepAddsSecondIff(s, steps[0]);
      StepKeepsOk(s, steps[0]);
      if WritesRecount(s, steps[0]) {
        RunKeepsOk(Next(s, steps[0]), steps[1..]);
      } else {
        OneAttemptIffNoRecount(Next(s, steps[0]), steps[1..]);
      }
    }
  }

  /** Grading calls that do not overlap: one starts only when no other is open. */
  ghost predicate OneAtATime(s: State, steps: seq<Step>)
    decreases |steps|
  {
    steps == [] || (
      && (steps[0].StartGrade? ==> forall v :: v in s.calls ==> !s.calls[v].Grading?)
      && OneAtATime(Next(s, steps[0]), steps[1..]))
  }

  ghost predicate Lone(s: State) {
    && (forall w :: w in s.calls && s.calls[w].Grading? ==> s.session.attempts == [])
    && (forall w, v :: w in s.calls && v in s.calls && s.calls[w].Grading? && s.calls[v].Grading? ==> w == v)
    && |s.session.attempts| <= 1
  }

  lemma StepKeepsLone(s: State, step: Step)
    requires Ok(s) && Lone(s)
    requires step.StartGrade? ==> forall v :: v in s.calls ==> !s.calls[v].Grading?
    ensures Lone(Next(s, step))
  {
  }

  lemma {:induction false} RunKeepsLone(s: State, steps: seq<Step>)
    requires Ok(s) && Lone(s) && OneAtATime(s, steps)
    ensures Ok(Run(s, steps)) && Lone(Run(s, steps))
    decreases |steps|
  {
    if steps != [] {
      StepKeepsOk(s, steps[0]);
      StepKeepsLone(s, steps[0]);
      RunKeepsLone(Next(s, steps[0]), steps[1..]);
    }
  }

  /** When grading calls do not overlap a session has at most one question, one attempt and one piece of evidence. */
  lemma OneOfEach(steps: seq<Step>)
    requires OneAtATime(START, steps)
    ensures var s := Run(START, steps).session;
            |s.questions| <= 1 && |s.attempts| <= 1 && s.evidence == s.attempts
  {
    RunKeepsLone(START, steps);
  }

  /** A session with its question. */
  function Asked(q: string): State {
    State(NEW_SESSION.(questions := [Question(q, true)]), map[])
  }

  /** Two calls that overlap can leave two attempts: the first looks before and counts after the second has written.
      The session that they start from is reachable (`RecordAlone`). */
  lemma OverlapLeavesTwoAttempts(q: string, a: string, b: string, v: string, w: string, x: int, y: int)
    requires v != w
    ensures Run(Asked(q), [StartGrade(v, a, Some(x)), LookGrade(v), StartGrade(w, b, Some(y)), LookGrade(w)]
                          + [CountAttempts(w), WriteGrade(w), CountAttempts(v), WriteGrade(v)]).session.attempts
            == [Attempt(b, 1, y), Attempt(a, 2, x)]
  {
    var s := Asked(q);
    BothLook(q, a, b, v, w, x, y);
    BothWrite(q, a, b, v, w, x, y);
    RunConcat(s, [StartGrade(v, a, Some(x)), LookGrade(v), StartGrade(w, b, Some(y)), LookGrade(w)],
              [CountAttempts(w), WriteGrade(w), CountAttempts(v), WriteGrade(v)]);
  }

  function BothOpen(q: string, a: string, b: string, v: string, w: string, x: int, y: int): State {
    State(Asked(q).session, map[v := Grading(a, Some(x), true, None), w := Grading(b, Some(y), true, None)])
  }

  lemma BothLook(q: string, a: string, b: string, v: string, w: string, x: int, y: int)
    requires v != w
    ensures Run(Asked(q), [StartGrade(v, a, Some(x)), LookGrade(v), StartGrade(w, b, Some(y)), LookGrade(w)])
            == BothOpen(q, a, b, v, w, x, y)
  {
    var s := Asked(q);
    assert Awaiting(s.session) by {
      assert s.session.questions[0].awaiting;
    }
    RunFour(s, StartGrade(v, a, Some(x)), LookGrade(v), StartGrade(w, b, Some(y)), LookGrade(w));
    var looked := Next(Next(s, StartGrade(v, a, Some(x))), LookGrade(v));
    assert looked.calls == map[v := Grading(a, Some(x), true, None)] && looked.session == s.session;
    var both := Next(Next(looked, StartGrade(w, b, Some(y))), LookGrade(w));
    assert both.calls == BothOpen(q, a, b, v, w, x, y).calls && both.session == s.session;
  }

  lemma BothWrite(q: string, a: string, b: string, v: string, w: string, x: int, y: int)
    requires v != w
    ensures Run(BothOpen(q, a, b, v, w, x, y), [CountAttempts(w), WriteGrade(w), CountAttempts(v), WriteGrade(v)])
            .session.attempts == [Attempt(b, 1, y), Attempt(a, 2, x)]
  {
    var both := BothOpen(q, a, b, v, w, x, y);
    RunFour(both, CountAttempts(w), WriteGrade(w), CountAttempts(v), WriteGrade(v));
    SecondWrites(q, a, b, v, w, x, y);
    FirstWrites(Next(Next(both, CountAttempts(w)), WriteGrade(w)), a, b, v, x, y);
  }

  lemma SecondWrites(q: string, a: string, b: string, v: string, w: string, x: int, y: int)
    requires v != w
    ensures var s := Next(Next(BothOpen(q, a, b, v, w, x, y), CountAttempts(w)), WriteGrade(w));
            && s.session.attempts == [Attempt(b, 1, y)] && s.session.evidence == [Attempt(b, 1, y)]
            && v in s.calls && s.calls[v] == Grading(a, Some(x), true, None)
  {
  }

  lemma FirstWrites(s: State, a: string, b: string, v: string, x: int, y: int)
    requires s.session.attempts == [Attempt(b, 1, y)] && s.session.evidence == [Attempt(b, 1, y)]
    requires v in s.calls && s.calls[v] == Grading(a, Some(x), true, None)
    ensures Next(Next(s, CountAttempts(v)), WriteGrade(v)).session.attempts == [Attempt(b, 1, y), Attempt(a, 2, x)]
  {
    var counted := Next(s, CountAttempts(v));
    assert counted.calls[v] == Grading(a, Some(x), true, Some(1)) && counted.session == s.session;
  }

  lemma RecordAlone(v: string, q: string)
    requires q != ""
    ensures Run(START, [StartRecord(v, q), LookRecord(v), WriteRecord(v)])
            == Asked(q)
  {
    var steps := [StartRecord(v, q), LookRecord(v), WriteRecord(v)];
    assert steps[1..] == [LookRecord(v), WriteRecord(v)] && steps[1..][1..] == [WriteRecord(v)];
    var looked := Next(Next(START, StartRecord(v, q)), LookRecord(v));
    assert looked.calls == map[v := Recording(q, true)];
    assert Run(looked, [WriteRecord(v)]) == Next(looked, WriteRecord(v));
    assert Next(looked, WriteRecord(v)).calls == map[];
  }

  lemma RunFour(s: State, a: Step, b: Step, c: Step, d: Step)
    ensures Run(s, [a, b, c, d]) == Next(Next(Next(Next(s, a), b), c), d)
  {
    assert [a, b, c, d][1..] == [b, c, d] && [b, c, d][1..] == [c, d] && [c, d][1..] == [d] && [d][1..] == [];
    assert Run(Next(s, a), [b, c, d]) == Run(Next(Next(s, a), b), [c, d]);
    assert Run(Next(Next(s, a), b), [c, d]) == Run(Next(Next(Next(s, a), b), c), [d]);
  }

  lemma {:induction false} RunConcat(s: State, a: seq<Step>, b: seq<Step>)
    ensures Run(s, a + b) == Run(Run(s, a), b)
    decreases |a|
  {
    if a == [] {
      assert a + b == b;
    } else {
      assert (a + b)[1..] == a[1..] + b;
      RunConcat(Next(s, a[0]), a[1..], b);
    }
  }

  // ----------------------------------------------------- calls on their own

  lemma AnsweredOneMore(q: seq<Question>, last: Question)
    requires !last.awaiting
    ensures Answered(q + [last]) == Answered(q) + [last]
  {
    assert (q + [last])[..|q|] == q;
  }

  /** Questions behind the last open one do not matter. */
  lemma {:induction false} AnsweredAppend(q: seq<Question>, rest: seq<Question>)
    requires forall i :: 0 <= i < |rest| ==> !rest[i].awaiting
    ensures Answered(q + rest) == Answered(q) + rest
    decreases |rest|
  {
    if rest == [] {
      assert q + rest == q;
    } else {
      AnsweredOneMore(q, rest[0]);
      AnsweredAppend(q + [rest[0]], rest[1..]);
      assert [rest[0]] + rest[1..] == rest;
      Associative(q, [rest[0]], rest[1..]);
      Associative(Answered(q), [rest[0]], rest[1..]);
    }
  }

  /** Marks the last question without an answer, looking from the end. */
  method MarkAnswered(q: seq<Question>) returns (r: Option<seq<Question>>)
    ensures r.None? <==> forall i :: 0 <= i < |q| ==> !q[i].awaiting
    ensures r.Some? ==> r.value == Answered(q)
  {
    var i := |q|;
    while i > 0
      invariant 0 <= i <= |q|
      invariant forall k :: i <= k < |q| ==> !q[k].awaiting
    {
      i := i - 1;
      if q[i].awaiting {
        assert q == q[..i + 1] + q[i + 1..];
        AnsweredAppend(q[..i + 1], q[i + 1..]);
        assert q[..i + 1][..i] == q[..i];
        return Some(q[..i] + [q[i].(awaiting := false)] + q[i + 1..]);
      }
    }
    return None;
  }

  class ExerciseSession {
    var status: Status
    var questions: seq<Question>
    var attempts: seq<Attempt>
    var evidence: seq<Attempt>

    ghost function Snapshot(): Session
      reads this
    {
      Session(status, questions, attempts, evidence)
    }

    constructor ()
      ensures Snapshot() == NEW_SESSION
    {
      status, questions, attempts, evidence := Active, [], [], [];
    }

    /** Writes a question unless the session has one with its sequence number. */
    method InsertQuestion(text: string) returns (ok: bool)
      modifies this
      ensures ok == (old(questions) == [])
      ensures Snapshot() == QuestionWritten(old(Snapshot()), text)
    {
      if questions != [] {
        return false;
      }
      questions := [Question(text, true)];
      return true;
    }

    /** Records a question without interference; `text` is stripped of blanks at both ends. */
    method RecordQuestion(text: string) returns (ok: bool)
      modifies this
      ensures ok <==> text != "" && old(status) == Active && old(questions) == []
      ensures ok ==> Snapshot() == old(Snapshot()).(questions := [Question(text, true)])
      ensures !ok ==> Snapshot() == old(Snapshot())
    {
      if text == "" || status != Active {
        return false;
      }
      if (exists i :: 0 <= i < |questions| && questions[i].awaiting) || |questions| >= 1 {
        return false;
      }
      ok := InsertQuestion(text);
    }

    /** Writes an attempt and its evidence unless there is evidence with its number. */
    method InsertAttempt(a: Attempt) returns (ok: bool)
      modifies this
      ensures ok <==> forall i :: 0 <= i < |old(evidence)| ==> old(evidence)[i].number != a.number
      ensures Snapshot() == AttemptWritten(old(Snapshot()), a)
    {
      if exists i :: 0 <= i < |evidence| && evidence[i].number == a.number {
        return false;
      }
      var answered := MarkAnswered(questions);
      questions := if answered.Some? then answered.value else questions;
      if answered.None? {
        NothingToAnswer(questions);
      }
      attempts, evidence, status := attempts + [a], evidence + [a], Completed;
      return true;
    }

    /** Grades the answer without interference, and completes the session. */
    method GradeAnswer(answer: string, raw: seq<real>, matches: seq<Match>) returns (score: Option<int>)
      requires SessionOk(Snapshot())
      modifies this
      ensures SessionOk(Snapshot())
      ensures score == if old(status) == Active && Awaiting(old(Snapshot())) && Permutes(|raw|, matches)
                       then Some(Score(Weights(raw), AchievedIn(matches))) else None
      ensures score.None? ==> Snapshot() == old(Snapshot())
      ensures score.Some? ==>
                var a := Attempt(answer, 1, score.value);
                Snapshot() == Session(Completed, [old(questions)[0].(awaiting := false)], [a], [a])
    {
      if status != Active || !(exists i :: 0 <= i < |questions| && questions[i].awaiting) {
        return None;
      }
      var passed;
      score, passed := Grade(raw, matches);
      if score.Some? {
        assert questions == [questions[0]] && Answered(questions) == [questions[0].(awaiting := false)];
        var ok := InsertAttempt(Attempt(answer, |attempts| + 1, score.value));
      }
    }
  }

  lemma {:induction false} NothingToAnswer(q: seq<Question>)
    requires forall i :: 0 <= i < |q| ==> !q[i].awaiting
    ensures Answered(q) == q
  {
    if q != [] {
      NothingToAnswer(q[..|q| - 1]);
      assert q == q[..|q| - 1] + [q[|q| - 1]];
    }
  }
}
