/** One session of the Coordinator: foreground turns, notifications and the detached resume task.

    A step is what runs between two suspensions.  Publications, notifications,
    turns and the resume task interleave in any order. */
module Coordinator {
  import opened Collections
  import opened WorkerEvents

  datatype Lock = Free | Foreground | Resume

  /** The resume task: absent or finished, waiting for the session lock, or holding it with results in hand. */
  datatype Detached = NoTask | Created | Holding(batch: seq<Event>)

  /** `hand` are results taken for a plan whose message has not gone out; `accepted`, `delivered` (one entry
      per message) and `lost` are histories. */
  datatype State = State(
    pending: seq<Event>, notes: nat, submitters: nat, foreground: bool, lock: Lock, task: Detached,
    hand: seq<Event>, accepted: seq<Event>, delivered: seq<seq<Event>>, lost: seq<Event>)

  const START := State([], 0, 0, false, Free, NoTask, [], [], [], [])

  datatype Step =
    | Publish(e: Event)                    // the bus accepts a result and schedules a notification
    | Notify                               // a scheduled notification runs
    | Submit                               // a user turn arrives
    | Enter                                // a waiting turn gets the session lock
    | Collect(sel: Selector, limit: nat)   // the lock holder takes results of a plan
    | Deliver                              // the lock holder sends the message of a plan
    | Leave                                // the foreground turn ends
    | LeaveFailing                         // the foreground turn ends with an exception
    | Start                                // the resume task gets the lock and drains
    | DeliverGroup                         // the resume task sends the results of one turn
    | DrainAgain                           // the resume task drains once more
    | ResumeFails                          // the resume task ends with an exception

  const DRAIN_LIMIT: nat := 100

  function Batch(s: State): seq<Event> {
    if s.task.Holding? then s.task.batch else []
  }

  predicate Enabled(s: State, step: Step) {
    match step
    case Publish(_) => true
    case Notify => s.notes > 0
    case Submit => true
    case Enter => s.lock == Free && s.submitters > 0
    case Collect(_, _) => s.lock != Free
    case Deliver => s.lock != Free
    case Leave => s.lock == Foreground && s.hand == []
    case LeaveFailing => s.lock == Foreground
    case Start => s.lock == Free && s.task == Created
    case DeliverGroup => s.lock == Resume && s.hand == [] && Batch(s) != []
    case DrainAgain => s.lock == Resume && s.hand == [] && Batch(s) == []
    case ResumeFails => s.lock == Resume
  }

  /** Starts a resume task unless a foreground turn runs or one is live already. */
  function Notified(s: State): State {
    if s.foreground || s.task != NoTask then s else s.(task := Created)
  }

  /** What runs in the `finally` of a foreground turn, up to the release of the lock. */
  function Left(s: State): State {
    var off := s.(foreground := false);
    (if off.pending != [] then Notified(off) else off).(lock := Free)
  }

  /** One drain of the resume task; an empty one ends it. */
  function Drained(s: State): State {
    var n := Min(DRAIN_LIMIT, |s.pending|);
    if n == 0 then s.(task := NoTask, lock := Free)
    else s.(task := Holding(s.pending[..n]), lock := Resume, pending := s.pending[n..])
  }

  /** The results of the oldest one's turn; one without a turn is on its own. */
  function Group(batch: seq<Event>): seq<Event>
    requires batch != []
  {
    if batch[0].turn == "" then [batch[0]] else Selected(Selector(batch[0].turn, None), batch)
  }

  function AfterGroup(batch: seq<Event>): seq<Event>
    requires batch != []
  {
    if batch[0].turn == "" then batch[1..] else Rejected(Selector(batch[0].turn, None), batch)
  }

  function Next(s: State, step: Step): State {
    if !Enabled(s, step) then s else
    match step
    case Publish(e) => s.(pending := s.pending + [e], accepted := s.accepted + [e], notes := s.notes + 1)
    case Notify => Notified(s.(notes := s.notes - 1))
    case Submit => if s.foreground then s else s.(submitters := s.submitters + 1)
    case Enter => s.(submitters := s.submitters - 1, foreground := true, lock := Foreground)
    case Collect(sel, limit) =>
      s.(hand := s.hand + Taken(sel, s.pending, limit), pending := Without(sel, s.pending, limit))
    case Deliver => s.(delivered := s.delivered + [s.hand], hand := [])
    case Leave => Left(s)
    case LeaveFailing => Left(s.(lost := s.lost + s.hand, hand := []))
    case Start => if s.foreground then s.(task := NoTask) else Drained(s)
    case DeliverGroup =>
      s.(delivered := s.delivered + [Group(Batch(s))], task := Holding(AfterGroup(Batch(s))))
    case DrainAgain => Drained(s)
    case ResumeFails =>
      s.(lost := s.lost + s.hand + Batch(s), hand := [], task := NoTask, lock := Free)
  }

  function Run(s: State, steps: seq<Step>): State
    decreases |steps|
  {
    if steps == [] then s else Run(Next(s, steps[0]), steps[1..])
  }

  // ------------------------------------------------------------- the lock

  /** The lock says who runs: a foreground turn exactly while `foreground` is set, the resume task exactly
      while it holds a batch. */
  predicate Locked(s: State) {
    && (s.foreground <==> s.lock == Foreground)
    && (s.task.Holding? <==> s.lock == Resume)
    && (s.lock == Free ==> s.hand == [])
  }

  lemma StepKeepsLocked(s: State, step: Step)
    requires Locked(s)
    ensures Locked(Next(s, step))
  {
  }

  /** When the resume task gets the lock no foreground turn is active: its own guard never fires. */
  lemma {:induction false} ResumeNeverMeetsForeground(steps: seq<Step>)
    ensures var s := Run(START, steps); Enabled(s, Start) ==> !s.foreground
  {
    RunKeepsLocked(START, steps);
  }

  lemma {:induction false} RunKeepsLocked(s: State, steps: seq<Step>)
    requires Locked(s)
    ensures Locked(Run(s, steps))
    decreases |steps|
  {
    if steps != [] {
      StepKeepsLocked(s, steps[0]);
      RunKeepsLocked(Next(s, steps[0]), steps[1..]);
    }
  }

  // --------------------------------------------------------- conservation

  ghost function Flatten(messages: seq<seq<Event>>): multiset<Event> {
    if messages == [] then multiset{} else Flatten(messages[..|messages| - 1]) + multiset(messages[|messages| - 1])
  }

  lemma FlattenSnoc(messages: seq<seq<Event>>, m: seq<Event>)
    ensures Flatten(messages + [m]) == Flatten(messages) + multiset(m)
  {
    assert (messages + [m])[..|messages|] == messages;
  }

  /** Every accepted result is in exactly one place. */
  ghost predicate Conserved(s: State) {
    multiset(s.accepted)
    == multiset(s.pending) + multiset(s.hand) + multiset(Batch(s)) + Flatten(s.delivered) + multiset(s.lost)
  }

  /** A message of the resume task and the rest of its batch make up the batch. */
  lemma GroupSplitsBatch(batch: seq<Event>)
    requires batch != []
    ensures multiset(batch) == multiset(Group(batch)) + multiset(AfterGroup(batch))
  {
    if batch[0].turn == "" {
      assert batch == [batch[0]] + batch[1..];
    } else {
      SplitByTurn(Selector(batch[0].turn, None), batch);
    }
  }

  lemma SplitByTurn(sel: Selector, l: seq<Event>)
    ensures multiset(l) == multiset(Selected(sel, l)) + multiset(Rejected(sel, l))
    ensures |l| == |Selected(sel, l)| + |Rejected(sel, l)|
  {
    var n := |Selected(sel, l)|;
    WithoutConserves(sel, l, n);
    WithoutAll(sel, l, n);
    WithoutLength(sel, l, n);
    assert Taken(sel, l, n) == Selected(sel, l);
  }

  /** It starts with the oldest result. */
  lemma GroupStartsWithOldest(batch: seq<Event>)
    requires batch != []
    ensures Group(batch) != [] && Group(batch)[0] == batch[0] && |AfterGroup(batch)| < |batch|
  {
    if batch[0].turn != "" {
      SplitByTurn(Selector(batch[0].turn, None), batch);
    }
  }

  /** It holds results of one turn, and all of them if they have a turn. */
  lemma GroupIsOneTurn(batch: seq<Event>)
    requires batch != []
    ensures forall e :: e in Group(batch) ==> e.turn == batch[0].turn
    ensures batch[0].turn != "" ==> forall e :: e in AfterGroup(batch) ==> e.turn != batch[0].turn
  {
    if batch[0].turn != "" {
      OfOneTurn(Selector(batch[0].turn, None), batch);
    }
  }

  lemma {:induction false} OfOneTurn(sel: Selector, l: seq<Event>)
    requires sel.workers.None?
    ensures forall e :: e in Selected(sel, l) ==> e.turn == sel.turn
    ensures forall e :: e in Rejected(sel, l) ==> e.turn != sel.turn
  {
    if l != [] {
      OfOneTurn(sel, l[1..]);
    }
  }

  lemma DrainedBy(s: State, events: seq<Event>, rest: seq<Event>)
    requires s.pending == events + rest && |events| == Min(DRAIN_LIMIT, |s.pending|)
    ensures Drained(s) == if events == [] then s.(task := NoTask, lock := Free, pending := rest)
                          else s.(task := Holding(events), lock := Resume, pending := rest)
  {
    if events == [] {
      assert s.pending == rest;
    } else {
      assert s.pending[..|events|] == events && s.pending[|events|..] == rest;
    }
  }

  lemma DrainConserves(s: State)
    requires Conserved(s) && Batch(s) == []
    ensures Conserved(Drained(s))
  {
    var n := Min(DRAIN_LIMIT, |s.pending|);
    assert s.pending == s.pending[..n] + s.pending[n..];
  }

  lemma CollectConserves(s: State, sel: Selector, limit: nat)
    requires Conserved(s)
    ensures Conserved(Next(s, Collect(sel, limit)))
  {
    WithoutConserves(sel, s.pending, limit);
  }

  lemma DeliverConserves(s: State)
    requires Conserved(s)
    ensures Conserved(Next(s, Deliver))
  {
    FlattenSnoc(s.delivered, s.hand);
  }

  lemma GroupConserves(s: State)
    requires Conserved(s)
    ensures Conserved(Next(s, DeliverGroup))
  {
    if Enabled(s, DeliverGroup) {
      GroupSplitsBatch(Batch(s));
      FlattenSnoc(s.delivered, Group(Batch(s)));
    }
  }

  lemma ResumeFailureConserves(s: State)
    requires Conserved(s)
    ensures Conserved(Next(s, ResumeFails))
  {
  }

  lemma LeaveConserves(s: State)
    requires Locked(s) && Conserved(s)
    ensures Conserved(Next(s, Leave))
  {
  }

  lemma LeaveFailingConserves(s: State)
    requires Locked(s) && Conserved(s)
    ensures Conserved(Next(s, LeaveFailing))
  {
    if Enabled(s, LeaveFailing) {
      LosingHandConserves(s);
      LeftConserves(s.(lost := s.lost + s.hand, hand := []));
    }
  }

  lemma LosingHandConserves(s: State)
    requires Conserved(s)
    ensures Conserved(s.(lost := s.lost + s.hand, hand := []))
  {
  }

  lemma LeftConserves(s: State)
    requires Conserved(s) && Batch(s) == []
    ensures Conserved(Left(s))
  {
    assert Batch(Left(s)) == [];
  }

  lemma PublishConserves(s: State, e: Event)
    requires Conserved(s)
    ensures Conserved(Next(s, Publish(e)))
  {
  }

  lemma DrainStepConserves(s: State, step: Step)
    requires Locked(s) && Conserved(s) && (step == Start || step == DrainAgain)
    ensures Conserved(Next(s, step))
  {
    if Enabled(s, step) {
      DrainConserves(s);
    }
  }

  lemma AdminConserves(s: State, step: Step)
    requires Locked(s) && Conserved(s) && (step == Notify || step == Submit || step == Enter)
    ensures Conserved(Next(s, step))
  {
  }

  lemma StepConserves(s: State, step: Step)
    requires Locked(s) && Conserved(s)
    ensures Conserved(Next(s, step))
  {
    match step
    case Publish(e) => PublishConserves(s, e);
    case Collect(sel, limit) => CollectConserves(s, sel, limit);
    case Deliver => DeliverConserves(s);
    case Leave => LeaveConserves(s);
    case LeaveFailing => LeaveFailingConserves(s);
    case Start => DrainStepConserves(s, step);
    case DrainAgain => DrainStepConserves(s, step);
    case DeliverGroup => GroupConserves(s);
    case ResumeFails => ResumeFailureConserves(s);
    case Notify => AdminConserves(s, step);
    case Submit => AdminConserves(s, step);
    case Enter => AdminConserves(s, step);
  }

  // ------------------------------------------------- messages of one batch

  /** The messages that the resume task sends for one batch. */
  function Groups(batch: seq<Event>): seq<seq<Event>>
    decreases |batch|
  {
    if batch == [] then []
    else
      GroupStartsWithOldest(batch);
      [Group(batch)] + Groups(AfterGroup(batch))
  }

  /** The group that a result joins, or the number of groups if it starts one. */
  function Slot(groups: seq<seq<Event>>, e: Event): (k: nat)
    ensures k <= |groups|
  {
    if groups == [] || e.turn == "" then |groups|
    else if groups[0] != [] && groups[0][0].turn == e.turn then 0
    else 1 + Slot(groups[1..], e)
  }

  function Added(groups: seq<seq<Event>>, e: Event): seq<seq<Event>> {
    var k := Slot(groups, e);
    if k < |groups| then groups[k := groups[k] + [e]] else groups + [[e]]
  }

  lemma AddedLater(first: seq<Event>, rest: seq<seq<Event>>, e: Event)
    requires first != [] && (e.turn == "" || first[0].turn != e.turn)
    ensures Added([first] + rest, e) == [first] + Added(rest, e)
  {
    assert ([first] + rest)[1..] == rest;
  }

  /** A result joins the first group if it is of the same turn, and otherwise the rest. */
  lemma GroupSnoc(b: seq<Event>, e: Event)
    requires b != []
    ensures b[0].turn != "" && e.turn == b[0].turn ==>
              Group(b + [e]) == Group(b) + [e] && AfterGroup(b + [e]) == AfterGroup(b)
    ensures b[0].turn == "" || e.turn != b[0].turn ==>
              Group(b + [e]) == Group(b) && AfterGroup(b + [e]) == AfterGroup(b) + [e]
  {
    SelectedConcat(Selector(b[0].turn, None), b, [e]);
    assert (b + [e])[1..] == b[1..] + [e];
  }

  lemma GroupsUnfold(b: seq<Event>)
    requires b != []
    ensures Groups(b) == [Group(b)] + Groups(AfterGroup(b))
    ensures Group(b) != [] && Group(b)[0] == b[0] && |AfterGroup(b)| < |b|
  {
    GroupStartsWithOldest(b);
  }

  lemma GroupOfOne(e: Event)
    ensures Groups([e]) == [[e]]
  {
    GroupsUnfold([e]);
    GroupSplitsBatch([e]);
    assert AfterGroup([e]) == [];
    assert multiset(Group([e])) == multiset{e};
    assert |Group([e])| == |multiset(Group([e]))| == 1;
    assert Group([e]) == [e];
  }

  lemma {:induction false} GroupsSnoc(b: seq<Event>, e: Event)
    ensures Groups(b + [e]) == Added(Groups(b), e)
    decreases |b|
  {
    if b == [] {
      GroupOfOne(e);
      assert b + [e] == [e];
    } else {
      GroupsUnfold(b);
      GroupsUnfold(b + [e]);
      GroupSnoc(b, e);
      var first, rest := Group(b), Groups(AfterGroup(b));
      if b[0].turn != "" && e.turn == b[0].turn {
        assert Added([first] + rest, e) == [first + [e]] + rest;
      } else {
        GroupsSnoc(AfterGroup(b), e);
        AddedLater(first, rest, e);
      }
    }
  }

  /** Looks for the group that a result joins. */
  method FindGroup(groups: seq<seq<Event>>, e: Event) returns (k: nat)
    ensures k == Slot(groups, e)
  {
    k := 0;
    while k < |groups| && !(e.turn != "" && groups[k] != [] && groups[k][0].turn == e.turn)
      invariant k <= |groups| && Slot(groups, e) == k + Slot(groups[k..], e)
    {
      k := k + 1;
    }
  }

  /** Sorts a batch by turn, turns in the order of their oldest results. */
  method GroupByTurn(events: seq<Event>) returns (groups: seq<seq<Event>>)
    ensures groups == Groups(events)
  {
    groups := [];
    for i := 0 to |events|
      invariant groups == Groups(events[..i])
    {
      var k := FindGroup(groups, events[i]);
      GroupsSnoc(events[..i], events[i]);
      assert events[..i + 1] == events[..i] + [events[i]];
      groups := if k < |groups| then groups[k := groups[k] + [events[i]]] else groups + [[events[i]]];
    }
    assert events[..|events|] == events;
  }

  // ------------------------------------------------------ nothing stranded

  /** Waiting results have somebody who will take them: a turn, a resume task or a notification to come. */
  predicate Awake(s: State) {
    s.pending != [] ==> s.foreground || s.task != NoTask || s.notes > 0
  }

  /** Every step but a failing resume keeps results from being stranded, a failing turn included. */
  lemma StepKeepsAwake(s: State, step: Step)
    requires Locked(s) && Awake(s) && step != ResumeFails
    ensures Awake(Next(s, step))
  {
    if step.Collect? && Without(step.sel, s.pending, step.limit) != [] {
      WithoutLength(step.sel, s.pending, step.limit);
    }
  }

  /** A failing resume strands what is pending exactly when no notification is scheduled. */
  lemma ResumeFailureStrandsUnlessNotified(s: State)
    requires Locked(s) && Enabled(s, ResumeFails)
    ensures Awake(Next(s, ResumeFails)) <==> s.pending == [] || s.notes > 0
  {
  }

  /** A run in which a result is stranded: it is published while the resume task that then fails is running. */
  lemma ResumeFailureStrands(a: Event, b: Event)
    ensures var s := Run(START, [Publish(a), Notify, Start, Publish(b), Notify, ResumeFails]);
            && s.pending == [b] && s.lost == [a] && s.delivered == []
            && !s.foreground && s.task == NoTask && s.notes == 0 && s.lock == Free
  {
    var s1 := Next(Next(START, Publish(a)), Notify);
    assert s1.pending == [a] && s1.task == Created;
    var s2 := Next(s1, Start);
    assert s2.task == Holding([a]) && s2.pending == [];
    var s3 := Next(Next(s2, Publish(b)), Notify);
    assert s3.pending == [b] && s3.notes == 0;
    var tail := [Publish(b), Notify, ResumeFails];
    assert Run(s3, [ResumeFails]) == Next(s3, ResumeFails);
    assert Run(s2, tail) == Run(s3, [ResumeFails]) by {
      assert tail[1..] == [Notify, ResumeFails] && tail[1..][1..] == [ResumeFails];
    }
    var all := [Publish(a), Notify, Start] + tail;
    assert all == [Publish(a), Notify, Start, Publish(b), Notify, ResumeFails];
    assert all[1..][1..][1..] == tail;
    assert Run(START, all) == Run(s2, tail) by {
      assert all[1..][0] == Notify && all[1..][1..][0] == Start;
      assert Run(START, all) == Run(Next(START, Publish(a)), all[1..]);
      assert Run(Next(START, Publish(a)), all[1..]) == Run(s1, all[1..][1..]);
    }
  }

  // ----------------------------------------------------------------- runs

  ghost predicate Sound(s: State) {
    Locked(s) && Conserved(s)
  }

  predicate Calm(steps: seq<Step>) {
    forall i :: 0 <= i < |steps| ==> steps[i] != ResumeFails
  }

  predicate Faultless(steps: seq<Step>) {
    forall i :: 0 <= i < |steps| ==> steps[i] != ResumeFails && steps[i] != LeaveFailing
  }

  lemma {:induction false} RunKeepsSound(s: State, steps: seq<Step>)
    requires Sound(s)
    ensures Sound(Run(s, steps))
    decreases |steps|
  {
    if steps != [] {
      StepKeepsLocked(s, steps[0]);
      StepConserves(s, steps[0]);
      RunKeepsSound(Next(s, steps[0]), steps[1..]);
    }
  }

  lemma {:induction false} RunKeepsAwake(s: State, steps: seq<Step>)
    requires Locked(s) && Awake(s) && Calm(steps)
    ensures Awake(Run(s, steps))
    decreases |steps|
  {
    if steps != [] {
      StepKeepsLocked(s, steps[0]);
      StepKeepsAwake(s, steps[0]);
      RunKeepsAwake(Next(s, steps[0]), steps[1..]);
    }
  }

  lemma {:induction false} FaultlessLosesNothing(s: State, steps: seq<Step>)
    requires Faultless(steps)
    ensures Run(s, steps).lost == s.lost
    decreases |steps|
  {
    if steps != [] {
      FaultlessLosesNothing(Next(s, steps[0]), steps[1..]);
    }
  }

  /** Whatever happens, failures included, no accepted result is in two messages or twice in one. */
  lemma DeliveredAtMostOnce(steps: seq<Step>, e: Event)
    ensures var s := Run(START, steps);
            Flatten(s.delivered)[e] + multiset(s.lost)[e] <= multiset(s.accepted)[e]
  {
    RunKeepsSound(START, steps);
  }

  /** Nobody is running and nothing is scheduled. */
  predicate Quiet(s: State) {
    s.lock == Free && s.task == NoTask && s.notes == 0 && s.submitters == 0
  }

  /** Without failures, whenever the session is quiet every accepted result has been delivered, once. */
  lemma QuietMeansAllDelivered(steps: seq<Step>)
    requires Faultless(steps)
    ensures var s := Run(START, steps);
            Quiet(s) ==> s.pending == [] && Flatten(s.delivered) == multiset(s.accepted)
  {
    RunKeepsSound(START, steps);
    RunKeepsAwake(START, steps);
    FaultlessLosesNothing(START, steps);
  }

  // ------------------------------------------------------------- progress

  /** How far a session is from being quiet when nothing new happens. */
  function Work(s: State): nat {
    2 * |s.pending| + |Batch(s)| + |s.hand|
  }

  function Stage(s: State): nat {
    (if s.foreground then 3 else 0) + (match s.task case NoTask => 0 case Created => 2 case Holding(_) => 1)
  }

  predicate Internal(step: Step) {
    step in {Notify, Enter, Deliver, Leave, Start, DeliverGroup, DrainAgain}
  }

  /** A step that is enabled and does something; an empty message is not progress. */
  predicate Productive(s: State, step: Step) {
    Internal(step) && Enabled(s, step) && (step == Deliver ==> s.hand != [])
  }

  predicate Closer(n: State, s: State) {
    || Work(n) < Work(s)
    || (Work(n) == Work(s) && n.submitters < s.submitters)
    || (Work(n) == Work(s) && n.submitters == s.submitters && n.notes < s.notes)
    || (Work(n) == Work(s) && n.submitters == s.submitters && n.notes == s.notes && Stage(n) < Stage(s))
  }

  /** Whichever step the scheduler picks, the session gets closer to being quiet, in an order without infinite descent. */
  lemma InternalStepAdvances(s: State, step: Step)
    requires Locked(s) && Productive(s, step)
    ensures Closer(Next(s, step), s)
  {
    if step == DeliverGroup {
      GroupStartsWithOldest(Batch(s));
    }
  }

  function Forward(s: State): Step {
    if s.lock != Free && s.hand != [] then Deliver
    else if s.lock == Foreground then Leave
    else if s.lock == Resume then (if Batch(s) == [] then DrainAgain else DeliverGroup)
    else if s.submitters > 0 then Enter
    else if s.task == Created then Start
    else Notify
  }

  /** Only a quiet session has nothing left to do. */
  lemma SomeStepIsProductive(s: State)
    requires Locked(s)
    ensures Quiet(s) <==> !Productive(s, Forward(s))
  {
  }

  /** From every state in which nothing is stranded the session can settle, with nothing left on the bus. */
  lemma {:induction false} CanSettle(s: State) returns (steps: seq<Step>)
    requires Locked(s) && Awake(s)
    ensures forall i :: 0 <= i < |steps| ==> Internal(steps[i])
    ensures Quiet(Run(s, steps)) && Run(s, steps).pending == []
    decreases Work(s), s.submitters, s.notes, Stage(s)
  {
    steps := [];
    SomeStepIsProductive(s);
    if !Quiet(s) {
      var step := Forward(s);
      InternalStepAdvances(s, step);
      StepKeepsLocked(s, step);
      StepKeepsAwake(s, step);
      var rest := CanSettle(Next(s, step));
      steps := [step] + rest;
      assert steps[1..] == rest;
    }
  }

  /** Whatever internal steps are taken, in whatever order: where no further one is productive the session is quiet,
      with nothing left on the bus. */
  lemma WhereItStops(s: State, steps: seq<Step>)
    requires Locked(s) && Awake(s)
    requires forall i :: 0 <= i < |steps| ==> Internal(steps[i])
    requires forall step :: !Productive(Run(s, steps), step)
    ensures Quiet(Run(s, steps)) && Run(s, steps).pending == []
  {
    RunKeepsLocked(s, steps);
    RunKeepsAwake(s, steps);
    SomeStepIsProductive(Run(s, steps));
  }

  /** A publication, a notification and the end of a turn wake the session, even if results were stranded. */
  predicate Wakes(step: Step) {
    step.Publish? || step in {Notify, Leave, LeaveFailing}
  }

  lemma WakingStepLeavesAwake(s: State, step: Step)
    requires Locked(s) && Wakes(step) && Enabled(s, step)
    ensures Awake(Next(s, step))
  {
  }

  /** Stranded results wait for the next publication, notification or end of a turn: from there the session can
      settle, and then everything accepted has been delivered, once, but for what had been lost by then. */
  lemma NextPublicationOrTurnRecovers(s: State, step: Step) returns (steps: seq<Step>)
    requires Sound(s) && Wakes(step) && Enabled(s, step)
    ensures forall i :: 0 <= i < |steps| ==> Internal(steps[i])
    ensures var r := Run(Next(s, step), steps);
            && Quiet(r) && r.pending == [] && r.lost == Next(s, step).lost
            && multiset(r.accepted) == Flatten(r.delivered) + multiset(r.lost)
  {
    StepKeepsLocked(s, step);
    StepConserves(s, step);
    WakingStepLeavesAwake(s, step);
    steps := CanSettle(Next(s, step));
    RunKeepsSound(Next(s, step), steps);
    FaultlessLosesNothing(Next(s, step), steps);
    QuietIsSettled(Run(Next(s, step), steps));
  }

  lemma QuietIsSettled(s: State)
    requires Sound(s) && Quiet(s) && s.pending == []
    ensures multiset(s.accepted) == Flatten(s.delivered) + multiset(s.lost)
  {
    assert s.hand == [] && Batch(s) == [];
  }

  // ------------------------------------------------------- the session object

  /** The session's fields, updated in place, over the real bus. */
  class SessionRuntime {
    const bus: WorkerEventBus
    const session: string
    var foregroundActive: bool
    var lock: Lock
    var submitters: nat
    var resumeTask: Detached
    var notes: nat
    var hand: seq<Event>
    ghost var accepted: seq<Event>
    ghost var delivered: seq<seq<Event>>
    ghost var lost: seq<Event>

    ghost function Snapshot(): State
      reads this, bus
    {
      State(bus.Pending(session), notes, submitters, foregroundActive, lock, resumeTask,
            hand, accepted, delivered, lost)
    }

    constructor (bus: WorkerEventBus, session: string)
      requires bus.Valid() && bus.Pending(session) == []
      ensures this.bus == bus && this.session == session && bus.Valid()
      ensures Snapshot() == START
    {
      this.bus, this.session := bus, session;
      foregroundActive, lock, submitters, resumeTask, notes := false, Free, 0, NoTask, 0;
      hand, accepted, delivered, lost := [], [], [], [];
    }

    method PublishResult(e: Event) returns (isNew: bool)
      requires bus.Valid() && e.session == session
      modifies this, bus
      ensures bus.Valid()
      ensures isNew == (e.id !in LastN(old(At(bus.accepted, session)), bus.window))
      ensures Snapshot() == if isNew then Next(old(Snapshot()), Publish(e)) else old(Snapshot())
    {
      isNew := bus.Publish(e);
      if isNew {
        notes := notes + 1;
        accepted := accepted + [e];
      }
    }

    /** Runs a notification, or the check at the end of a foreground turn.  Afterwards somebody is there to take what
        is pending, and no live resume task was replaced. */
    method NotifyWorkerEvent()
      modifies `resumeTask
      ensures foregroundActive || resumeTask != NoTask
      ensures resumeTask != old(resumeTask) ==>
                resumeTask == Created && old(resumeTask) == NoTask && !foregroundActive
      ensures Snapshot() == Notified(old(Snapshot()))
    {
      if foregroundActive {
        return;
      }
      if resumeTask == NoTask {
        resumeTask := Created;
      }
    }

    method RunNotification()
      requires notes > 0
      modifies `notes, `resumeTask
      ensures Snapshot() == Next(old(Snapshot()), Notify)
    {
      notes := notes - 1;
      NotifyWorkerEvent();
    }

    /** A user turn waits for the lock; during a foreground turn it becomes an injected message instead. */
    method SubmitTurn() returns (waits: bool)
      modifies `submitters
      ensures waits == !foregroundActive
      ensures Snapshot() == Next(old(Snapshot()), Submit)
    {
      waits := !foregroundActive;
      if waits {
        submitters := submitters + 1;
      }
    }

    method EnterTurn()
      requires lock == Free && submitters > 0
      modifies this
      ensures Snapshot() == Next(old(Snapshot()), Enter)
    {
      submitters := submitters - 1;
      lock := Foreground;
      foregroundActive := true;
    }

    /** The end of a foreground turn; after an exception the results in hand are gone. */
    method LeaveTurn(failed: bool)
      requires lock == Foreground && (failed || hand == [])
      modifies this
      ensures Snapshot() == Next(old(Snapshot()), if failed then LeaveFailing else Leave)
    {
      if failed {
        lost := lost + hand;
        hand := [];
      }
      foregroundActive := false;
      var pending := bus.HasPending(session);
      if pending {
        NotifyWorkerEvent();
      }
      lock := Free;
    }

    /** Takes results of a plan without waiting. */
    method CollectForPlan(sel: Selector, limit: nat)
      requires bus.Valid() && lock != Free
      modifies this, bus
      ensures bus.Valid()
      ensures Snapshot() == Next(old(Snapshot()), Collect(sel, limit))
    {
      ghost var list := bus.Pending(session);
      var events := bus.DrainForTurn(session, sel, limit);
      assert events == Taken(sel, list, limit) && bus.Pending(session) == Without(sel, list, limit);
      hand := hand + events;
    }

    method DeliverPlan() returns (message: seq<Event>)
      requires lock != Free
      modifies this
      ensures message == old(hand) && Snapshot() == Next(old(Snapshot()), Deliver)
    {
      message := hand;
      delivered := delivered + [hand];
      hand := [];
    }

    /** The loop head of the resume task; `first` when it has just got the lock. */
    method DrainBatch(first: bool)
      requires bus.Valid()
      requires if first then lock == Free && resumeTask == Created else Enabled(Snapshot(), DrainAgain)
      modifies this, bus
      ensures bus.Valid()
      ensures Snapshot() == Next(old(Snapshot()), if first then Start else DrainAgain)
    {
      if first && foregroundActive {
        resumeTask := NoTask;
        return;
      }
      ghost var before := Snapshot();
      var events := bus.Drain(session, DRAIN_LIMIT);
      DrainedBy(before, events, bus.Pending(session));
      if events == [] {
        resumeTask, lock := NoTask, Free;
      } else {
        resumeTask, lock := Holding(events), Resume;
      }
    }

    /** Sends the next message of the batch. */
    method DeliverNextGroup() returns (message: seq<Event>)
      requires Enabled(Snapshot(), DeliverGroup) && resumeTask.Holding?
      modifies this
      ensures Snapshot() == Next(old(Snapshot()), DeliverGroup)
      ensures [message] + Groups(resumeTask.batch) == Groups(old(resumeTask).batch)
    {
      var groups := GroupByTurn(resumeTask.batch);
      message := groups[0];
      delivered := delivered + [message];
      resumeTask := Holding(AfterGroup(resumeTask.batch));
    }

    /** An exception in the resume task: what it held is gone. */
    method FailResume()
      requires lock == Resume && resumeTask.Holding?
      modifies this
      ensures Snapshot() == Next(old(Snapshot()), ResumeFails)
    {
      lost := lost + hand + resumeTask.batch;
      hand, resumeTask, lock := [], NoTask, Free;
    }
  }
}
