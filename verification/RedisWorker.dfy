/** Workers that take turns from a shared stream, may crash at any moment, and acknowledge what they settled.

    A step is what one Worker, or the outside world, does between two suspensions. */
module RedisWorker {
  import opened Collections

  /** A stream entry holds a turn to execute, or something that cannot be read. */
  datatype Payload = Malformed | Task(turn: string)

  /** Why an entry was acknowledged.  The execution of a turn is stopped upon a request, or gives up by itself. */
  datatype Why =
    | DeadLettered | FoundCancelled | FoundTerminal | CancelledBeforeStart | StoppedUponRequest | GaveUp | Executed

  datatype Entry = Unread | Pending(owner: string) | Acked(why: Why)

  datatype Stage =
    | Decoding | Poisoned | FirstCheck | CancelFound | SecondCheck | CancelFoundAgain | Running
    | Stopping(why: Why) | Acking(why: Why)

  /** Each delivery of an entry has its own number. */
  datatype Pc = Idle | At(entry: nat, delivery: nat, stage: Stage)

  /** `keys` are the cancel keys that are set.  The fields from `deadLetters` on are histories: turns whose key was
      ever set, turns ever found over, entries whose execution ended, was stopped or gave up, and deliveries that were
      started or whose second check found the key. */
  datatype State = State(
    payloads: map<nat, Payload>, entries: map<nat, Entry>, workers: map<string, Pc>, keys: set<string>,
    deliveries: nat, deadLetters: seq<nat>, keyed: set<string>, over: set<string>, finished: set<nat>,
    stopped: set<nat>, gaveUp: set<nat>, started: set<nat>, refused: set<nat>)

  const START := State(map[], map[], map[], {}, 0, [], {}, {}, {}, {}, {}, {}, {})

  /** What a call into the database answers. */
  datatype Answer = No | Yes | NotFound | Breaks

  /** How an execution ends that nobody stops. */
  datatype Ending = Completes | RaisesCancellation | RaisesError

  datatype Step =
    | Add(entry: nat, payload: Payload)
    | SetKey(turn: string)
    | DropKey(turn: string)
    | Read(w: string, entry: nat)
    | Reclaim(w: string, entry: nat)
    | Decode(w: string)
    | DeadLetter(w: string)
    | CheckFirst(w: string, terminal: Answer)
    | TellFirst(w: string, answer: Answer)
    | CheckSecond(w: string)
    | TellSecond(w: string, answer: Answer)
    | Stop(w: string)
    | End(w: string, how: Ending)
    | TellStopped(w: string, answer: Answer)
    | Ack(w: string)
    | Crash(w: string)

  function PcOf(s: State, w: string): Pc {
    if w in s.workers then s.workers[w] else Idle
  }

  predicate StandsAt(s: State, w: string, stage: Stage) {
    PcOf(s, w).At? && PcOf(s, w).stage == stage && PcOf(s, w).entry in s.entries && PcOf(s, w).entry in s.payloads
  }

  function TurnOf(s: State, entry: nat): string {
    if entry in s.payloads && s.payloads[entry].Task? then s.payloads[entry].turn else ""
  }

  /** An entry holds one of these turns. */
  predicate Names(s: State, entry: nat, turns: set<string>) {
    entry in s.payloads && s.payloads[entry].Task? && s.payloads[entry].turn in turns
  }

  /** A request to stop reaches a running turn only after its cancel key was set. */
  predicate Enabled(s: State, step: Step) {
    match step
    case Add(e, _) => e !in s.entries && e !in s.payloads
    case SetKey(_) => true
    case DropKey(_) => true
    case Read(w, e) => PcOf(s, w) == Idle && e in s.entries && e in s.payloads && s.entries[e] == Unread
    case Reclaim(w, e) => PcOf(s, w) == Idle && e in s.entries && e in s.payloads && s.entries[e].Pending?
    case Decode(w) => StandsAt(s, w, Decoding)
    case DeadLetter(w) => StandsAt(s, w, Poisoned)
    case CheckFirst(w, _) => StandsAt(s, w, FirstCheck)
    case TellFirst(w, _) => StandsAt(s, w, CancelFound)
    case CheckSecond(w) => StandsAt(s, w, SecondCheck)
    case TellSecond(w, _) => StandsAt(s, w, CancelFoundAgain)
    case Stop(w) => StandsAt(s, w, Running) && Names(s, PcOf(s, w).entry, s.keyed)
    case End(w, _) => StandsAt(s, w, Running)
    case TellStopped(w, _) => PcOf(s, w).At? && PcOf(s, w).stage.Stopping? && StandsAt(s, w, PcOf(s, w).stage)
    case Ack(w) => PcOf(s, w).At? && PcOf(s, w).stage.Acking? && PcOf(s, w).entry in s.entries
    case Crash(w) => true
  }

  function Goes(s: State, w: string, stage: Stage): State
    requires PcOf(s, w).At?
  {
    s.(workers := s.workers[w := PcOf(s, w).(stage := stage)])
  }

  /** The Worker gives up; the entry stays pending. */
  function Fails(s: State, w: string): State {
    s.(workers := s.workers[w := Idle])
  }

  function Taken(s: State, w: string, e: nat): State {
    s.(entries := s.entries[e := Pending(w)], workers := s.workers[w := At(e, s.deliveries, Decoding)],
       deliveries := s.deliveries + 1)
  }

  /** After telling the database about a cancellation: acknowledge, or leave the entry pending. */
  function Told(s: State, w: string, answer: Answer, why: Why): State
    requires PcOf(s, w).At?
  {
    if answer == Yes || answer == No then Goes(s, w, Acking(why)) else Fails(s, w)
  }

  function CheckedFirst(s: State, w: string, terminal: Answer): State
    requires PcOf(s, w).At?
  {
    var turn := TurnOf(s, PcOf(s, w).entry);
    if turn in s.keys then Goes(s, w, CancelFound)
    else match terminal
      case Yes => Goes(s.(over := s.over + {turn}), w, Acking(FoundTerminal))
      case No => Goes(s, w, SecondCheck)
      case NotFound => Goes(s, w, Poisoned)
      case Breaks => Fails(s, w)
  }

  function CheckedSecond(s: State, w: string): State
    requires PcOf(s, w).At?
  {
    var pc := PcOf(s, w);
    if TurnOf(s, pc.entry) in s.keys
    then Goes(s.(refused := s.refused + {pc.delivery}), w, CancelFoundAgain)
    else Goes(s.(started := s.started + {pc.delivery}), w, Running)
  }

  function Ended(s: State, w: string, how: Ending): State
    requires PcOf(s, w).At?
  {
    var e := PcOf(s, w).entry;
    match how
    case Completes => Goes(s.(finished := s.finished + {e}), w, Acking(Executed))
    case RaisesCancellation => Goes(s.(gaveUp := s.gaveUp + {e}), w, Stopping(GaveUp))
    case RaisesError => Fails(s, w)
  }

  function Next(s: State, step: Step): State {
    if !Enabled(s, step) then s else
    match step
    case Add(e, p) => s.(entries := s.entries[e := Unread], payloads := s.payloads[e := p])
    case SetKey(t) => s.(keys := s.keys + {t}, keyed := s.keyed + {t})
    case DropKey(t) => s.(keys := s.keys - {t})
    case Read(w, e) => Taken(s, w, e)
    case Reclaim(w, e) => Taken(s, w, e)
    case Decode(w) => Goes(s, w, if s.payloads[PcOf(s, w).entry].Malformed? then Poisoned else FirstCheck)
    case DeadLetter(w) => Goes(s.(deadLetters := s.deadLetters + [PcOf(s, w).entry]), w, Acking(DeadLettered))
    case CheckFirst(w, terminal) => CheckedFirst(s, w, terminal)
    case TellFirst(w, answer) =>
      if answer == NotFound then Goes(s, w, Poisoned) else Told(s, w, answer, FoundCancelled)
    case CheckSecond(w) => CheckedSecond(s, w)
    case TellSecond(w, answer) => Told(s, w, answer, CancelledBeforeStart)
    case Stop(w) => Goes(s.(stopped := s.stopped + {PcOf(s, w).entry}), w, Stopping(StoppedUponRequest))
    case End(w, how) => Ended(s, w, how)
    case TellStopped(w, answer) => Told(s, w, answer, PcOf(s, w).stage.why)
    case Ack(w) =>
      var e := PcOf(s, w).entry;
      Fails(if s.entries[e].Pending? then s.(entries := s.entries[e := Acked(PcOf(s, w).stage.why)]) else s, w)
    case Crash(w) => Fails(s, w)
  }

  function Run(s: State, steps: seq<Step>): State
    decreases |steps|
  {
    if steps == [] then s else Run(Next(s, steps[0]), steps[1..])
  }

  // --------------------------------------------------------- justification

  /** What has happened to an entry that may be acknowledged for this reason. */
  predicate Evidence(s: State, e: nat, why: Why) {
    match why
    case DeadLettered => e in s.deadLetters
    case FoundCancelled => Names(s, e, s.keyed)
    case FoundTerminal => Names(s, e, s.over)
    case CancelledBeforeStart => Names(s, e, s.keyed)
    case StoppedUponRequest => e in s.stopped && Names(s, e, s.keyed)
    case GaveUp => e in s.gaveUp
    case Executed => e in s.finished
  }

  predicate PcOk(s: State, pc: Pc) {
    pc.At? ==>
      && pc.entry in s.entries && s.entries[pc.entry] != Unread && pc.delivery < s.deliveries
      && match pc.stage
         case CancelFound => Names(s, pc.entry, s.keyed)
         case CancelFoundAgain => Names(s, pc.entry, s.keyed) && pc.delivery in s.refused
         case Running => pc.delivery in s.started
         case Stopping(why) => Evidence(s, pc.entry, why)
         case Acking(why) => Evidence(s, pc.entry, why)
         case Poisoned => true
         case Decoding => Unmarked(s, pc.delivery)
         case FirstCheck => HoldsTask(s, pc.entry) && Unmarked(s, pc.delivery)
         case SecondCheck => HoldsTask(s, pc.entry) && Unmarked(s, pc.delivery)
  }

  predicate HoldsTask(s: State, entry: nat) {
    entry in s.payloads && s.payloads[entry].Task?
  }

  predicate Unmarked(s: State, delivery: nat) {
    delivery !in s.started && delivery !in s.refused
  }

  ghost predicate Justified(s: State) {
    && s.entries.Keys == s.payloads.Keys
    && s.keys <= s.keyed
    && (forall e :: e in s.entries && s.entries[e].Acked? ==> Evidence(s, e, s.entries[e].why))
    && (forall w :: w in s.workers ==> PcOk(s, s.workers[w]))
  }

  ghost predicate Numbered(s: State) {
    && (forall d :: d in s.started || d in s.refused ==> d < s.deliveries)
    && s.started !! s.refused
    && (forall w, v :: w in s.workers && v in s.workers && w != v && s.workers[w].At? && s.workers[v].At?
          ==> s.workers[w].delivery != s.workers[v].delivery)
  }

  /** Histories only grow. */
  predicate Later(r: State, s: State) {
    && s.keyed <= r.keyed && s.over <= r.over && s.finished <= r.finished && s.stopped <= r.stopped
    && s.gaveUp <= r.gaveUp && s.deadLetters <= r.deadLetters && s.payloads.Keys <= r.payloads.Keys
    && forall e :: e in s.payloads ==> r.payloads[e] == s.payloads[e]
  }

  lemma EvidenceStays(r: State, s: State, e: nat, why: Why)
    requires Later(r, s) && e in s.payloads && Evidence(s, e, why)
    ensures Evidence(r, e, why)
  {
  }

  lemma StepIsLater(s: State, step: Step)
    ensures Later(Next(s, step), s)
  {
  }

  /** The Worker that a step belongs to. */
  function Actor(step: Step): Option<string> {
    match step
    case Add(_, _) => None
    case SetKey(_) => None
    case DropKey(_) => None
    case _ => Some(step.w)
  }

  /** A step leaves every other Worker where it is. */
  lemma StepIsLocal(s: State, step: Step)
    ensures var r := Next(s, step);
            && (forall v :: v in s.workers ==> v in r.workers)
            && (forall v :: v in r.workers && Actor(step) != Some(v) ==> v in s.workers && r.workers[v] == s.workers[v])
            && s.deliveries <= r.deliveries
            && (forall e :: e in s.entries ==> e in r.entries && (s.entries[e] != Unread ==> r.entries[e] != Unread))
  {
  }

  /** Only the actor's own delivery is started or refused. */
  lemma StepMarksOwnDelivery(s: State, step: Step)
    ensures var r := Next(s, step);
            var own := if step.CheckSecond? && PcOf(s, step.w).At? then {PcOf(s, step.w).delivery} else {};
            && s.started <= r.started <= s.started + own
            && s.refused <= r.refused <= s.refused + own
  {
  }

  lemma OthersStayOk(s: State, step: Step, v: string)
    requires Justified(s) && Numbered(s) && v in s.workers && Actor(step) != Some(v)
    ensures PcOk(Next(s, step), s.workers[v])
  {
    var r, pc := Next(s, step), s.workers[v];
    StepIsLater(s, step);
    StepIsLocal(s, step);
    StepMarksOwnDelivery(s, step);
    if pc.At? && (pc.stage.Acking? || pc.stage.Stopping?) {
      EvidenceStays(r, s, pc.entry, pc.stage.why);
    }
    if step.CheckSecond? && PcOf(s, step.w).At? && pc.At? {
      assert PcOf(s, step.w).delivery != pc.delivery;
    }
  }

  lemma ActorStaysOk(s: State, step: Step, w: string)
    requires Justified(s) && Numbered(s) && Actor(step) == Some(w) && w in Next(s, step).workers
    ensures PcOk(Next(s, step), Next(s, step).workers[w])
  {
    assert w in s.workers ==> PcOk(s, s.workers[w]);
    assert PcOk(s, PcOf(s, w));
  }

  lemma AcksStayJustified(s: State, step: Step, e: nat)
    requires Justified(s) && e in Next(s, step).entries && Next(s, step).entries[e].Acked?
    ensures Evidence(Next(s, step), e, Next(s, step).entries[e].why)
  {
    StepIsLater(s, step);
    if e in s.entries && s.entries[e].Acked? {
      assert Next(s, step).entries[e] == s.entries[e];
      EvidenceStays(Next(s, step), s, e, s.entries[e].why);
    } else {
      assert step.Ack? && PcOk(s, s.workers[step.w]);
    }
  }

  lemma StepKeepsJustified(s: State, step: Step)
    requires Justified(s) && Numbered(s)
    ensures Justified(Next(s, step))
  {
    var r := Next(s, step);
    StepIsLocal(s, step);
    forall e | e in r.entries && r.entries[e].Acked?
      ensures Evidence(r, e, r.entries[e].why)
    {
      AcksStayJustified(s, step, e);
    }
    forall v | v in r.workers
      ensures PcOk(r, r.workers[v])
    {
      if Actor(step) == Some(v) {
        ActorStaysOk(s, step, v);
      } else {
        OthersStayOk(s, step, v);
      }
    }
    KeysStayKeyed(s, step);
  }

  lemma KeysStayKeyed(s: State, step: Step)
    requires s.keys <= s.keyed && s.entries.Keys == s.payloads.Keys
    ensures Next(s, step).keys <= Next(s, step).keyed && Next(s, step).entries.Keys == Next(s, step).payloads.Keys
  {
  }

  lemma StepKeepsNumbered(s: State, step: Step)
    requires Justified(s) && Numbered(s)
    ensures Numbered(Next(s, step))
  {
    var r := Next(s, step);
    StepIsLocal(s, step);
    StepMarksOwnDelivery(s, step);
    DeliveryIsOwnOrNew(s, step);
    if step.CheckSecond? && Enabled(s, step) {
      assert PcOk(s, s.workers[step.w]);
    }
    forall w, v | w in r.workers && v in r.workers && w != v && r.workers[w].At? && r.workers[v].At?
      ensures r.workers[w].delivery != r.workers[v].delivery
    {
      assert w in s.workers ==> PcOk(s, s.workers[w]);
      assert v in s.workers ==> PcOk(s, s.workers[v]);
    }
  }

  lemma DeliveryIsOwnOrNew(s: State, step: Step)
    ensures var r := Next(s, step);
            forall w :: w in r.workers && r.workers[w].At? ==>
              || (w in s.workers && s.workers[w].At? && r.workers[w].delivery == s.workers[w].delivery)
              || (Actor(step) == Some(w) && r.workers[w].delivery == s.deliveries)
  {
  }

  lemma {:induction false} RunKeepsJustified(s: State, steps: seq<Step>)
    requires Justified(s) && Numbered(s)
    ensures Justified(Run(s, steps)) && Numbered(Run(s, steps))
    decreases |steps|
  {
    if steps != [] {
      StepKeepsJustified(s, steps[0]);
      StepKeepsNumbered(s, steps[0]);
      RunKeepsJustified(Next(s, steps[0]), steps[1..]);
    }
  }

  /** Over every run, with crashes anywhere and entries reclaimed by anybody, what is acknowledged was settled, and a
      delivery whose second check found the cancel key never starts the turn. */
  lemma AcksAreJustified(steps: seq<Step>, e: nat, d: nat)
    ensures var s := Run(START, steps);
            && (e in s.entries && s.entries[e].Acked? ==> Evidence(s, e, s.entries[e].why))
            && !(d in s.refused && d in s.started)
  {
    RunKeepsJustified(START, steps);
  }

  /** An acknowledgement is final, and nothing is ever removed. */
  lemma {:induction false} AckedForever(s: State, steps: seq<Step>, e: nat)
    requires e in s.entries
    ensures e in Run(s, steps).entries
    ensures s.entries[e].Acked? ==> Run(s, steps).entries[e] == s.entries[e]
    decreases |steps|
  {
    if steps != [] {
      AckedForever(Next(s, steps[0]), steps[1..], e);
    }
  }

  // -------------------------------------------------------------- delivery

  /** The steps that take an entry through, with nothing in the way. */
  function Through(s: State, w: string, e: nat): seq<Step>
    requires e in s.entries
  {
    [if s.entries[e] == Unread then Read(w, e) else Reclaim(w, e), Decode(w)]
    + (if e in s.payloads && s.payloads[e].Malformed? then [DeadLetter(w), Ack(w)]
       else if TurnOf(s, e) in s.keys then [CheckFirst(w, No), TellFirst(w, Yes), Ack(w)]
       else [CheckFirst(w, No), CheckSecond(w), End(w, Completes), Ack(w)])
  }

  lemma RunCons(s: State, step: Step, rest: seq<Step>)
    ensures Run(s, [step] + rest) == Run(Next(s, step), rest)
  {
    assert ([step] + rest)[1..] == rest;
  }

  lemma {:induction false} RunConcat(s: State, a: seq<Step>, b: seq<Step>)
    ensures Run(s, a + b) == Run(Run(s, a), b)
    decreases |a|
  {
    if a == [] {
      assert a + b == b;
    } else {
      assert (a + b)[1..] == a[1..] + b;
      RunConcat(Next(s, a[0]), a[1..], b);
    }
  }

  /** No entry is stuck: whatever crashed before, any idle Worker can take an entry that is not acknowledged and
      bring it to its acknowledgement. */
  lemma EveryEntryCanBeSettled(s: State, w: string, e: nat)
    requires e in s.entries && e in s.payloads && !s.entries[e].Acked? && PcOf(s, w) == Idle
    ensures Run(s, Through(s, w, e)).entries
            == s.entries[e := Acked(if s.payloads[e].Malformed? then DeadLettered
                                    else if TurnOf(s, e) in s.keys then FoundCancelled else Executed)]
  {
    var take := if s.entries[e] == Unread then Read(w, e) else Reclaim(w, e);
    var decoded := Next(Next(s, take), Decode(w));
    TakenAndDecoded(s, w, e, take);
    RunTwo(s, take, Decode(w));
    var rest := Through(s, w, e)[2..];
    assert Through(s, w, e) == [take, Decode(w)] + rest;
    RunConcat(s, [take, Decode(w)], rest);
    if s.payloads[e].Malformed? {
      FinishPoisoned(decoded, w);
    } else if TurnOf(s, e) in s.keys {
      FinishCancelled(decoded, w);
    } else {
      FinishExecuted(decoded, w);
    }
  }

  lemma TakenAndDecoded(s: State, w: string, e: nat, take: Step)
    requires e in s.entries && e in s.payloads && !s.entries[e].Acked? && PcOf(s, w) == Idle
    requires take == if s.entries[e] == Unread then Read(w, e) else Reclaim(w, e)
    ensures var r := Next(Next(s, take), Decode(w));
            && r.entries == s.entries[e := Pending(w)] && r.payloads == s.payloads && r.keys == s.keys
            && PcOf(r, w).At? && PcOf(r, w).entry == e
            && StandsAt(r, w, if s.payloads[e].Malformed? then Poisoned else FirstCheck)
  {
    assert PcOf(Next(s, take), w) == At(e, s.deliveries, Decoding);
  }

  lemma RunTwo(s: State, a: Step, b: Step)
    ensures Run(s, [a, b]) == Next(Next(s, a), b)
  {
    RunCons(s, a, [b]);
    RunCons(Next(s, a), b, []);
    assert [a] + [b] == [a, b] && [b] + [] == [b];
  }

  lemma FinishPoisoned(s: State, w: string)
    requires StandsAt(s, w, Poisoned) && s.entries[PcOf(s, w).entry].Pending?
    ensures Run(s, [DeadLetter(w), Ack(w)]).entries == s.entries[PcOf(s, w).entry := Acked(DeadLettered)]
  {
    RunTwo(s, DeadLetter(w), Ack(w));
  }

  lemma FinishCancelled(s: State, w: string)
    requires StandsAt(s, w, FirstCheck) && s.entries[PcOf(s, w).entry].Pending?
    requires TurnOf(s, PcOf(s, w).entry) in s.keys
    ensures Run(s, [CheckFirst(w, No), TellFirst(w, Yes), Ack(w)]).entries
            == s.entries[PcOf(s, w).entry := Acked(FoundCancelled)]
  {
    var found := Next(s, CheckFirst(w, No));
    assert PcOf(found, w).stage == CancelFound;
    RunCons(s, CheckFirst(w, No), [TellFirst(w, Yes), Ack(w)]);
    assert [CheckFirst(w, No)] + [TellFirst(w, Yes), Ack(w)] == [CheckFirst(w, No), TellFirst(w, Yes), Ack(w)];
    RunTwo(found, TellFirst(w, Yes), Ack(w));
  }

  lemma FinishExecuted(s: State, w: string)
    requires StandsAt(s, w, FirstCheck) && s.entries[PcOf(s, w).entry].Pending?
    requires TurnOf(s, PcOf(s, w).entry) !in s.keys
    ensures Run(s, [CheckFirst(w, No), CheckSecond(w), End(w, Completes), Ack(w)]).entries
            == s.entries[PcOf(s, w).entry := Acked(Executed)]
  {
    var first, last := [CheckFirst(w, No), CheckSecond(w)], [End(w, Completes), Ack(w)];
    assert first + last == [CheckFirst(w, No), CheckSecond(w), End(w, Completes), Ack(w)];
    RunConcat(s, first, last);
    RunTwo(s, CheckFirst(w, No), CheckSecond(w));
    BothChecksPass(s, w);
    RunningCompletes(Run(s, first), w);
  }

  lemma BothChecksPass(s: State, w: string)
    requires StandsAt(s, w, FirstCheck) && TurnOf(s, PcOf(s, w).entry) !in s.keys
    ensures var r := Next(Next(s, CheckFirst(w, No)), CheckSecond(w));
            StandsAt(r, w, Running) && r.entries == s.entries && PcOf(r, w).entry == PcOf(s, w).entry
  {
    assert PcOf(Next(s, CheckFirst(w, No)), w) == PcOf(s, w).(stage := SecondCheck);
  }

  lemma RunningCompletes(s: State, w: string)
    requires StandsAt(s, w, Running) && s.entries[PcOf(s, w).entry].Pending?
    ensures Run(s, [End(w, Completes), Ack(w)]).entries == s.entries[PcOf(s, w).entry := Acked(Executed)]
  {
    RunTwo(s, End(w, Completes), Ack(w));
    assert PcOf(Next(s, End(w, Completes)), w) == PcOf(s, w).(stage := Acking(Executed));
  }

  /** Executing a delivery that then crashes before its acknowledgement leaves the entry to be executed again. */
  lemma CrashBeforeAckRepeats(s: State, w: string)
    requires StandsAt(s, w, Running) && s.entries[PcOf(s, w).entry].Pending?
    ensures var e := PcOf(s, w).entry;
            var r := Next(Next(s, End(w, Completes)), Crash(w));
            e in r.finished && Enabled(r, Reclaim(w, e))
  {
  }

  // ---------------------------------------------------------- one delivery

  /** What a Worker meets while it takes one entry through: what others do before each of its steps that looks
      outside, what it is answered, whether a request to stop reaches it while it executes, and how the execution
      ends otherwise. */
  datatype Meets = Meets(
    beforeFirst: seq<Step>, terminal: Answer, toldFirst: Answer, beforeSecond: seq<Step>, toldSecond: Answer,
    beforeEnd: seq<Step>, stops: bool, ending: Ending, toldStopped: Answer)

  predicate ByOthers(steps: seq<Step>, w: string) {
    forall step :: step in steps ==> Actor(step) != Some(w)
  }

  predicate AllByOthers(m: Meets, w: string) {
    ByOthers(m.beforeFirst, w) && ByOthers(m.beforeSecond, w) && ByOthers(m.beforeEnd, w)
  }

  /** The cancel keys that are set after some steps; only setting and dropping keys matters. */
  function KeysAfter(keys: set<string>, steps: seq<Step>): set<string>
    decreases |steps|
  {
    if steps == [] then keys
    else KeysAfter(if steps[0].SetKey? then keys + {steps[0].turn}
                   else if steps[0].DropKey? then keys - {steps[0].turn} else keys, steps[1..])
  }

  /** The turns whose key was set at some time. */
  function KeyedAfter(keyed: set<string>, steps: seq<Step>): set<string>
    decreases |steps|
  {
    if steps == [] then keyed
    else KeyedAfter(if steps[0].SetKey? then keyed + {steps[0].turn} else keyed, steps[1..])
  }

  predicate Succeeds(answer: Answer) {
    answer == Yes || answer == No
  }

  /** What an execution comes to that is stopped or left to its own end. */
  function SettlesEnd(stopped: bool, m: Meets): Option<Why> {
    if stopped then
      if Succeeds(m.toldStopped) then Some(StoppedUponRequest) else None
    else
      match m.ending
      case Completes => Some(Executed)
      case RaisesCancellation => if Succeeds(m.toldStopped) then Some(GaveUp) else None
      case RaisesError => None
  }

  /** What becomes of a turn that the first check has let pass. */
  function SettlesLater(turn: string, keys: set<string>, keyed: set<string>, m: Meets): Option<Why> {
    if turn in KeysAfter(keys, m.beforeSecond) then
      if Succeeds(m.toldSecond) then Some(CancelledBeforeStart) else None
    else SettlesEnd(m.stops && turn in KeyedAfter(KeyedAfter(keyed, m.beforeSecond), m.beforeEnd), m)
  }

  /** What becomes of a turn whose key the first check finds. */
  function SettlesFound(m: Meets): Option<Why> {
    match m.toldFirst
    case NotFound => Some(DeadLettered)
    case Breaks => None
    case _ => Some(FoundCancelled)
  }

  /** What becomes of a turn that may be over already. */
  function SettlesOver(terminal: Answer): Option<Why> {
    match terminal
    case NotFound => Some(DeadLettered)
    case Yes => Some(FoundTerminal)
    case _ => None
  }

  /** Why the Worker acknowledges the entry it takes, from `keys` and `keyed` at the start and what it meets; `None`
      if it does not. */
  function Settles(payload: Payload, keys: set<string>, keyed: set<string>, m: Meets): Option<Why> {
    match payload
    case Malformed => Some(DeadLettered)
    case Task(turn) =>
      var first := KeysAfter(keys, m.beforeFirst);
      if turn in first then SettlesFound(m)
      else if m.terminal != No then SettlesOver(m.terminal)
      else SettlesLater(turn, first, KeyedAfter(keyed, m.beforeFirst), m)
  }

  /** Nobody but `w` is busy with an entry. */
  predicate Alone(s: State, w: string, e: nat) {
    forall v :: v in s.workers && v != w && s.workers[v].At? ==> s.workers[v].entry != e
  }

  predicate NobodyReclaims(steps: seq<Step>, e: nat) {
    forall step :: step in steps ==> !(step.Reclaim? && step.entry == e)
  }

  predicate Undisturbed(s: State, w: string, e: nat, m: Meets) {
    && Alone(s, w, e)
    && NobodyReclaims(m.beforeFirst, e) && NobodyReclaims(m.beforeSecond, e) && NobodyReclaims(m.beforeEnd, e)
  }

  /** `steps` lead from `s` to `r`. */
  ghost predicate Leads(s: State, steps: seq<Step>, r: State) {
    r == Run(s, steps)
  }

  lemma LeadsFurther(s: State, steps: seq<Step>, r: State, more: seq<Step>)
    requires Leads(s, steps, r)
    ensures Leads(s, steps + more, Run(r, more))
  {
    RunConcat(s, steps, more);
  }

  lemma LeadsOn(s: State, steps: seq<Step>, r: State, step: Step)
    requires Leads(s, steps, r)
    ensures Leads(s, steps + [step], Next(r, step))
  {
    LeadsFurther(s, steps, r, [step]);
    RunCons(r, step, []);
    assert [step] + [] == [step];
  }

  /** The Worker stands at the entry it took, which was read and still holds `payload`. */
  predicate Handles(s: State, w: string, e: nat, payload: Payload) {
    && e in s.entries && s.entries[e] != Unread && e in s.payloads && s.payloads[e] == payload
    && (PcOf(s, w).At? ==> PcOf(s, w).entry == e)
  }

  /** Nobody else has touched the entry. */
  predicate Untouched(s: State, w: string, e: nat) {
    e in s.entries && s.entries[e] == Pending(w) && Alone(s, w, e)
  }

  lemma OtherStep(s: State, w: string, e: nat, payload: Payload, step: Step)
    requires Actor(step) != Some(w) && Handles(s, w, e, payload)
    ensures Handles(Next(s, step), w, e, payload) && PcOf(Next(s, step), w) == PcOf(s, w)
  {
    StepIsLocal(s, step);
    StepIsLater(s, step);
  }

  lemma OtherStepKeeps(s: State, w: string, e: nat, step: Step)
    requires Actor(step) != Some(w) && Untouched(s, w, e) && !(step.Reclaim? && step.entry == e)
    ensures Untouched(Next(s, step), w, e)
  {
  }

  /** What others do leaves the Worker where it is, and the entry alone unless they take it from it. */
  lemma {:induction false} OthersPass(s: State, w: string, e: nat, payload: Payload, steps: seq<Step>)
    requires ByOthers(steps, w) && Handles(s, w, e, payload)
    ensures var r := Run(s, steps);
            && Handles(r, w, e, payload) && PcOf(r, w) == PcOf(s, w)
            && (Untouched(s, w, e) && NobodyReclaims(steps, e) ==> Untouched(r, w, e))
            && r.keys == KeysAfter(s.keys, steps) && r.keyed == KeyedAfter(s.keyed, steps)
    decreases |steps|
  {
    if steps != [] {
      OtherStep(s, w, e, payload, steps[0]);
      if Untouched(s, w, e) && NobodyReclaims(steps, e) {
        OtherStepKeeps(s, w, e, steps[0]);
      }
      OthersPass(Next(s, steps[0]), w, e, payload, steps[1..]);
    }
  }

  /** One step of the Worker itself at the entry it took, short of the acknowledgement. */
  lemma OwnStep(s: State, w: string, e: nat, payload: Payload, step: Step)
    requires Handles(s, w, e, payload) && Actor(step) == Some(w)
    requires !step.Ack? && !step.Read? && !step.Reclaim?
    ensures Handles(Next(s, step), w, e, payload)
    ensures Untouched(s, w, e) ==> Untouched(Next(s, step), w, e)
    ensures Next(s, step).keys == s.keys && Next(s, step).keyed == s.keyed
  {
  }

  /** The Worker has given up, or stands before its last steps; `why` is what it will acknowledge. */
  predicate Decided(s: State, w: string, why: Option<Why>) {
    match PcOf(s, w)
    case Idle => why.None?
    case At(_, _, stage) =>
      match stage
      case Poisoned => why == Some(DeadLettered)
      case Acking(because) => why == Some(because)
      case _ => false
  }

  /** Takes one entry through, reclaiming an abandoned one first.  What it met decides whether and why the entry is
      acknowledged, and the call counts it exactly then; if nobody else takes the entry meanwhile, its state is
      exactly that.  The call is a run of the model. */
  method RunOnce(s: State, w: string, abandoned: Option<nat>, unread: Option<nat>, m: Meets)
    returns (r: State, processed: nat, ghost steps: seq<Step>)
    requires PcOf(s, w) == Idle
    requires abandoned.Some? ==> Enabled(s, Reclaim(w, abandoned.value))
    requires unread.Some? ==> Enabled(s, Read(w, unread.value))
    requires AllByOthers(m, w)
    ensures Leads(s, steps, r) && PcOf(r, w) == Idle
    ensures abandoned.None? && unread.None? ==> r == s && processed == 0
    ensures abandoned.Some? || unread.Some? ==>
              var e := if abandoned.Some? then abandoned.value else unread.value;
              var why := Settles(s.payloads[e], s.keys, s.keyed, m);
              && processed == (if why.Some? then 1 else 0)
              && e in r.entries && (why.Some? ==> r.entries[e].Acked?)
              && (Undisturbed(s, w, e, m) ==> r.entries[e] == if why.Some? then Acked(why.value) else Pending(w))
  {
    r, processed, steps := s, 0, [];
    if abandoned.None? && unread.None? {
      return;
    }
    var e := if abandoned.Some? then abandoned.value else unread.value;
    ghost var why, alone := Settles(s.payloads[e], s.keys, s.keyed, m), Undisturbed(s, w, e, m);
    r, steps := TakeEntry(s, w, e, if abandoned.Some? then Reclaim(w, e) else Read(w, e));
    r, steps := FirstLook(s, steps, r, w, e, s.payloads[e], m, why, alone);
    r, steps := SecondLook(s, steps, r, w, e, s.payloads[e], m, why, alone);
    if PcOf(r, w).At? {
      r, steps := Settle(s, steps, r, w, e, s.payloads[e], why, alone);
      processed := 1;
    }
  }

  method Does(s: State, ghost steps: seq<Step>, r: State, step: Step) returns (r2: State, ghost steps2: seq<Step>)
    requires Leads(s, steps, r)
    ensures r2 == Next(r, step) && Leads(s, steps2, r2)
  {
    LeadsOn(s, steps, r, step);
    r2, steps2 := Next(r, step), steps + [step];
  }

  /** Others take their steps. */
  method Waits(s: State, ghost steps: seq<Step>, r: State, w: string, e: nat, ghost payload: Payload, others: seq<Step>)
    returns (r2: State, ghost steps2: seq<Step>)
    requires Leads(s, steps, r) && ByOthers(others, w) && Handles(r, w, e, payload)
    ensures Leads(s, steps2, r2) && Handles(r2, w, e, payload) && PcOf(r2, w) == PcOf(r, w)
    ensures Untouched(r, w, e) && NobodyReclaims(others, e) ==> Untouched(r2, w, e)
    ensures r2.keys == KeysAfter(r.keys, others) && r2.keyed == KeyedAfter(r.keyed, others)
  {
    OthersPass(r, w, e, payload, others);
    LeadsFurther(s, steps, r, others);
    r2, steps2 := Run(r, others), steps + others;
  }

  /** One more step of the Worker at its entry. */
  method Proceeds(s: State, ghost steps: seq<Step>, r: State, w: string, e: nat, ghost payload: Payload, step: Step)
    returns (r2: State, ghost steps2: seq<Step>)
    requires Leads(s, steps, r) && Handles(r, w, e, payload)
    requires Actor(step) == Some(w) && !step.Ack? && !step.Read? && !step.Reclaim?
    ensures Leads(s, steps2, r2) && r2 == Next(r, step) && Handles(r2, w, e, payload)
    ensures Untouched(r, w, e) ==> Untouched(r2, w, e)
    ensures r2.keys == r.keys && r2.keyed == r.keyed
  {
    OwnStep(r, w, e, payload, step);
    r2, steps2 := Does(s, steps, r, step);
  }

  /** Takes an entry and looks at its payload. */
  method TakeEntry(s: State, w: string, e: nat, take: Step) returns (r: State, ghost steps: seq<Step>)
    requires Enabled(s, take) && (take == Read(w, e) || take == Reclaim(w, e))
    ensures Leads(s, steps, r) && Handles(r, w, e, s.payloads[e])
    ensures Alone(s, w, e) ==> Untouched(r, w, e)
    ensures r.keys == s.keys && r.keyed == s.keyed
    ensures StandsAt(r, w, if s.payloads[e].Malformed? then Poisoned else FirstCheck)
  {
    r, steps := Does(s, [], s, take);
    assert PcOf(r, w) == At(e, s.deliveries, Decoding);
    r, steps := Proceeds(s, steps, r, w, e, s.payloads[e], Decode(w));
  }

  /** The first check, unless the entry cannot be read. */
  method FirstLook(
    s: State, ghost steps: seq<Step>, r0: State, w: string, e: nat, ghost payload: Payload, m: Meets,
    ghost why: Option<Why>, ghost alone: bool)
    returns (r: State, ghost steps2: seq<Step>)
    requires Leads(s, steps, r0) && Handles(r0, w, e, payload) && ByOthers(m.beforeFirst, w)
    requires StandsAt(r0, w, if payload.Malformed? then Poisoned else FirstCheck)
    requires why == Settles(payload, r0.keys, r0.keyed, m)
    requires alone ==> Untouched(r0, w, e) && NobodyReclaims(m.beforeFirst, e)
    ensures Leads(s, steps2, r) && Handles(r, w, e, payload) && (alone ==> Untouched(r, w, e))
    ensures Decided(r, w, why) || Passed(r, w, payload, m, why)
  {
    r, steps2 := r0, steps;
    if PcOf(r, w).stage == Poisoned {
      return;
    }
    r, steps2 := Waits(s, steps2, r, w, e, payload, m.beforeFirst);
    FirstCheckDecides(r, w, e, payload, m);
    r, steps2 := Proceeds(s, steps2, r, w, e, payload, CheckFirst(w, m.terminal));
    if PcOf(r, w).At? && PcOf(r, w).stage == CancelFound {
      r, steps2 := Proceeds(s, steps2, r, w, e, payload, TellFirst(w, m.toldFirst));
    }
  }

  lemma FirstCheckDecides(s: State, w: string, e: nat, payload: Payload, m: Meets)
    requires Handles(s, w, e, payload) && StandsAt(s, w, FirstCheck) && payload.Task?
    ensures var r := Next(s, CheckFirst(w, m.terminal));
            if payload.turn in s.keys then
              && PcOf(r, w).At? && PcOf(r, w).stage == CancelFound
              && Decided(Next(r, TellFirst(w, m.toldFirst)), w, SettlesFound(m))
            else
              && (PcOf(r, w).At? ==> PcOf(r, w).stage != CancelFound)
              && (if m.terminal == No then StandsAt(r, w, SecondCheck) else Decided(r, w, SettlesOver(m.terminal)))
  {
  }

  /** The first check has let the turn pass; `why` depends on what comes behind it. */
  predicate Passed(s: State, w: string, payload: Payload, m: Meets, why: Option<Why>) {
    StandsAt(s, w, SecondCheck) && payload.Task? && why == SettlesLater(payload.turn, s.keys, s.keyed, m)
  }

  /** The second check and the execution, if the first check has let the turn pass. */
  method SecondLook(
    s: State, ghost steps: seq<Step>, r0: State, w: string, e: nat, ghost payload: Payload, m: Meets,
    ghost why: Option<Why>, ghost alone: bool)
    returns (r: State, ghost steps2: seq<Step>)
    requires Leads(s, steps, r0) && Handles(r0, w, e, payload)
    requires ByOthers(m.beforeSecond, w) && ByOthers(m.beforeEnd, w)
    requires Decided(r0, w, why) || Passed(r0, w, payload, m, why)
    requires alone ==> Untouched(r0, w, e) && NobodyReclaims(m.beforeSecond, e) && NobodyReclaims(m.beforeEnd, e)
    ensures Leads(s, steps2, r) && Handles(r, w, e, payload) && (alone ==> Untouched(r, w, e))
    ensures Decided(r, w, why)
  {
    r, steps2 := r0, steps;
    if PcOf(r, w) == Idle || PcOf(r, w).stage != SecondCheck {
      return;
    }
    r, steps2 := Waits(s, steps2, r, w, e, payload, m.beforeSecond);
    r, steps2 := Proceeds(s, steps2, r, w, e, payload, CheckSecond(w));
    if PcOf(r, w).stage == CancelFoundAgain {
      r, steps2 := Proceeds(s, steps2, r, w, e, payload, TellSecond(w, m.toldSecond));
    } else {
      r, steps2 := Executes(s, steps2, r, w, e, payload, m, why, alone);
    }
  }

  /** The execution: stopped upon a request that reaches the Worker, or left to its own end. */
  method Executes(
    s: State, ghost steps: seq<Step>, r0: State, w: string, e: nat, ghost payload: Payload, m: Meets,
    ghost why: Option<Why>, ghost alone: bool)
    returns (r: State, ghost steps2: seq<Step>)
    requires Leads(s, steps, r0) && Handles(r0, w, e, payload) && ByOthers(m.beforeEnd, w)
    requires StandsAt(r0, w, Running) && payload.Task?
    requires why == SettlesEnd(m.stops && payload.turn in KeyedAfter(r0.keyed, m.beforeEnd), m)
    requires alone ==> Untouched(r0, w, e) && NobodyReclaims(m.beforeEnd, e)
    ensures Leads(s, steps2, r) && Handles(r, w, e, payload) && (alone ==> Untouched(r, w, e))
    ensures Decided(r, w, why)
  {
    r, steps2 := Waits(s, steps, r0, w, e, payload, m.beforeEnd);
    EndDecides(r, w, e, payload, m);
    r, steps2 := Proceeds(s, steps2, r, w, e, payload, EndStep(r, w, m));
    if PcOf(r, w).At? && PcOf(r, w).stage.Stopping? {
      r, steps2 := Proceeds(s, steps2, r, w, e, payload, TellStopped(w, m.toldStopped));
    }
  }

  function EndStep(s: State, w: string, m: Meets): Step {
    if m.stops && Enabled(s, Stop(w)) then Stop(w) else End(w, m.ending)
  }

  lemma EndDecides(s: State, w: string, e: nat, payload: Payload, m: Meets)
    requires Handles(s, w, e, payload) && StandsAt(s, w, Running) && payload.Task?
    ensures var why, r := SettlesEnd(m.stops && payload.turn in s.keyed, m), Next(s, EndStep(s, w, m));
            if PcOf(r, w).At? && PcOf(r, w).stage.Stopping?
            then Decided(Next(r, TellStopped(w, m.toldStopped)), w, why)
            else Decided(r, w, why)
  {
  }

  /** Writes the dead letter of an entry that cannot be executed, and acknowledges. */
  method Settle(
    s: State, ghost steps: seq<Step>, r0: State, w: string, e: nat, ghost payload: Payload,
    ghost why: Option<Why>, ghost alone: bool)
    returns (r: State, ghost steps2: seq<Step>)
    requires Leads(s, steps, r0) && Handles(r0, w, e, payload) && PcOf(r0, w).At? && Decided(r0, w, why)
    requires alone ==> Untouched(r0, w, e)
    ensures Leads(s, steps2, r) && PcOf(r, w) == Idle && why.Some?
    ensures e in r.entries && r.entries[e].Acked? && (alone ==> r.entries[e] == Acked(why.value))
  {
    r, steps2 := r0, steps;
    if PcOf(r, w).stage == Poisoned {
      r, steps2 := Proceeds(s, steps2, r, w, e, payload, DeadLetter(w));
    }
    r, steps2 := Does(s, steps2, r, Ack(w));
  }
}
