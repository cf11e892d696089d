/** Running tools: what a descriptor may promise, how often a tool is invoked, and which calls overlap. */
module ToolRuntime {
  import opened Collections

  datatype Kind = Timeout | Network | RateLimit | Execution | ToolError | PermissionDenied | Validation

  datatype LockScope = Unlocked | SessionLock | GlobalLock

  datatype Descriptor = Descriptor(
    highRisk: bool, readOnly: bool, idempotent: bool, concurrencySafe: bool, exclusive: bool,
    lockScope: LockScope, maxAttempts: nat, retryKinds: set<Kind>)

  /** What is checked of a descriptor's flags; an exclusive tool without a lock gets the global one. */
  function Validated(d: Descriptor): Option<Descriptor> {
    if d.exclusive && d.concurrencySafe then None
    else
      var e := if d.exclusive && d.lockScope == Unlocked then d.(lockScope := GlobalLock) else d;
      if e.lockScope != Unlocked && e.concurrencySafe then None
      else if !e.readOnly && e.concurrencySafe then None
      else if e.maxAttempts > 1 && !(e.readOnly || e.idempotent) then None
      else if e.maxAttempts < 1 || e.maxAttempts > 5 || !(e.retryKinds <= {Timeout, Network, RateLimit}) then None
      else Some(e)
  }

  /** What callers may rely on. */
  predicate Contract(d: Descriptor) {
    && (d.concurrencySafe ==> d.readOnly && !d.exclusive && d.lockScope == Unlocked)
    && (d.exclusive ==> d.lockScope != Unlocked)
    && (d.maxAttempts > 1 ==> d.readOnly || d.idempotent)
    && 1 <= d.maxAttempts <= 5
    && d.retryKinds <= {Timeout, Network, RateLimit}
  }

  /** A descriptor passes exactly when it keeps the contract once an exclusive tool has been given its lock. */
  lemma ValidatedIffContract(d: Descriptor)
    ensures var locked := if d.exclusive && d.lockScope == Unlocked then d.(lockScope := GlobalLock) else d;
            Validated(d) == if Contract(locked) then Some(locked) else None
  {
  }

  // ------------------------------------------------------------ one call

  /** How one invocation ends: an exception is classified by its text. */
  datatype Ending = Returns | ReportsError | TimesOut | Raises(kind: Kind) | IsCancelled

  datatype Result = Success(attempts: nat) | Failure(kind: Kind, retryable: bool, attempts: nat) | Abandoned(attempts: nat)

  predicate Repeatable(d: Descriptor) {
    d.readOnly || d.idempotent
  }

  /** The failure that an exception stands for. */
  function Classified(d: Descriptor, kind: Kind, attempt: nat): Result {
    Failure(kind, (kind == RateLimit || kind == Network) && Repeatable(d) && kind in d.retryKinds, attempt)
  }

  function Judged(d: Descriptor, e: Ending, attempt: nat): Result {
    match e
    case Returns => Success(attempt)
    case ReportsError => Failure(ToolError, false, attempt)
    case TimesOut => Failure(Timeout, Repeatable(d) && Timeout in d.retryKinds, attempt)
    case Raises(kind) => Classified(d, kind, attempt)
    case IsCancelled => Abandoned(attempt)
  }

  predicate ShouldRetry(d: Descriptor, r: Result, attempt: nat) {
    r.Failure? && r.retryable && r.kind in d.retryKinds && attempt < d.maxAttempts && Repeatable(d)
  }

  /** An ending after which another attempt makes sense: a timeout, a network failure or a rate limit that the
      descriptor lists, of a tool that may run twice. */
  predicate Transient(d: Descriptor, e: Ending) {
    && Repeatable(d)
    && match e
       case TimesOut => Timeout in d.retryKinds
       case Raises(kind) => (kind == Network || kind == RateLimit) && kind in d.retryKinds
       case _ => false
  }

  lemma RetryMeansTransient(d: Descriptor, e: Ending, attempt: nat)
    ensures ShouldRetry(d, Judged(d, e, attempt), attempt) <==> Transient(d, e) && attempt < d.maxAttempts
  {
  }

  /** Invokes a tool until it does not fail transiently or its attempts are used up.
      `endings(k)` is how its k-th invocation ends. */
  method Execute(d: Descriptor, granted: bool, valid: bool, endings: nat -> Ending)
    returns (r: Result, invoked: nat)
    requires d.maxAttempts >= 1
    ensures r.attempts == invoked
    ensures invoked == 0 <==> (d.highRisk && !granted) || !valid
    ensures d.highRisk && !granted ==> r == Failure(PermissionDenied, false, 0)
    ensures !(d.highRisk && !granted) && !valid ==> r == Failure(Validation, false, 0)
    ensures invoked <= d.maxAttempts
    ensures invoked > 0 ==> r == Judged(d, endings(invoked), invoked)
    ensures invoked > 0 ==> (r.Success? <==> endings(invoked) == Returns)
    ensures invoked > 0 ==> (r.Abandoned? <==> endings(invoked) == IsCancelled)
    ensures invoked > 0 && endings(invoked) == ReportsError ==> r.Failure? && r.kind == ToolError
    ensures invoked > 0 && endings(invoked) == TimesOut ==> r.Failure? && r.kind == Timeout
    ensures invoked > 0 && endings(invoked).Raises? ==> r.Failure? && r.kind == endings(invoked).kind
    ensures invoked > 0 && r.Failure? ==> (r.retryable <==> Transient(d, endings(invoked)))
    ensures forall k: nat :: 1 <= k < invoked ==> Transient(d, endings(k))
    ensures 0 < invoked < d.maxAttempts ==> !Transient(d, endings(invoked))
    ensures !Repeatable(d) ==> invoked <= 1
  {
    invoked := 0;
    if d.highRisk && !granted {
      return Failure(PermissionDenied, false, 0), 0;
    }
    if !valid {
      return Failure(Validation, false, 0), 0;
    }
    r := Failure(Execution, false, 0);
    var attempt := 1;
    while attempt <= d.maxAttempts
      invariant 1 <= attempt <= d.maxAttempts + 1
      invariant invoked == attempt - 1
      invariant invoked > 0 ==> r == Judged(d, endings(invoked), invoked)
      invariant forall k: nat :: 1 <= k < attempt ==> Transient(d, endings(k)) || k == d.maxAttempts
      invariant invoked > 0 && invoked < d.maxAttempts ==> Transient(d, endings(invoked))
    {
      invoked := attempt;
      r := Judged(d, endings(attempt), attempt);
      RetryMeansTransient(d, endings(attempt), attempt);
      if r.Success? || !ShouldRetry(d, r, attempt) {
        break;
      }
      attempt := attempt + 1;
    }
    assert invoked > 1 ==> Transient(d, endings(1));
  }

  // ----------------------------------------------------------- many calls

  /** A call of a tool that is not granted has no descriptor. */
  predicate Safe(calls: seq<Option<Descriptor>>, i: nat)
    requires i < |calls|
  {
    calls[i].Some? && calls[i].value.concurrencySafe
  }

  /** The indexes from `a` up to but not including `b`. */
  function Range(a: nat, b: nat): (r: seq<nat>)
    requires a <= b
    ensures |r| == b - a && forall k :: 0 <= k < |r| ==> r[k] == a + k
  {
    seq(b - a, k requires 0 <= k < b - a => a + k)
  }

  lemma RangeHas(a: nat, b: nat)
    requires a <= b
    ensures forall k: nat :: k in Range(a, b) <==> a <= k < b
  {
    forall k: nat | a <= k < b
      ensures k in Range(a, b)
    {
      assert Range(a, b)[k - a] == k;
    }
  }

  function Concat(batches: seq<seq<nat>>): seq<nat> {
    if batches == [] then [] else Concat(batches[..|batches| - 1]) + batches[|batches| - 1]
  }

  lemma ConcatSnoc(batches: seq<seq<nat>>, b: seq<nat>)
    ensures Concat(batches + [b]) == Concat(batches) + b
  {
    assert (batches + [b])[..|batches|] == batches;
  }

  /** One call, or several of which each is safe. */
  predicate BatchOk(calls: seq<Option<Descriptor>>, b: seq<nat>) {
    && b != []
    && (forall k :: 0 <= k < |b| ==> b[k] < |calls|)
    && (|b| > 1 ==> forall k :: 0 <= k < |b| ==> Safe(calls, b[k]))
  }

  /** Batches of safe calls are as long as they can be: two neighbours are never both safe. */
  predicate Separated(calls: seq<Option<Descriptor>>, a: seq<nat>, b: seq<nat>)
    requires BatchOk(calls, a) && BatchOk(calls, b)
  {
    !(Safe(calls, a[0]) && Safe(calls, b[0]))
  }

  ghost predicate Batched(calls: seq<Option<Descriptor>>, batches: seq<seq<nat>>) {
    && (forall i :: 0 <= i < |batches| ==> BatchOk(calls, batches[i]))
    && (forall i :: 0 <= i < |batches| - 1 ==> Separated(calls, batches[i], batches[i + 1]))
  }

  // ------------------------------------------------------- when calls run

  /** What can be seen from outside: a call starts, a call ends. */
  datatype Act = Starts(call: nat) | Ends(call: nat)

  /** A stage of running the calls from `a` up to `b`: those of `todo` have not started, those of `running` have not
      ended, and every call starts and ends once, in that order. */
  ghost predicate Partly(trace: seq<Act>, a: nat, b: nat, todo: set<nat>, running: set<nat>) {
    && Distinct(trace) && todo !! running
    && (forall k :: k in todo || k in running ==> a <= k < b)
    && (forall act :: act in trace ==> a <= act.call < b)
    && (forall k: nat :: Starts(k) in trace <==> a <= k < b && k !in todo)
    && (forall k: nat :: Ends(k) in trace <==> a <= k < b && k !in todo && k !in running)
    && (forall q :: 0 <= q < |trace| && trace[q].Ends? ==> Starts(trace[q].call) in trace[..q])
  }

  /** All calls from `a` up to `b` have run. */
  ghost predicate Ran(trace: seq<Act>, a: nat, b: nat) {
    Partly(trace, a, b, {}, {})
  }

  lemma NextStarts(trace: seq<Act>, a: nat, b: nat, todo: set<nat>, running: set<nat>, k: nat)
    requires Partly(trace, a, b, todo, running) && k in todo
    ensures Partly(trace + [Starts(k)], a, b, todo - {k}, running + {k})
  {
    DistinctSnoc(trace, Starts(k));
    StartsFirst(trace, Starts(k));
  }

  lemma NextEnds(trace: seq<Act>, a: nat, b: nat, todo: set<nat>, running: set<nat>, k: nat)
    requires Partly(trace, a, b, todo, running) && k in running
    ensures Partly(trace + [Ends(k)], a, b, todo, running - {k})
  {
    DistinctSnoc(trace, Ends(k));
    StartsFirst(trace, Ends(k));
  }

  lemma DistinctSnoc(trace: seq<Act>, act: Act)
    requires Distinct(trace) && act !in trace
    ensures Distinct(trace + [act])
  {
  }

  lemma StartsFirst(trace: seq<Act>, act: Act)
    requires forall q :: 0 <= q < |trace| && trace[q].Ends? ==> Starts(trace[q].call) in trace[..q]
    requires act.Ends? ==> Starts(act.call) in trace
    ensures var t := trace + [act];
            forall q :: 0 <= q < |t| && t[q].Ends? ==> Starts(t[q].call) in t[..q]
  {
    var t := trace + [act];
    forall q | 0 <= q < |t| && t[q].Ends?
      ensures Starts(t[q].call) in t[..q]
    {
      assert t[..q] == trace[..q];
    }
  }

  function Numbers(a: nat, b: nat): (r: set<nat>)
    requires a <= b
    ensures forall k: nat :: k in r <==> a <= k < b
  {
    RangeHas(a, b);
    set k | k in Range(a, b)
  }

  function InOrder<R>(slots: map<nat, R>, a: nat, b: nat): (r: seq<R>)
    requires a <= b && forall k :: a <= k < b ==> k in slots
    ensures |r| == b - a
  {
    seq(b - a, k requires 0 <= k < b - a => slots[a + k])
  }

  /** The results of the calls from `a` up to `b` that are not `open` any more. */
  ghost predicate Filled<R(!new)>(slots: map<nat, R>, a: nat, b: nat, open: set<nat>, run: nat -> R) {
    && (forall k: nat :: a <= k < b && k !in open ==> k in slots)
    && (forall k: nat :: k in slots ==> slots[k] == run(k))
  }

  lemma Moving(todo: set<nat>, running: set<nat>, k: nat)
    requires k in todo && todo !! running
    ensures (todo - {k}) + (running + {k}) == todo + running
    ensures |todo - {k}| == |todo| - 1 && |running + {k}| == |running| + 1
  {
  }

  lemma Fill<R(!new)>(
    slots: map<nat, R>, a: nat, b: nat, todo: set<nat>, running: set<nat>, run: nat -> R, k: nat)
    requires Filled(slots, a, b, todo + running, run) && k in running
    ensures Filled(slots[k := run(k)], a, b, todo + (running - {k}), run)
    ensures |running - {k}| == |running| - 1
  {
  }

  lemma FilledAgrees<R(!new)>(slots: map<nat, R>, a: nat, b: nat, run: nat -> R)
    requires a <= b && Filled(slots, a, b, {}, run)
    ensures forall k :: a <= k < b ==> k in slots
    ensures Agrees(InOrder(slots, a, b), a, run)
  {
    var r := InOrder(slots, a, b);
    forall k | 0 <= k < |r|
      ensures r[k] == run(a + k)
    {
      assert a + k in slots;
    }
  }

  /** Runs the calls of a batch together.  They start and end in any order; the results are in the order of the
      calls. */
  method Gather<R(0,!new)>(start: nat, end: nat, run: nat -> R) returns (results: seq<R>, ghost trace: seq<Act>)
    requires start <= end
    ensures |results| == end - start && Agrees(results, start, run)
    ensures Ran(trace, start, end)
  {
    var todo, running := Numbers(start, end), {};
    var slots: map<nat, R> := map[];
    trace := [];
    while todo != {} || running != {}
      invariant Filled(slots, start, end, todo + running, run)
      invariant Partly(trace, start, end, todo, running)
      decreases |todo| + |todo| + |running|
    {
      if {
        case todo != {} =>
          var k :| k in todo;
          NextStarts(trace, start, end, todo, running, k);
          Moving(todo, running, k);
          todo, running, trace := todo - {k}, running + {k}, trace + [Starts(k)];
        case running != {} =>
          var k :| k in running;
          NextEnds(trace, start, end, todo, running, k);
          Fill(slots, start, end, todo, running, run, k);
          slots, running, trace := slots[k := run(k)], running - {k}, trace + [Ends(k)];
      }
    }
    assert todo + running == {};
    FilledAgrees(slots, start, end, run);
    results := InOrder(slots, start, end);
  }

  /** Result number `k` is what call `start + k` came to. */
  ghost predicate Agrees<R(!new)>(results: seq<R>, start: nat, run: nat -> R) {
    forall k :: 0 <= k < |results| ==> results[k] == run(start + k)
  }

  lemma AgreesAppend<R(!new)>(a: seq<R>, b: seq<R>, run: nat -> R)
    requires Agrees(a, 0, run) && Agrees(b, |a|, run)
    ensures Agrees(a + b, 0, run)
  {
  }

  /** Acts of different batches are in the order of the calls: a batch starts when the one before it has ended. */
  ghost predicate InTurn(batches: seq<seq<nat>>, trace: seq<Act>) {
    forall p, q :: 0 <= p < q < |trace| ==>
      SameBatch(batches, trace[p].call, trace[q].call) || trace[p].call < trace[q].call
  }

  ghost predicate SameBatch(batches: seq<seq<nat>>, i: nat, j: nat) {
    exists b :: b in batches && i in b && j in b
  }

  lemma RanAppend(s: seq<Act>, t: seq<Act>, a: nat, b: nat, c: nat)
    requires a <= b <= c && Ran(s, a, b) && Ran(t, b, c)
    ensures Ran(s + t, a, c)
  {
    var all := s + t;
    forall p, q | 0 <= p < q < |all|
      ensures all[p] != all[q]
    {
      if p < |s| <= q {
        assert all[p] in s && all[q] in t;
      }
    }
    forall q | 0 <= q < |all| && all[q].Ends?
      ensures Starts(all[q].call) in all[..q]
    {
      if q < |s| {
        assert all[..q] == s[..q];
      } else {
        assert all[..q] == s + t[..q - |s|];
      }
    }
  }

  lemma InTurnAppend(batches: seq<seq<nat>>, s: seq<Act>, t: seq<Act>, a: nat, b: nat, c: nat)
    requires a <= b <= c && Ran(s, a, b) && Ran(t, b, c) && InTurn(batches, s)
    ensures InTurn(batches + [Range(b, c)], s + t)
  {
    var all, more := s + t, batches + [Range(b, c)];
    RangeHas(b, c);
    forall p, q | 0 <= p < q < |all|
      ensures SameBatch(more, all[p].call, all[q].call) || all[p].call < all[q].call
    {
      if q < |s| {
        assert SameBatch(batches, s[p].call, s[q].call) ==> SameBatch(more, s[p].call, s[q].call);
      } else if p < |s| {
        assert all[p] in s && all[q] in t;
      } else {
        assert all[p] in t && all[q] in t && Range(b, c) in more;
      }
    }
  }

  lemma OneRuns(k: nat)
    ensures Ran([Starts(k), Ends(k)], k, k + 1)
  {
    assert [Starts(k), Ends(k)][..1] == [Starts(k)];
  }

  /** The calls before `n` have run, batch by batch, and call `n` does not belong to the last batch. */
  ghost predicate RanUpTo(calls: seq<Option<Descriptor>>, batches: seq<seq<nat>>, trace: seq<Act>, n: nat)
    requires n <= |calls|
  {
    && Concat(batches) == Range(0, n) && Batched(calls, batches)
    && Ran(trace, 0, n) && InTurn(batches, trace)
    && (batches != [] && n < |calls| ==> !(Safe(calls, batches[|batches| - 1][0]) && Safe(calls, n)))
  }

  lemma RanFurther(
    calls: seq<Option<Descriptor>>, batches: seq<seq<nat>>, trace: seq<Act>, acts: seq<Act>, start: nat, end: nat)
    requires start < end <= |calls| && RanUpTo(calls, batches, trace, start) && Ran(acts, start, end)
    requires end == start + 1 || forall i: nat :: start <= i < end ==> Safe(calls, i)
    requires end < |calls| ==> !(Safe(calls, start) && Safe(calls, end))
    ensures RanUpTo(calls, batches + [Range(start, end)], trace + acts, end)
  {
    AddBatch(calls, batches, start, end);
    RanAppend(trace, acts, 0, start, end);
    InTurnAppend(batches, trace, acts, 0, start, end);
  }

  /** Runs the calls in order, neighbouring safe calls together.  `run(i)` is what call `i` comes to. */
  method ExecuteMany<R(0,!new)>(calls: seq<Option<Descriptor>>, run: nat -> R)
    returns (results: seq<R>, batches: seq<seq<nat>>, ghost trace: seq<Act>)
    ensures |results| == |calls|
    ensures Agrees(results, 0, run)
    ensures Concat(batches) == Range(0, |calls|)
    ensures Batched(calls, batches)
    ensures Ran(trace, 0, |calls|) && InTurn(batches, trace)
  {
    results, batches, trace := [], [], [];
    var index := 0;
    while index < |calls|
      invariant 0 <= index <= |calls| && |results| == index
      invariant Agrees(results, 0, run)
      invariant RanUpTo(calls, batches, trace, index)
    {
      var start, more := index, [];
      ghost var acts;
      if !Safe(calls, index) {
        more := [run(index)];
        OneRuns(index);
        acts := [Starts(index), Ends(index)];
        index := index + 1;
      } else {
        while index < |calls| && Safe(calls, index)
          invariant start <= index <= |calls|
          invariant forall i: nat :: start <= i < index ==> Safe(calls, i)
        {
          index := index + 1;
        }
        more, acts := Gather(start, index, run);
      }
      AgreesAppend(results, more, run);
      RanFurther(calls, batches, trace, acts, start, index);
      results, batches, trace := results + more, batches + [Range(start, index)], trace + acts;
    }
  }

  lemma AddBatch(calls: seq<Option<Descriptor>>, batches: seq<seq<nat>>, start: nat, end: nat)
    requires Batched(calls, batches) && start < end <= |calls|
    requires end == start + 1 || forall i: nat :: start <= i < end ==> Safe(calls, i)
    requires batches != [] ==> !(Safe(calls, batches[|batches| - 1][0]) && Safe(calls, start))
    requires Concat(batches) == Range(0, start)
    ensures Batched(calls, batches + [Range(start, end)])
    ensures Concat(batches + [Range(start, end)]) == Range(0, end)
  {
    var b := Range(start, end);
    AppendBatched(calls, batches, b);
    ConcatSnoc(batches, b);
    RangeConcat(start, end);
  }

  lemma RangeConcat(start: nat, end: nat)
    requires start <= end
    ensures Range(0, start) + Range(start, end) == Range(0, end)
  {
  }

  lemma AppendBatched(calls: seq<Option<Descriptor>>, batches: seq<seq<nat>>, b: seq<nat>)
    requires Batched(calls, batches) && BatchOk(calls, b)
    requires batches != [] ==> Separated(calls, batches[|batches| - 1], b)
    ensures Batched(calls, batches + [b])
  {
    var all := batches + [b];
    forall i | 0 <= i < |all| - 1
      ensures Separated(calls, all[i], all[i + 1])
    {
      if i < |batches| - 1 {
        assert Separated(calls, batches[i], batches[i + 1]);
      }
    }
  }

  /** Call `j` starts while call `i` is running. */
  ghost predicate StartsDuring(trace: seq<Act>, i: nat, j: nat) {
    exists p, x, q :: 0 <= p < x < q < |trace| && trace[p] == Starts(i) && trace[x] == Starts(j) && trace[q] == Ends(i)
  }

  lemma OverlapIsInBatch(batches: seq<seq<nat>>, trace: seq<Act>, i: nat, j: nat)
    requires InTurn(batches, trace) && StartsDuring(trace, i, j) && i != j
    ensures SameBatch(batches, i, j)
  {
    var p, x, q :| 0 <= p < x < q < |trace|
      && trace[p] == Starts(i) && trace[x] == Starts(j) && trace[q] == Ends(i);
    assert SameBatch(batches, trace[p].call, trace[x].call) || i < j;
    assert SameBatch(batches, trace[x].call, trace[q].call) || j < i;
  }

  /** Only calls of read-only, lock-free tools ever run at the same time. */
  lemma OnlyReadersOverlap(
    calls: seq<Option<Descriptor>>, batches: seq<seq<nat>>, trace: seq<Act>, i: nat, j: nat)
    requires Batched(calls, batches) && InTurn(batches, trace)
    requires StartsDuring(trace, i, j) && i != j
    requires forall k :: 0 <= k < |calls| && calls[k].Some? ==> Contract(calls[k].value)
    ensures i < |calls| && j < |calls| && calls[i].Some? && calls[j].Some?
    ensures calls[i].value.readOnly && calls[j].value.readOnly
    ensures calls[i].value.lockScope == Unlocked && calls[j].value.lockScope == Unlocked
  {
    OverlapIsInBatch(batches, trace, i, j);
    var b :| b in batches && i in b && j in b;
    var x :| 0 <= x < |b| && b[x] == i;
    var y :| 0 <= y < |b| && b[y] == j;
    assert BatchOk(calls, b);
    assert x != y;
    assert Safe(calls, b[x]) && Safe(calls, b[y]);
  }

  /** The batches are the only ones of this kind: they are determined by the calls. */
  lemma {:induction false} BatchesAreDetermined(calls: seq<Option<Descriptor>>, a: seq<seq<nat>>, b: seq<seq<nat>>, n: nat)
    requires n <= |calls|
    requires Batched(calls, a) && Batched(calls, b)
    requires Concat(a) == Range(0, n) && Concat(b) == Range(0, n)
    ensures a == b
    decreases n
  {
    if n == 0 {
      EmptyConcat(calls, a);
      EmptyConcat(calls, b);
    } else {
      var p := LastStart(calls, a, n);
      var q := LastStart(calls, b, n);
      var a2, b2 := a[..|a| - 1], b[..|b| - 1];
      if p != q {
        SameStart(calls, a, b, n, p, q);
      }
      BatchedPrefix(calls, a);
      BatchedPrefix(calls, b);
      BatchesAreDetermined(calls, a2, b2, p);
      assert a == a2 + [a[|a| - 1]] && b == b2 + [b[|b| - 1]];
    }
  }

  lemma BatchedPrefix(calls: seq<Option<Descriptor>>, a: seq<seq<nat>>)
    requires Batched(calls, a) && a != []
    ensures Batched(calls, a[..|a| - 1])
  {
    var p := a[..|a| - 1];
    forall i | 0 <= i < |p| - 1
      ensures Separated(calls, p[i], p[i + 1])
    {
      assert Separated(calls, a[i], a[i + 1]);
    }
  }

  lemma EmptyConcat(calls: seq<Option<Descriptor>>, a: seq<seq<nat>>)
    requires Batched(calls, a)
    ensures a == [] <==> Concat(a) == []
  {
    if a != [] {
      assert BatchOk(calls, a[|a| - 1]);
    }
  }

  /** Where the last batch starts. */
  lemma LastStart(calls: seq<Option<Descriptor>>, a: seq<seq<nat>>, n: nat) returns (p: nat)
    requires Batched(calls, a) && Concat(a) == Range(0, n) && 0 < n <= |calls|
    ensures a != [] && p < n && a[|a| - 1] == Range(p, n) && Concat(a[..|a| - 1]) == Range(0, p)
  {
    var last, front := a[|a| - 1], Concat(a[..|a| - 1]);
    assert BatchOk(calls, last);
    assert Concat(a) == front + last;
    p := |front|;
    assert front == Range(0, n)[..p] && last == Range(0, n)[p..];
  }

  /** Two ways to cut off the last batch would put two safe batches next to each other. */
  lemma SameStart(calls: seq<Option<Descriptor>>, a: seq<seq<nat>>, b: seq<seq<nat>>, n: nat, p: nat, q: nat)
    requires n <= |calls| && Batched(calls, a) && Batched(calls, b) && a != [] && b != []
    requires p < n && q < n && a[|a| - 1] == Range(p, n) && b[|b| - 1] == Range(q, n)
    requires Concat(a[..|a| - 1]) == Range(0, p) && Concat(b[..|b| - 1]) == Range(0, q)
    ensures p == q
  {
    if p < q {
      LaterStart(calls, a, b, n, p, q);
    }
    if q < p {
      LaterStart(calls, b, a, n, q, p);
    }
  }

  lemma LaterStart(calls: seq<Option<Descriptor>>, a: seq<seq<nat>>, b: seq<seq<nat>>, n: nat, p: nat, q: nat)
    requires n <= |calls| && Batched(calls, a) && Batched(calls, b) && a != [] && b != []
    requires p < n && q < n && a[|a| - 1] == Range(p, n) && b[|b| - 1] == Range(q, n)
    requires Concat(b[..|b| - 1]) == Range(0, q)
    ensures q <= p
  {
    if p < q {
      InLastBatch(calls, a, n, p, q - 1);
      InLastBatch(calls, a, n, p, q);
      NotBothSafe(calls, b, n, q);
    }
  }

  lemma InLastBatch(calls: seq<Option<Descriptor>>, a: seq<seq<nat>>, n: nat, p: nat, i: nat)
    requires p <= i < n <= |calls| && n - p > 1
    requires Batched(calls, a) && a != [] && a[|a| - 1] == Range(p, n)
    ensures Safe(calls, i)
  {
    assert BatchOk(calls, a[|a| - 1]);
    assert a[|a| - 1][i - p] == i;
  }

  /** The calls on both sides of the last cut are not both safe. */
  lemma NotBothSafe(calls: seq<Option<Descriptor>>, b: seq<seq<nat>>, n: nat, q: nat)
    requires n <= |calls| && Batched(calls, b) && b != [] && 0 < q < n && b[|b| - 1] == Range(q, n)
    requires Concat(b[..|b| - 1]) == Range(0, q)
    ensures !(Safe(calls, q - 1) && Safe(calls, q))
  {
    BatchedPrefix(calls, b);
    var s := LastStart(calls, b[..|b| - 1], q);
    var m := |b| - 2;
    assert Separated(calls, b[m], b[m + 1]);
    assert BatchOk(calls, b[m]) && b[m] == Range(s, q);
    assert b[m][q - 1 - s] == q - 1;
  }
}
