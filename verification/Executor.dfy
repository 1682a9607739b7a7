/** The supervised embedding executor of `src/executor.rs` and its child loops
    (`run_embedding_executor` in Rust, `runProtocol` with `ProgressHeartbeat` in Swift).

    Parent and child exchange lines over two pipes. A step of `Sys` is one read, one
    write, one spawn, one line of a child, or one of the things that can go wrong at
    any moment: the caller's future is dropped, the child dies or hangs, the watchdog
    fires. A result says which command it was computed for. */
module Executor {
  import opened Basics

  type CallId = nat
  type RequestId = nat
  type Command = string

  // ---------------------------------------------------------------- Identity

  /** `ExecutorIdentity` */
  datatype Identity = Identity(backend: string, modelId: string, modelRevision: string, dimensions: nat)

  /** The fields of a child's `Ready` message. */
  datatype Report = Report(
    protocolVersion: Option<nat>,
    backend: Option<string>,
    modelId: Option<string>,
    modelRevision: Option<string>,
    dimensions: Option<nat>,
    cacheNamespace: Option<string>
  )

  const PROTOCOL_VERSION: nat := 1

  /** A published cache namespace: the verified identity and the child's own part. */
  datatype Namespace = Namespace(identity: Identity, own: string)

  /** `validate_ready` */
  predicate IsReadyFor(expected: Identity, report: Report) {
    && report.protocolVersion == Some(PROTOCOL_VERSION)
    && report.backend == Some(expected.backend)
    && report.modelId == Some(expected.modelId)
    && report.modelRevision == Some(expected.modelRevision)
    && report.dimensions == Some(expected.dimensions)
  }

  function NamespaceOf(expected: Option<Identity>, report: Report): Option<Namespace> {
    if expected.None? || report.cacheNamespace.None? || report.cacheNamespace.value == "" then None
    else Some(Namespace(expected.value, report.cacheNamespace.value))
  }

  // ---------------------------------------------------------------- Messages

  datatype Request = Request(id: RequestId, command: Command)

  datatype Answer = Completed(command: Command) | Failed(metalFault: bool)

  /** What one read of the child's output can yield. */
  datatype Line =
    | Progress(id: RequestId)
    | Terminal(id: RequestId, answer: Answer)
    | Ready
    | Garbled

  datatype ReadOutcome = Got(line: Line) | TimedOut | ReadFailed | StreamClosed

  /** What `exchange` does after a read. */
  datatype Disposition =
    | Continue
    | Return(command: Command)
    | FailFatal
    | Restart(replayable: bool, mismatched: bool)

  function Classify(id: RequestId, read: ReadOutcome): Disposition {
    match read
    case TimedOut => Restart(false, false)
    case ReadFailed => Restart(false, false)
    case StreamClosed => Restart(false, false)
    case Got(Garbled) => Restart(false, false)
    case Got(Progress(other)) => if other == id then Continue else Restart(false, true)
    case Got(Terminal(other, answer)) =>
      if other != id then Restart(false, true)
      else
        (match answer
         case Completed(command) => Return(command)
         case Failed(metalFault) => if metalFault then Restart(true, false) else FailFatal)
    case Got(Ready) => Restart(false, true)
  }

  // ---------------------------------------------------------------- The child

  /** What a child is doing. The heartbeat of the current request runs on its own
      queue: `armed` until `stop` has drained it, `firing` while a callback is about
      to write its line. */
  datatype Phase =
    | Waiting
    | Working(request: Request, armed: bool, firing: bool)
    | Dead

  datatype Child = Child(
    generation: nat,
    report: Report,
    phase: Phase,
    stdin: seq<Request>,
    stdout: seq<Line>
  )

  datatype ChildStep =
    | Take
    | Fire
    | Beat
    | StopHeartbeat
    | Finish(answer: Answer)
    | Die(torn: bool)

  /** The steps of a well-behaved child. It may die, perhaps in the middle of a line,
      and hangs by taking no step. */
  ghost predicate ChildNext(c: Child, step: ChildStep, d: Child) {
    match step
    case Take =>
      && c.phase.Waiting? && c.stdin != []
      && d == c.(phase := Working(c.stdin[0], true, false), stdin := c.stdin[1..],
                 stdout := c.stdout + [Progress(c.stdin[0].id)])
    case Fire =>
      && c.phase.Working? && c.phase.armed && !c.phase.firing
      && d == c.(phase := c.phase.(firing := true))
    case Beat =>
      && c.phase.Working? && c.phase.firing
      && d == c.(phase := c.phase.(firing := false), stdout := c.stdout + [Progress(c.phase.request.id)])
    case StopHeartbeat =>
      && c.phase.Working? && c.phase.armed && !c.phase.firing
      && d == c.(phase := c.phase.(armed := false))
    case Finish(answer) =>
      && c.phase.Working? && !c.phase.armed
      && (answer.Completed? ==> answer.command == c.phase.request.command)
      && d == c.(phase := Waiting, stdout := c.stdout + [Terminal(c.phase.request.id, answer)])
    case Die(torn) =>
      && (torn ==> c.phase.Working?)
      && d == c.(phase := Dead, stdout := if torn then c.stdout + [Garbled] else c.stdout)
  }

  // --------------------------------------------------------------- The parent

  datatype Ending = Answered(command: Command) | FatalError | Retriable(replayable: bool) | Abandoned

  /** Where the holder of the state lock stands in `exchange`. */
  datatype At = Spawning | Writing | Reading | Respawning(replayable: bool)

  datatype Holder = Free | Holding(call: CallId, request: Request, at: At)

  /** `calls` records each request that ever took the lock and how it ended. */
  datatype Call = Call(request: Request, ending: Option<Ending>)

  datatype Sys = Sys(
    expected: Option<Identity>,
    child: Option<Child>,
    holder: Holder,
    nextRequest: RequestId,
    nextGeneration: nat,
    calls: map<CallId, Call>,
    cacheNamespace: Option<Option<Namespace>>,
    forceCpu: bool,
    mismatches: nat
  )
  {
    /** `cache_namespace()` */
    function Published(): Option<Namespace> {
      if forceCpu || cacheNamespace.None? then None else cacheNamespace.value
    }
  }

  datatype Step =
    | Acquire(call: CallId, command: Command)
    | Spawn(report: Report)
    | SpawnFails
    | Write
    | WriteFails
    | Read(read: ReadOutcome)
    | StopFails
    | Cancel
    | TerminateIdle
    | Adopt(generation: nat)
    | OfChild(step: ChildStep)

  function End(s: Sys, ending: Ending): Sys
    requires s.holder.Holding?
  {
    s.(holder := Free, calls := s.calls[s.holder.call := Call(s.holder.request, Some(ending))])
  }

  function Go(s: Sys, at: At): Sys
    requires s.holder.Holding?
  {
    s.(holder := s.holder.(at := at))
  }

  /** The identity check `spawn_child` makes before it hands the child over. The cache
      namespace is a write-once cell: the first child to get here fills it. */
  predicate Admits(s: Sys, report: Report) {
    && (s.expected.Some? ==> IsReadyFor(s.expected.value, report))
    && (Cell(s, report) == NamespaceOf(s.expected, report) || s.forceCpu)
  }

  function Cell(s: Sys, report: Report): Option<Namespace> {
    if s.cacheNamespace.None? then NamespaceOf(s.expected, report) else s.cacheNamespace.value
  }

  ghost predicate Next(s: Sys, step: Step, t: Sys) {
    match step
    case Acquire(call, command) =>
      && s.holder.Free? && call !in s.calls
      && var request := Request(s.nextRequest, command);
         t == s.(holder := Holding(call, request, if s.child.None? then Spawning else Writing),
                 nextRequest := s.nextRequest + 1,
                 calls := s.calls[call := Call(request, None)])
    case Spawn(report) =>
      && s.holder.Holding? && (s.holder.at.Spawning? || s.holder.at.Respawning?)
      && SpawnStep(s, report, t)
    case SpawnFails =>
      && s.holder.Holding? && (s.holder.at.Spawning? || s.holder.at.Respawning?)
      && t == End(s.(child := None, nextGeneration := s.nextGeneration + 1),
                  if s.holder.at.Spawning? then FatalError else Retriable(false))
    case Write =>
      && s.holder.Holding? && s.holder.at.Writing? && s.child.Some?
      && t == Go(s.(child := Some(s.child.value.(stdin := s.child.value.stdin + [s.holder.request]))), Reading)
    case WriteFails =>
      && s.holder.Holding? && s.holder.at.Writing?
      && t == Go(s.(child := None), Respawning(false))
    case Read(read) =>
      && s.holder.Holding? && s.holder.at.Reading? && s.child.Some?
      && Delivers(s.child.value, read)
      && ReadStep(s, read, t)
    case StopFails =>
      && s.holder.Holding? && s.holder.at.Respawning?
      && t == End(s.(child := None), Retriable(false))
    case Cancel =>
      && s.holder.Holding?
      && t == End(s.(child := None), Abandoned)
    case TerminateIdle =>
      s.holder.Free? && t == s.(child := None)
    case Adopt(generation) =>
      && s.holder.Free?
      && t == if s.child.Some? then s.(child := Some(s.child.value.(generation := generation))) else s
    case OfChild(inner) =>
      && s.child.Some? && t.child.Some?
      && ChildNext(s.child.value, inner, t.child.value)
      && t == s.(child := t.child)
  }

  /** A child that is ready: admitted, or refused after the namespace cell was filled. */
  ghost predicate SpawnStep(s: Sys, report: Report, t: Sys)
    requires s.holder.Holding?
  {
    var checked := s.(nextGeneration := s.nextGeneration + 1);
    if s.expected.Some? && !IsReadyFor(s.expected.value, report) then
      t == End(checked.(child := None), if s.holder.at.Spawning? then FatalError else Retriable(false))
    else
      var filled := checked.(cacheNamespace := Some(Cell(s, report)));
      if !Admits(s, report) then
        t == End(filled.(child := None), if s.holder.at.Spawning? then FatalError else Retriable(false))
      else
        var started := filled.(child := Some(Child(s.nextGeneration, report, Waiting, [], [])));
        match s.holder.at
        case Spawning => t == Go(started, Writing)
        case Respawning(replayable) => t == End(started, Retriable(replayable))
        case _ => false
  }

  /** A read yields the oldest unread line; the end of the stream only once the child
      is dead and its output used up. A timeout or failure can come at any time. */
  ghost predicate Delivers(c: Child, read: ReadOutcome) {
    match read
    case Got(line) => c.stdout != [] && c.stdout[0] == line
    case StreamClosed => c.phase.Dead? && c.stdout == []
    case _ => true
  }

  ghost predicate ReadStep(s: Sys, read: ReadOutcome, t: Sys)
    requires s.holder.Holding? && s.child.Some? && Delivers(s.child.value, read)
  {
    var c := s.child.value;
    var consumed := if read.Got? then s.(child := Some(c.(stdout := c.stdout[1..]))) else s;
    match Classify(s.holder.request.id, read)
    case Continue => t == consumed
    case Return(command) => t == End(consumed, Answered(command))
    case FailFatal => t == End(consumed, FatalError)
    case Restart(replayable, mismatched) =>
      t == Go(consumed.(child := None,
                        forceCpu := s.forceCpu || replayable,
                        mismatches := s.mismatches + if mismatched then 1 else 0), Respawning(replayable))
  }

  // ---------------------------------------------------------------- Invariant

  ghost predicate AllProgress(lines: seq<Line>, id: RequestId) {
    ProgressUpTo(lines, |lines|, id)
  }

  ghost predicate ProgressUpTo(lines: seq<Line>, n: int, id: RequestId) {
    forall i :: 0 <= i < n && i < |lines| ==> lines[i] == Progress(id)
  }

  /** No request outstanding and nothing left to read. */
  ghost predicate Quiet(c: Child) {
    c.stdin == [] && c.stdout == [] && !c.phase.Working?
  }

  /** Exactly one request is outstanding, and everything unread belongs to it. */
  ghost predicate Conversing(c: Child, request: Request) {
    || (c.stdin == [request] && c.stdout == [] && !c.phase.Working?)
    || (c.stdin == [] && AllProgress(c.stdout, request.id)
        && (c.phase.Working? ==> c.phase.request == request && (c.phase.firing ==> c.phase.armed))
        && !c.phase.Waiting?)
    || (c.stdin == [] && !c.phase.Working? && EndsInAnswer(c.stdout, request))
    || (c.stdin == [] && c.phase.Dead? && EndsTorn(c.stdout, request))
  }

  ghost predicate EndsTorn(lines: seq<Line>, request: Request) {
    lines != [] && ProgressUpTo(lines, |lines| - 1, request.id) && lines[|lines| - 1] == Garbled
  }

  ghost predicate EndsInAnswer(lines: seq<Line>, request: Request) {
    && lines != []
    && ProgressUpTo(lines, |lines| - 1, request.id)
    && lines[|lines| - 1].Terminal? && lines[|lines| - 1].id == request.id
    && (lines[|lines| - 1].answer.Completed? ==> lines[|lines| - 1].answer.command == request.command)
  }

  ghost predicate Aligned(s: Sys) {
    match s.holder
    case Free => s.child.Some? ==> Quiet(s.child.value)
    case Holding(_, request, at) =>
      (match at
       case Spawning => s.child.None?
       case Respawning(_) => s.child.None?
       case Writing => s.child.Some? && Quiet(s.child.value)
       case Reading => s.child.Some? && Conversing(s.child.value, request))
  }

  ghost predicate CallsOk(s: Sys) {
    && (s.holder.Holding? ==> s.holder.call in s.calls && s.calls[s.holder.call] == Call(s.holder.request, None))
    && (forall call <- s.calls ::
          s.calls[call].ending.Some? && s.calls[call].ending.value.Answered? ==>
            s.calls[call].ending.value.command == s.calls[call].request.command)
    && (forall call <- s.calls :: s.calls[call].request.id < s.nextRequest)
  }

  ghost predicate NamespaceOk(s: Sys) {
    s.child.Some? ==>
      && s.cacheNamespace.Some?
      && (s.expected.Some? ==> IsReadyFor(s.expected.value, s.child.value.report))
      && (!s.forceCpu ==> s.cacheNamespace.value == NamespaceOf(s.expected, s.child.value.report))
  }

  ghost predicate Inv(s: Sys) {
    Aligned(s) && CallsOk(s) && NamespaceOk(s) && s.mismatches == 0
  }

  function Start(expected: Option<Identity>): Sys {
    Sys(expected, None, Free, 1, 1, map[], None, false, 0)
  }

  /** A well-behaved child keeps the conversation about one request. */
  lemma ChildKeepsConversing(c: Child, step: ChildStep, d: Child, request: Request)
    requires Conversing(c, request) && ChildNext(c, step, d)
    ensures Conversing(d, request)
  {
  }

  lemma ChildStaysQuiet(c: Child, step: ChildStep, d: Child)
    requires Quiet(c) && ChildNext(c, step, d)
    ensures Quiet(d)
  {
  }

  /** The oldest line of a conversation is this request's progress, with the
      conversation going on, or its answer, with nothing left behind it, or what a
      dying child left of a line. */
  lemma NextLineIsOurs(c: Child, request: Request)
    requires Conversing(c, request) && c.stdout != []
    ensures c.stdout[0] == Progress(request.id) || (c.stdout[0].Terminal? && c.stdout[0].id == request.id)
         || c.stdout[0] == Garbled
    ensures c.stdout[0].Progress? ==> Conversing(c.(stdout := c.stdout[1..]), request)
    ensures c.stdout[0].Terminal? ==>
              && Quiet(c.(stdout := c.stdout[1..]))
              && (c.stdout[0].answer.Completed? ==> c.stdout[0].answer.command == request.command)
  {
  }

  lemma ReadKeepsInv(s: Sys, read: ReadOutcome, t: Sys)
    requires Inv(s) && Next(s, Read(read), t)
    ensures Inv(t)
  {
    if read.Got? {
      NextLineIsOurs(s.child.value, s.holder.request);
    }
  }

  lemma ChildStepKeepsInv(s: Sys, inner: ChildStep, t: Sys)
    requires Inv(s) && Next(s, OfChild(inner), t)
    ensures Inv(t)
  {
    if s.holder.Holding? && s.holder.at.Reading? {
      ChildKeepsConversing(s.child.value, inner, t.child.value, s.holder.request);
    } else {
      ChildStaysQuiet(s.child.value, inner, t.child.value);
    }
  }

  lemma SpawnKeepsInv(s: Sys, report: Report, t: Sys)
    requires Inv(s) && Next(s, Spawn(report), t)
    ensures Inv(t)
  {
  }

  lemma OtherStepKeepsInv(s: Sys, step: Step, t: Sys)
    requires Inv(s) && Next(s, step, t) && !step.Read? && !step.Spawn? && !step.OfChild?
    ensures Inv(t)
  {
  }

  ghost predicate IsRun(run: seq<Sys>, steps: seq<Step>) {
    && |run| == |steps| + 1
    && run[0] == Start(run[0].expected)
    && forall i :: 0 <= i < |steps| ==> Next(run[i], steps[i], run[i + 1])
  }

  lemma {:induction false} InvAlways(run: seq<Sys>, steps: seq<Step>, i: nat)
    requires IsRun(run, steps) && i < |run|
    ensures Inv(run[i])
  {
    if i > 0 {
      InvAlways(run, steps, i - 1);
      hide Inv, Next;
      var before, step, after := run[i - 1], steps[i - 1], run[i];
      match step {
        case Read(read) => ReadKeepsInv(before, read, after);
        case Spawn(report) => SpawnKeepsInv(before, report, after);
        case OfChild(inner) => ChildStepKeepsInv(before, inner, after);
        case _ => OtherStepKeepsInv(before, step, after);
      }
    }
  }

  // ----------------------------------------------------------------- Theorems

  /** Through any run of requests, cancellations, deaths, hangs and restarts: whenever
      the lock is free there is no child or one with nothing outstanding and nothing
      unread, no line is ever taken for another request's, and every answered request
      was answered with the result of its own command. */
  lemma StreamsStayAligned(run: seq<Sys>, steps: seq<Step>, i: nat)
    requires IsRun(run, steps) && i < |run|
    ensures run[i].holder.Free? && run[i].child.Some? ==> Quiet(run[i].child.value)
    ensures run[i].mismatches == 0
    ensures forall call <- run[i].calls ::
              run[i].calls[call].ending.Some? && run[i].calls[call].ending.value.Answered? ==>
                run[i].calls[call].ending.value.command == run[i].calls[call].request.command
  {
    InvAlways(run, steps, i);
  }

  /** Why an abandoned child is retired: its unread line would be taken for a
      misaligned stream by any other request. */
  lemma AbandonedOutputIsMisread(c: Child, abandoned: Request, next: RequestId)
    requires Conversing(c, abandoned) && c.stdout != [] && c.stdout[0] != Garbled && next != abandoned.id
    ensures Classify(next, Got(c.stdout[0])) == Restart(false, true)
  {
    NextLineIsOurs(c, abandoned);
  }

  lemma CacheOnlyMovesOn(s: Sys, step: Step, t: Sys)
    requires Next(s, step, t)
    ensures s.cacheNamespace.Some? ==> t.cacheNamespace == s.cacheNamespace
    ensures s.forceCpu ==> t.forceCpu
    ensures t.expected == s.expected
  {
  }

  lemma {:induction false} CacheOnlyMovesOnInRuns(run: seq<Sys>, steps: seq<Step>, i: nat, j: nat)
    requires IsRun(run, steps) && i <= j < |run|
    ensures run[i].cacheNamespace.Some? ==> run[j].cacheNamespace == run[i].cacheNamespace
    ensures run[i].forceCpu ==> run[j].forceCpu
    decreases j - i
  {
    if i < j {
      CacheOnlyMovesOnInRuns(run, steps, i, j - 1);
      CacheOnlyMovesOn(run[j - 1], steps[j - 1], run[j]);
    }
  }

  /** The cache namespaces read over time are none, then one fixed value, then none
      again: between two moments that show one, every moment shows the same. */
  lemma PublishedNamespaceIsOneInterval(run: seq<Sys>, steps: seq<Step>, i: nat, j: nat, k: nat)
    requires IsRun(run, steps) && i <= j <= k < |run|
    requires run[i].Published().Some? && run[k].Published().Some?
    ensures run[j].Published() == run[i].Published() == run[k].Published()
  {
    CacheOnlyMovesOnInRuns(run, steps, i, j);
    CacheOnlyMovesOnInRuns(run, steps, j, k);
  }

  /** A child that answers while a namespace is published reported exactly the
      identity the namespace is made of. */
  lemma AnswersMatchPublishedNamespace(run: seq<Sys>, steps: seq<Step>, i: nat)
    requires IsRun(run, steps) && i < |steps|
    requires steps[i].Read? && run[i].holder.Holding?
    requires Classify(run[i].holder.request.id, steps[i].read).Return?
    requires run[i].Published().Some?
    ensures run[i].child.Some? && run[i].expected.Some?
    ensures var expected, report := run[i].expected.value, run[i].child.value.report;
            && report.protocolVersion == Some(1)
            && report.backend == Some(expected.backend)
            && report.modelId == Some(expected.modelId)
            && report.modelRevision == Some(expected.modelRevision)
            && report.dimensions == Some(expected.dimensions)
            && report.cacheNamespace.Some? && report.cacheNamespace.value != ""
            && run[i].Published() == Some(Namespace(expected, report.cacheNamespace.value))
  {
    InvAlways(run, steps, i);
    assert Next(run[i], steps[i], run[i + 1]);
  }

  /** As long as the CPU is not forced, a namespace is published while there is a child,
      exactly if the identity is known and the child named one. */
  lemma LiveChildPublishes(run: seq<Sys>, steps: seq<Step>, i: nat)
    requires IsRun(run, steps) && i < |run| && run[i].child.Some? && !run[i].forceCpu
    ensures var own := run[i].child.value.report.cacheNamespace;
            run[i].Published() == if run[i].expected.Some? && own.Some? && own.value != "" then
                                    Some(Namespace(run[i].expected.value, own.value))
                                  else None
  {
    InvAlways(run, steps, i);
  }

  /** A child that reports ready is taken exactly if it is the one expected and, unless
      the CPU is forced, goes with the namespace published before it. */
  lemma MatchingChildrenAreTaken(s: Sys, report: Report, t: Sys)
    requires Next(s, Spawn(report), t)
    ensures var isExpected := s.expected.Some? ==>
              && report.protocolVersion == Some(1)
              && report.backend == Some(s.expected.value.backend)
              && report.modelId == Some(s.expected.value.modelId)
              && report.modelRevision == Some(s.expected.value.modelRevision)
              && report.dimensions == Some(s.expected.value.dimensions);
            var fits := s.forceCpu || s.cacheNamespace.None?
                        || s.cacheNamespace.value == NamespaceOf(s.expected, report);
            && (t.child.Some? <==> isExpected && fits)
            && (t.child.Some? ==> t.child.value == Child(s.nextGeneration, report, Waiting, [], []))
  {
  }

  // ------------------------------------------------------- The exchange loop

  /** What the reads of one request amount to: the first that is not its own progress
      decides. Without one the loop is still reading. */
  function Decided(id: RequestId, outcomes: seq<ReadOutcome>): Disposition {
    if outcomes == [] then Continue
    else
      var earlier := Decided(id, outcomes[..|outcomes| - 1]);
      if earlier.Continue? then Classify(id, outcomes[|outcomes| - 1]) else earlier
  }

  datatype Attempt = Success(command: Command) | Failure(retriable: bool, replayForOperations: bool)

  /** The outcome of `exchange` for what was read and how a restart went. */
  function AttemptOf(decided: Disposition, restarted: bool): Attempt {
    match decided
    case Continue => Failure(true, false)
    case Return(command) => Success(command)
    case FailFatal => Failure(false, false)
    case Restart(replayable, _) => Failure(true, replayable && restarted)
  }

  // ------------------------------------------------ The loop in the whole system

  /** What the holder of the lock has read so far, before step `i`. */
  ghost function Reads(steps: seq<Step>, i: nat): seq<ReadOutcome>
    requires i <= |steps|
  {
    if i == 0 then [] else ReadsAfter(Reads(steps, i - 1), steps[i - 1])
  }

  /** Where the holder stands is what its reads amount to. */
  ghost predicate ReadsOk(s: Sys, read: seq<ReadOutcome>) {
    s.holder.Holding? ==>
      match s.holder.at
      case Spawning => read == []
      case Writing => read == []
      case Reading => Decided(s.holder.request.id, read).Continue?
      case Respawning(replayable) =>
        AttemptOf(Decided(s.holder.request.id, read), true) == Failure(true, replayable)
  }

  function EndingOf(attempt: Attempt): Ending {
    match attempt
    case Success(command) => Answered(command)
    case Failure(retriable, replayable) => if retriable then Retriable(replayable) else FatalError
  }

  lemma OneMoreRead(id: RequestId, read: seq<ReadOutcome>, last: ReadOutcome)
    requires Decided(id, read).Continue?
    ensures Decided(id, read + [last]) == Classify(id, last)
  {
    assert (read + [last])[..|read + [last]| - 1] == read;
  }

  /** What the holder has read after one more step. */
  function ReadsAfter(read: seq<ReadOutcome>, step: Step): seq<ReadOutcome> {
    match step
    case Acquire(_, _) => []
    case Read(last) => read + [last]
    case _ => read
  }

  lemma StepKeepsReads(s: Sys, step: Step, t: Sys, read: seq<ReadOutcome>)
    requires ReadsOk(s, read) && Next(s, step, t)
    ensures ReadsOk(t, ReadsAfter(read, step))
  {
    if step.Read? {
      hide Decided;
      OneMoreRead(s.holder.request.id, read, step.read);
    }
  }

  lemma {:induction false} ReadsAlwaysOk(run: seq<Sys>, steps: seq<Step>, i: nat)
    requires IsRun(run, steps) && i < |run|
    ensures ReadsOk(run[i], Reads(steps, i))
  {
    hide Next, ReadsAfter;
    if i > 0 {
      ReadsAlwaysOk(run, steps, i - 1);
      assert Next(run[i - 1], steps[i - 1], run[i]);
      StepKeepsReads(run[i - 1], steps[i - 1], run[i], Reads(steps, i - 1));
    }
  }

  lemma EndsAsDecided(s: Sys, step: Step, t: Sys, read: seq<ReadOutcome>)
    requires ReadsOk(s, read) && Next(s, step, t)
    requires s.holder.Holding? && t.holder.Free? && !step.Cancel?
    ensures s.holder.call in t.calls
    ensures t.calls[s.holder.call].ending ==
              Some(EndingOf(if s.holder.at.Spawning? then Failure(false, false)
                            else AttemptOf(Decided(s.holder.request.id, ReadsAfter(read, step)), t.child.Some?)))
  {
    if step.Read? {
      hide Decided;
      OneMoreRead(s.holder.request.id, read, step.read);
    }
  }

  /** A call that nobody abandons ends as the loop over its reads says, with a restart
      that worked if there is a child afterwards; one whose first child could not be
      spawned ends as a fatal error. */
  lemma CallsEndAsDecided(run: seq<Sys>, steps: seq<Step>, i: nat)
    requires IsRun(run, steps) && i < |steps|
    requires run[i].holder.Holding? && run[i + 1].holder.Free? && !steps[i].Cancel?
    ensures var h := run[i].holder;
            && h.call in run[i + 1].calls
            && run[i + 1].calls[h.call].ending ==
                 Some(EndingOf(if h.at.Spawning? then Failure(false, false)
                               else AttemptOf(Decided(h.request.id, Reads(steps, i + 1)), run[i + 1].child.Some?)))
  {
    hide ReadsOk, Next, ReadsAfter;
    ReadsAlwaysOk(run, steps, i);
    assert Next(run[i], steps[i], run[i + 1]);
    EndsAsDecided(run[i], steps[i], run[i + 1], Reads(steps, i));
  }

  // ------------------------------------------------------------ The supervisor

  /** How one attempt goes: what is read, and whether spawning, stopping and starting
      a child work out. */
  datatype Script = Script(outcomes: seq<ReadOutcome>, spawns: bool, stops: bool, starts: bool)

  function AttemptAt(id: RequestId, hasChild: bool, script: Script): Attempt {
    if !hasChild && !script.spawns then Failure(false, false)
    else AttemptOf(Decided(id, script.outcomes), script.stops && script.starts)
  }

  /** `request` tries again exactly once, and when. */
  predicate TriesAgain(operationScoped: bool, first: Attempt) {
    first.Failure? && first.retriable && (!operationScoped || first.replayForOperations)
  }

  /** One service with its child slot, as `exchange` and `request` change it. */
  class Supervisor {
    var generation: Option<nat>
    var nextGeneration: nat
    var nextRequest: RequestId
    var forceCpu: bool

    /** The counter is above every generation there was, so a new child's generation is
        above its predecessor's. */
    ghost predicate Valid()
      reads this
    {
      generation.Some? ==> generation.value < nextGeneration
    }

    /** The child is the one there was, or one of a later generation. */
    twostate predicate IsLater()
      reads this
    {
      generation.Some? && generation != old(generation) ==>
        && old(nextGeneration) <= generation.value
        && (old(generation).Some? ==> old(generation).value < generation.value)
    }

    constructor ()
      ensures Valid() && generation == None && nextRequest == 1 && !forceCpu
    {
      generation, nextGeneration, nextRequest, forceCpu := None, 1, 1, false;
    }

    /** `restart_child`: whatever happens, the old child is gone. */
    method RestartChild(stops: bool, starts: bool) returns (restarted: bool)
      requires Valid()
      modifies `generation, `nextGeneration
      ensures Valid() && nextGeneration >= old(nextGeneration) && IsLater()
      ensures restarted <==> stops && starts
      ensures generation == if restarted then Some(old(nextGeneration)) else None
    {
      generation := None;
      if !stops {
        return false;
      }
      nextGeneration := nextGeneration + 1;
      if !starts {
        return false;
      }
      generation := Some(nextGeneration - 1);
      restarted := true;
    }

    /** `exchange` after its request was written, over the reads it makes. A stream of
        reads that ends without deciding ends as a closed stream. */
    method Exchange(id: RequestId, outcomes: seq<ReadOutcome>, stops: bool, starts: bool) returns (attempt: Attempt)
      requires Valid() && generation.Some?
      modifies `generation, `nextGeneration, `forceCpu
      ensures Valid() && nextGeneration >= old(nextGeneration) && IsLater()
      ensures attempt == AttemptOf(Decided(id, outcomes), stops && starts)
      ensures Decided(id, outcomes).Return? || Decided(id, outcomes).FailFatal? ==> generation == old(generation)
      ensures Decided(id, outcomes).Restart? || Decided(id, outcomes).Continue? ==>
                generation == if stops && starts then Some(old(nextGeneration)) else None
      ensures forceCpu <==> old(forceCpu) || (Decided(id, outcomes).Restart? && Decided(id, outcomes).replayable)
    {
      for i := 0 to |outcomes|
        invariant Decided(id, outcomes[..i]).Continue?
        invariant Valid() && generation == old(generation) && nextGeneration == old(nextGeneration)
        invariant forceCpu == old(forceCpu)
      {
        assert outcomes[..i + 1][..i] == outcomes[..i];
        var disposition := Classify(id, outcomes[i]);
        match disposition {
          case Continue =>
          case Return(command) =>
            DecidedEarly(id, outcomes, i + 1);
            return Success(command);
          case FailFatal =>
            DecidedEarly(id, outcomes, i + 1);
            return Failure(false, false);
          case Restart(replayable, _) =>
            DecidedEarly(id, outcomes, i + 1);
            if replayable {
              forceCpu := true;
            }
            var restarted := RestartChild(stops, starts);
            return Failure(true, restarted && replayable);
        }
      }
      assert outcomes[..|outcomes|] == outcomes;
      var restarted := RestartChild(stops, starts);
      attempt := Failure(true, false);
    }

    /** `request_once`: a fresh request id, a child if there is none, one exchange. */
    method RequestOnce(script: Script) returns (attempt: Attempt, id: RequestId)
      requires Valid()
      modifies this
      ensures Valid() && nextGeneration >= old(nextGeneration) && IsLater()
      ensures id == old(nextRequest) && nextRequest == id + 1
      ensures attempt == AttemptAt(id, old(generation).Some?, script)
      ensures attempt.Failure? && attempt.replayForOperations ==> forceCpu && generation.Some?
      ensures attempt.Failure? && attempt.retriable ==> (generation.Some? <==> script.stops && script.starts)
      ensures old(forceCpu) ==> forceCpu
    {
      id := nextRequest;
      nextRequest := nextRequest + 1;
      if generation.None? {
        nextGeneration := nextGeneration + 1;
        if !script.spawns {
          return Failure(false, false), id;
        }
        generation := Some(nextGeneration - 1);
      }
      attempt := Exchange(id, script.outcomes, script.stops, script.starts);
    }

    /** `request`: a second attempt, under a new id, exactly when `TriesAgain` says so. */
    method Request(operationScoped: bool, first: Script, second: Script) returns (attempt: Attempt, attempts: nat)
      requires Valid()
      modifies this
      ensures Valid() && nextGeneration >= old(nextGeneration) && IsLater()
      ensures var before := AttemptAt(old(nextRequest), old(generation).Some?, first);
              && attempts == (if TriesAgain(operationScoped, before) then 2 else 1)
              && (attempts == 1 ==> attempt == before)
              && (attempts == 2 ==>
                    attempt == AttemptAt(old(nextRequest) + 1, first.stops && first.starts, second))
      ensures nextRequest == old(nextRequest) + attempts
    {
      var id;
      attempt, id := RequestOnce(first);
      if !TriesAgain(operationScoped, attempt) {
        return attempt, 1;
      }
      attempt, id := RequestOnce(second);
      attempts := 2;
    }
  }

  lemma {:induction false} DecidedEarly(id: RequestId, outcomes: seq<ReadOutcome>, n: nat)
    requires n <= |outcomes| && !Decided(id, outcomes[..n]).Continue?
    ensures Decided(id, outcomes) == Decided(id, outcomes[..n])
    decreases |outcomes|
  {
    if n < |outcomes| {
      assert outcomes[..|outcomes| - 1][..n] == outcomes[..n];
      DecidedEarly(id, outcomes[..|outcomes| - 1], n);
    } else {
      assert outcomes[..n] == outcomes;
    }
  }

  // ------------------------------------------------- What decides a request

  /** Read `n` is the first that is not the request's own progress. */
  ghost predicate IsFirstOther(id: RequestId, outcomes: seq<ReadOutcome>, n: nat) {
    && n < |outcomes| && outcomes[n] != Got(Progress(id))
    && forall m :: 0 <= m < n ==> outcomes[m] == Got(Progress(id))
  }

  /** The first read that is not the request's own progress is `read`. */
  ghost predicate IsDecidedBy(id: RequestId, outcomes: seq<ReadOutcome>, read: ReadOutcome) {
    exists n: nat :: IsFirstOther(id, outcomes, n) && outcomes[n] == read
  }

  ghost predicate IsAllProgress(id: RequestId, outcomes: seq<ReadOutcome>) {
    forall m :: 0 <= m < |outcomes| ==> outcomes[m] == Got(Progress(id))
  }

  lemma {:induction false} FirstOtherDecides(id: RequestId, outcomes: seq<ReadOutcome>) returns (n: nat)
    ensures if IsAllProgress(id, outcomes) then Decided(id, outcomes) == Continue
            else IsFirstOther(id, outcomes, n) && Decided(id, outcomes) == Classify(id, outcomes[n])
    ensures forall read :: IsDecidedBy(id, outcomes, read) <==> !IsAllProgress(id, outcomes) && outcomes[n] == read
  {
    n := 0;
    if outcomes != [] {
      var last := |outcomes| - 1;
      n := FirstOtherDecides(id, outcomes[..last]);
      assert forall m :: 0 <= m < last ==> outcomes[m] == outcomes[..last][m];
      if IsAllProgress(id, outcomes[..last]) {
        n := last;
      }
    }
    OneReadDecides(id, outcomes, n);
  }

  lemma OneReadDecides(id: RequestId, outcomes: seq<ReadOutcome>, n: nat)
    requires IsAllProgress(id, outcomes) || IsFirstOther(id, outcomes, n)
    ensures forall read :: IsDecidedBy(id, outcomes, read) <==> !IsAllProgress(id, outcomes) && outcomes[n] == read
  {
    forall read
      ensures IsDecidedBy(id, outcomes, read) <==> !IsAllProgress(id, outcomes) && outcomes[n] == read
    {
      if IsDecidedBy(id, outcomes, read) {
        var m: nat :| IsFirstOther(id, outcomes, m) && outcomes[m] == read;
        assert m == n;
      }
    }
  }

  /** A request succeeds exactly when the first read that is not its own progress is
      its own completion, and then its result is that completion's. */
  lemma SuccessIsOwnCompletion(id: RequestId, outcomes: seq<ReadOutcome>, command: Command)
    ensures Decided(id, outcomes) == Return(command) <==>
              IsDecidedBy(id, outcomes, Got(Terminal(id, Completed(command))))
  {
    var n := FirstOtherDecides(id, outcomes);
  }

  /** A line that belongs to no outstanding request. */
  predicate IsForeign(id: RequestId, read: ReadOutcome) {
    read.Got? && (read.line.Ready? || ((read.line.Progress? || read.line.Terminal?) && read.line.id != id))
  }

  /** The stream cannot be read on. */
  predicate IsBroken(read: ReadOutcome) {
    !read.Got? || read.line.Garbled?
  }

  /** Each failure has its own cause: the child's own Metal fault, and only that, asks
      for a restart on the CPU and a replay; any other failure it reports itself ends
      the request for good; a line of another request counts as a mismatch; and
      everything else restarts the child without a replay. */
  lemma FailuresAreToldApart(id: RequestId, outcomes: seq<ReadOutcome>)
    ensures Decided(id, outcomes) == Restart(true, false) <==>
              IsDecidedBy(id, outcomes, Got(Terminal(id, Failed(true))))
    ensures Decided(id, outcomes) == FailFatal <==> IsDecidedBy(id, outcomes, Got(Terminal(id, Failed(false))))
    ensures Decided(id, outcomes) == Restart(false, true) <==>
              exists read :: IsForeign(id, read) && IsDecidedBy(id, outcomes, read)
    ensures Decided(id, outcomes) == Restart(false, false) <==>
              exists read :: IsBroken(read) && IsDecidedBy(id, outcomes, read)
  {
    var n := FirstOtherDecides(id, outcomes);
    hide IsDecidedBy, Decided, IsFirstOther;
    if !IsAllProgress(id, outcomes) {
      assert IsDecidedBy(id, outcomes, outcomes[n]);
    }
  }

  /** When a request is sent a second time: for a Metal fault whenever the restart
      worked; and for callers without a ledger behind them after everything but an
      answer of the child's own. */
  lemma TriedAgainExactlyWhen(operationScoped: bool, id: RequestId, hasChild: bool, script: Script)
    ensures TriesAgain(operationScoped, AttemptAt(id, hasChild, script)) <==>
              && (hasChild || script.spawns)
              && if operationScoped then
                   && IsDecidedBy(id, script.outcomes, Got(Terminal(id, Failed(true))))
                   && script.stops && script.starts
                 else
                   && !IsDecidedBy(id, script.outcomes, Got(Terminal(id, Failed(false))))
                   && forall command :: !IsDecidedBy(id, script.outcomes, Got(Terminal(id, Completed(command))))
  {
    var n := FirstOtherDecides(id, script.outcomes);
    hide IsDecidedBy, Decided, IsFirstOther;
  }

  /** In step `k` the holder of the lock reads that its own request hit a Metal fault. */
  ghost predicate ReadsMetalFault(run: seq<Sys>, steps: seq<Step>, k: nat)
    requires k < |run| && k < |steps|
  {
    run[k].holder.Holding? && steps[k] == Read(Got(Terminal(run[k].holder.request.id, Failed(true))))
  }

  /** Over every run the CPU is forced exactly when some request read its own Metal fault. */
  lemma {:induction false} CpuIsForcedByMetalFaults(run: seq<Sys>, steps: seq<Step>, i: nat)
    requires IsRun(run, steps) && i < |run|
    ensures run[i].forceCpu <==> exists k :: 0 <= k < i && ReadsMetalFault(run, steps, k)
  {
    if i > 0 {
      CpuIsForcedByMetalFaults(run, steps, i - 1);
      assert Next(run[i - 1], steps[i - 1], run[i]);
      assert run[i].forceCpu <==> run[i - 1].forceCpu || ReadsMetalFault(run, steps, i - 1);
    }
  }
}
