/** The single coordinator task, the operators and the submitters of one ledger as a
    state machine: `process`, `process_add_memory`, `process_task_operation`,
    `finish_operation`, `transition`, `reject` and what `drain_pending` does about a
    failure, `src/operations.rs`.

    A step is what happens between two awaits. Any await may fail, its effect applied
    or not, and the whole process may crash anywhere. The embedder is a function of
    the text; the planner may answer differently every time. */
module Coordinator {
  import opened Basics
  import opened Ledger
  import opened Dependencies
  import Planner

  type PlanPart = Planner.PlanPart

  type Vector = seq<real>

  /** A part row: `planned` without an embedding, `indexed` with one. */
  datatype StoredPart = StoredPart(plan: PlanPart, embedding: Option<Vector>)

  /** What is stored for an operation. The aggregate embedding is a function of the
      part embeddings in order. */
  datatype Memory = Memory(content: string, vectors: seq<Vector>, tokenCount: Option<nat>)

  datatype World = World(db: Db, parts: map<OpId, seq<StoredPart>>, memories: map<OpId, Memory>)

  type Embedder = string -> Vector

  // ------------------------------------------------------------ Part tables

  function PartsOf(w: World, id: OpId): seq<StoredPart> {
    if id in w.parts then w.parts[id] else []
  }

  function PlanOf(parts: seq<StoredPart>): seq<PlanPart> {
    seq(|parts|, i requires 0 <= i < |parts| => parts[i].plan)
  }

  function AsPlanned(plan: seq<PlanPart>): seq<StoredPart> {
    seq(|plan|, i requires 0 <= i < |plan| => StoredPart(plan[i], None))
  }

  /** The update of every row with that part index. */
  function Marked(parts: seq<StoredPart>, index: nat, vector: Vector): seq<StoredPart> {
    seq(|parts|, i requires 0 <= i < |parts| =>
      if parts[i].plan.partIndex == index then parts[i].(embedding := Some(vector)) else parts[i])
  }

  predicate AllIndexed(parts: seq<StoredPart>) {
    forall i :: 0 <= i < |parts| ==> parts[i].embedding.Some?
  }

  function Vectors(parts: seq<StoredPart>): seq<Vector>
    requires AllIndexed(parts)
  {
    seq(|parts|, i requires 0 <= i < |parts| => parts[i].embedding.value)
  }

  const U32_MAX: nat := 0xFFFF_FFFF

  function TokenCount(plan: seq<PlanPart>): Option<nat> {
    if Planner.MaxEnd(plan) == 0 then None else Some(Planner.MaxEnd(plan))
  }

  /** `store_indexed_memory`: what is there already stays. */
  function Store(memories: map<OpId, Memory>, id: OpId, memory: Memory): map<OpId, Memory> {
    if id in memories then memories else memories[id := memory]
  }

  /** The memory of an operation whose parts are embedded one after the other without
      any interruption. */
  function Uninterrupted(embed: Embedder, content: string, plan: seq<PlanPart>): Memory {
    Memory(content, seq(|plan|, i requires 0 <= i < |plan| => embed(plan[i].content)), TokenCount(plan))
  }

  // --------------------------------------------------------------- Control

  /** Where the processing of an operation stands. `ticket` is the transaction that a
      transition sends once it has read the row. */
  datatype At =
    | Loading
    | Checking(i: nat, blockers: seq<OpId>)
    | Moving(update: Update, ticket: Option<Txn>)
    | Preparing
    | ReadingParts
    | Planning
    | PersistReading(plan: seq<PlanPart>)
    | PersistWriting(plan: seq<PlanPart>)
    | Rereading
    | Validating
    | Deciding
    | Embedding(k: nat)
    | Marking(k: nat, vector: Vector)
    | Verifying
    | Storing
    | TaskDeciding
    | TaskWork
    | Finishing
    | Returned
    | Failed(permanent: bool)

  /** The local variables of `process`: the row it read, `state` and `stored_parts`. */
  datatype Job = Job(id: OpId, row: Row, state: State, parts: seq<StoredPart>)

  datatype Stage =
    | Idle
    | Working(job: Job, at: At)
    | Rejecting(id: OpId, message: string, ticket: Option<Txn>)
    | Noting(id: OpId, message: string)
    | NoteMoving(id: OpId, update: Update, ticket: Option<Txn>)

  /** Where a call of `reject` stands; it holds the lock of `in_flight` throughout. */
  datatype Operator =
    | Away
    | Fetching(id: OpId, reason: string)
    | Probing(id: OpId, reason: string, row: Row)
    | Sending(id: OpId, reason: string, ticket: Option<Txn>)

  datatype System = System(w: World, stage: Stage, operator: Operator)

  /** What the outside answers where it has a choice: the planner's parts, a text. */
  datatype Answer = Answer(plan: seq<PlanPart>, text: string)

  // --------------------------------------------------------------- Updates

  function ToBlocked(blockers: seq<OpId>): Update {
    Update(State.Blocked, blockers, None, None, DependenciesNotCommitted)
  }

  function ToRejectedByContract(error: string): Update {
    Update(State.Rejected, [], None, Some(error), ContractRejected)
  }

  const TO_VALIDATED := Update(State.Validated, [], None, None, ContractValidated)

  function ToPlanned(detail: Detail): Update {
    Update(State.Planned, [], None, None, detail)
  }

  const TO_PROCESSING := Update(State.Processing, [], None, None, Scheduled)

  function ToIndexed(result: string): Update {
    Update(State.Indexed, [], Some(result), None, NoDetail)
  }

  function ToCommitted(result: Option<string>): Update {
    Update(State.Committed, [], result, None, OutcomeCommitted)
  }

  function ToRejectedForGood(error: string): Update {
    Update(State.Rejected, [], None, Some(error), PermanentFailure(error))
  }

  function ToRejectedByOperator(reason: string): Update {
    Update(State.Rejected, [], None, Some(reason), ByOperator(reason))
  }

  function ToNote(row: Row, error: string): Update {
    Update(row.state, row.blockedBy, row.result, Some(error), Paused(error))
  }

  // --------------------------------------------------------------- Processing

  /** The end of `dependency_blockers` and what `process` makes of it. */
  function AfterCheck(job: Job, blockers: seq<OpId>, text: string): At {
    var state := job.row.state;
    if blockers != [] then
      if !state.Blocked? || job.row.blockedBy != blockers then Moving(ToBlocked(blockers), None) else Returned
    else if state.Accepted? || state.Blocked? then
      if job.row.payload.IsValid() then Moving(TO_VALIDATED, None)
      else Moving(ToRejectedByContract(text), None)
    else Begin(job)
  }

  /** The branch of `process` on the kind. */
  function Begin(job: Job): At {
    if job.row.kind.AddMemory? then Preparing else TaskDeciding
  }

  /** How `process` goes on after a transition it waited for. */
  function AfterMove(job: Job, update: Update): At {
    match update.to
    case Validated => Begin(job)
    case Planned => if job.row.kind.AddMemory? then Deciding else TaskDeciding
    case Processing => if job.row.kind.AddMemory? then Deciding else TaskDeciding
    case Indexed => Moving(ToCommitted(update.result), None)
    case _ => Returned
  }

  /** The read of a transition, or its transaction. */
  function MoveOn(w: World, job: Job, update: Update, ticket: Option<Txn>): (World, Stage) {
    if ticket.None? then
      match Issue(w.db, job.id, update)
      case Ok(txn) => (w, Working(job, Moving(update, Some(txn))))
      case Err(AlreadyTerminal(_)) => (w, Working(job, Returned))
      case Err(_) => (w, Working(job, Failed(false)))
    else
      match Execute(w.db, ticket.value)
      case Some(db) =>
        var moved := job.(state := update.to);
        (w.(db := db), Working(moved, AfterMove(moved, update)))
      case None => (w, Working(job, Failed(false)))
  }

  function Load(w: World, job: Job): At {
    if job.id !in w.db.rows || w.db.rows[job.id].state.IsTerminal() then Returned else Checking(0, [])
  }

  function Check(w: World, job: Job, i: nat, blockers: seq<OpId>, text: string): At {
    if i < |job.row.dependencies| then
      var dependency := job.row.dependencies[i];
      Checking(i + 1, if IsCommitted(w.db, dependency) then blockers else blockers + [dependency])
    else AfterCheck(job, SortDedup(blockers), text)
  }

  /** From Planned over Processing to the parts, as far as still ahead. */
  function Decide(job: Job): At {
    match job.state
    case Validated =>
      Moving(ToPlanned(PlanSummary(|job.parts|, Planner.MaxEnd(PlanOf(job.parts)))), None)
    case Planned => Moving(TO_PROCESSING, None)
    case Processing => Embedding(0)
    case _ => Verifying
  }

  function DecideTask(job: Job): At {
    match job.state
    case Validated => Moving(ToPlanned(Scheduled), None)
    case Planned => Moving(TO_PROCESSING, None)
    case _ => TaskWork
  }

  /** `finish_operation` once it has read the row. */
  function Finish(w: World, job: Job, result: string): At {
    if job.id !in w.db.rows then Failed(false)
    else
      var state := w.db.rows[job.id].state;
      if state.Committed? then Returned
      else if state.Indexed? then Moving(ToCommitted(Some(result)), None)
      else Moving(ToIndexed(result), None)
  }

  function Verify(parts: seq<StoredPart>): At {
    if parts == [] || !AllIndexed(parts) || Planner.MaxEnd(PlanOf(parts)) > U32_MAX then Failed(false) else Storing
  }

  function Persist(w: World, id: OpId, plan: seq<PlanPart>): At {
    var existing := PartsOf(w, id);
    if existing == [] then PersistWriting(plan)
    else if Planner.SamePlan(PlanOf(existing), plan) then Rereading
    else Failed(false)
  }

  function Stored(job: Job): Memory
    requires job.row.payload.Request? && AllIndexed(job.parts)
  {
    Memory(job.row.payload.content, Vectors(job.parts), TokenCount(PlanOf(job.parts)))
  }

  /** What one step of the processing does when its call succeeds. */
  function Proceed(embed: Embedder, w: World, job: Job, at: At, answer: Answer): (World, Stage) {
    match at
    case Loading =>
      var row := if job.id in w.db.rows then w.db.rows[job.id] else job.row;
      (w, Working(Job(job.id, row, row.state, []), Load(w, job)))
    case Checking(i, blockers) => (w, Working(job, Check(w, job, i, blockers, answer.text)))
    case Moving(update, ticket) => MoveOn(w, job, update, ticket)
    case Preparing => (w, Working(job, if job.row.payload.Malformed? then Failed(true) else ReadingParts))
    case ReadingParts =>
      var parts := PartsOf(w, job.id);
      (w, Working(job.(parts := parts), if parts == [] then Planning else Validating))
    case Planning =>
      (w, Working(job, if answer.plan == [] then Failed(true) else PersistReading(answer.plan)))
    case PersistReading(plan) => (w, Working(job, Persist(w, job.id, plan)))
    case PersistWriting(plan) =>
      if job.id in w.parts then (w, Working(job, Failed(false)))
      else (w.(parts := w.parts[job.id := AsPlanned(plan)]), Working(job, Rereading))
    case Rereading => (w, Working(job.(parts := PartsOf(w, job.id)), Validating))
    case Validating => (w, Working(job, if Planner.IsStoredPlan(PlanOf(job.parts)) then Deciding else Failed(false)))
    case Deciding => (w, Working(job, Decide(job)))
    case Embedding(k) =>
      if k >= |job.parts| then (w, Working(job, Verifying))
      else if job.parts[k].embedding.Some? then (w, Working(job, Embedding(k + 1)))
      else (w, Working(job, Marking(k, embed(job.parts[k].plan.content))))
    case Marking(k, vector) =>
      if k >= |job.parts| then (w, Working(job, Failed(false)))
      else
        var parts := if job.id in w.parts then
            w.parts[job.id := Marked(w.parts[job.id], job.parts[k].plan.partIndex, vector)]
          else w.parts;
        (w.(parts := parts),
         Working(job.(parts := job.parts[k := job.parts[k].(embedding := Some(vector))]), Embedding(k + 1)))
    case Verifying =>
      var parts := PartsOf(w, job.id);
      (w, Working(job.(parts := parts), Verify(parts)))
    case Storing =>
      if job.row.payload.Malformed? || !AllIndexed(job.parts) then (w, Working(job, Failed(false)))
      else (w.(memories := Store(w.memories, job.id, Stored(job))), Working(job, Finishing))
    case TaskDeciding => (w, Working(job, DecideTask(job)))
    case TaskWork => (w, Working(job, if job.row.payload.Malformed? then Failed(true) else Finishing))
    case Finishing => (w, Working(job, Finish(w, job, answer.text)))
    case Returned => (w, Idle)
    case Failed(permanent) =>
      (w, if permanent then Rejecting(job.id, answer.text, None) else Noting(job.id, answer.text))
  }

  /** A read and commit that nobody waits for the result of: `stage` follows success,
      `otherwise` any failure. */
  function Send(w: World, ticket: Txn, stage: Stage, otherwise: Stage): (World, Stage) {
    match Execute(w.db, ticket)
    case Some(db) => (w.(db := db), stage)
    case None => (w, otherwise)
  }

  /** One step of the coordinator whose call succeeds. */
  function Advance(embed: Embedder, w: World, stage: Stage, answer: Answer): (World, Stage) {
    match stage
    case Idle => (w, Idle)
    case Working(job, at) => Proceed(embed, w, job, at, answer)
    case Rejecting(id, message, ticket) =>
      if ticket.Some? then Send(w, ticket.value, Idle, Noting(id, message))
      else
        (match Issue(w.db, id, ToRejectedForGood(message))
         case Ok(txn) => (w, Rejecting(id, message, Some(txn)))
         case Err(_) => (w, Noting(id, message)))
    case Noting(id, message) =>
      if id !in w.db.rows || w.db.rows[id].state.IsTerminal() || w.db.rows[id].error == Some(message) then (w, Idle)
      else (w, NoteMoving(id, ToNote(w.db.rows[id], message), None))
    case NoteMoving(id, update, ticket) =>
      if ticket.Some? then Send(w, ticket.value, Idle, Idle)
      else
        (match Issue(w.db, id, update)
         case Ok(txn) => (w, NoteMoving(id, update, Some(txn)))
         case Err(_) => (w, Idle))
  }

  /** Where the coordinator is after a call that failed. */
  function AfterFault(stage: Stage): Stage {
    match stage
    case Working(job, _) => Working(job, Failed(false))
    case Rejecting(id, message, _) => Noting(id, message)
    case _ => Idle
  }

  /** The call that releases the lock waits for no one but the operators. */
  predicate IsReleasing(stage: Stage) {
    stage.Working? && (stage.at.Returned? || stage.at.Failed?)
  }

  /** One step of `reject`. */
  function Operate(w: World, operator: Operator): (World, Operator) {
    match operator
    case Away => (w, Away)
    case Fetching(id, reason) =>
      if id !in w.db.rows || w.db.rows[id].state.IsTerminal() then (w, Away)
      else (w, Probing(id, reason, w.db.rows[id]))
    case Probing(id, reason, row) =>
      if row.state.Indexed? || (row.kind.AddMemory? && id in w.memories) then (w, Away)
      else (w, Sending(id, reason, None))
    case Sending(id, reason, ticket) =>
      if ticket.None? then
        match Issue(w.db, id, ToRejectedByOperator(reason))
        case Ok(txn) => (w, Sending(id, reason, Some(txn)))
        case Err(_) => (w, Away)
      else
        match Execute(w.db, ticket.value)
        case Some(db) => (w.(db := db), Away)
        case None => (w, Away)
  }

  // ------------------------------------------------------------------- Runs

  datatype Action =
    | Submit(id: OpId, row: Row)
    | Pick(id: OpId, row: Row)
    | Go(answer: Answer)
    | Skip
    | Fault(applied: bool, answer: Answer)
    | Crash
    | Ask(id: OpId, reason: string)
    | OperatorGoes
    | OperatorFails(applied: bool)

  ghost predicate Acts(embed: Embedder, s: System, action: Action, t: System) {
    match action
    case Submit(id, row) =>
      && IsNewRow(row)
      && Execute(s.w.db, Create(id, row)).Some?
      && t == s.(w := s.w.(db := Execute(s.w.db, Create(id, row)).value))
    case Pick(id, row) =>
      && s.stage.Idle? && s.operator.Away?
      && t == s.(stage := Working(Job(id, row, row.state, []), Loading))
    case Go(answer) =>
      && !s.stage.Idle?
      && (IsReleasing(s.stage) ==> s.operator.Away?)
      && var (w, stage) := Advance(embed, s.w, s.stage, answer);
         t == s.(w := w, stage := stage)
    case Skip =>
      // A failure that is retried later instead of noted.
      && s.stage.Noting? && t == s.(stage := Idle)
    case Fault(applied, answer) =>
      && !s.stage.Idle? && !IsReleasing(s.stage)
      && var (w, _) := Advance(embed, s.w, s.stage, answer);
         t == s.(w := if applied then w else s.w, stage := AfterFault(s.stage))
    case Crash =>
      t == s.(stage := Idle, operator := Away)
    case Ask(id, reason) =>
      && s.operator.Away?
      && !(s.stage.Working? && s.stage.job.id == id)
      && t == s.(operator := Fetching(id, reason))
    case OperatorGoes =>
      && var (w, operator) := Operate(s.w, s.operator);
         t == s.(w := w, operator := operator)
    case OperatorFails(applied) =>
      && var (w, _) := Operate(s.w, s.operator);
         t == s.(w := if applied then w else s.w, operator := Away)
  }

  const START := System(World(EMPTY, map[], map[]), Idle, Away)

  ghost predicate IsSystemRun(embed: Embedder, run: seq<System>, actions: seq<Action>) {
    && |run| == |actions| + 1
    && run[0] == START
    && forall i :: 0 <= i < |actions| ==> Acts(embed, run[i], actions[i], run[i + 1])
  }
}
