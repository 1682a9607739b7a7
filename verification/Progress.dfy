/** A valid operation whose dependencies are committed commits when nothing fails, from
    whatever state earlier failures and crashes left it in. `src/operations.rs`,
    `process`, `process_add_memory` and `process_task_operation`. */
module Progress {
  import opened Basics
  import opened Ledger
  import opened Dependencies
  import opened Lifecycle
  import opened Coordinator
  import opened Invariant
  import opened Preservation
  import opened Guarantees
  import Planner

  /** `n` steps of the coordinator in a row, none of which fails. */
  function Drive(embed: Embedder, w: World, stage: Stage, answer: Answer, n: nat): (World, Stage)
    decreases n
  {
    if n == 0 then (w, stage)
    else
      var (t, next) := Advance(embed, w, stage, answer);
      Drive(embed, t, next, answer, n - 1)
  }

  predicate IsGoodPlan(plan: seq<PlanPart>) {
    plan != [] && Planner.IsStoredPlan(plan) && Planner.MaxEnd(plan) <= 0xFFFF_FFFF
  }

  /** The request is valid, nothing blocks it, and its plan can be stored. */
  ghost predicate IsReady(w: World, id: OpId, answer: Answer) {
    && id in w.db.rows
    && var row := w.db.rows[id];
       && row.payload.IsValid()
       && AllCommitted(w.db, row.dependencies)
       && (row.kind.AddMemory? ==>
             IsGoodPlan(answer.plan) && (id in w.parts ==> IsGoodPlan(PlanOf(w.parts[id]))))
  }

  predicate IsForward(state: State) {
    !state.Accepted? && !state.Blocked? && !state.Rejected?
  }

  ghost predicate IsOnTrack(w: World, id: OpId, answer: Answer, stage: Stage) {
    && IsReady(w, id, answer)
    && match stage
       case Idle => w.db.rows[id].state.Committed?
       case Working(job, at) => job.id == id && AtOnTrack(w, job, answer, at)
       case _ => false
  }

  ghost predicate AtOnTrack(w: World, job: Job, answer: Answer, at: At)
    requires job.id in w.db.rows
  {
    match at
    case Loading => !w.db.rows[job.id].state.IsTerminal()
    case Checking(_, blockers) => blockers == []
    case Moving(update, _) => IsForward(update.to)
    case PersistReading(plan) => plan == answer.plan
    case PersistWriting(plan) => plan == answer.plan
    case Verifying => AllIndexed(job.parts)
    case Returned => w.db.rows[job.id].state.Committed?
    case Failed(_) => false
    case _ => true
  }

  /** How far the end is: the phase, and the steps within it. */
  function Phase(stage: Stage): nat {
    match stage
    case Working(job, at) =>
      (match at
       case Loading => 24
       case Checking(_, _) => 23
       case Moving(update, _) => MovingPhase(update.to)
       case Preparing => 21
       case ReadingParts => 20
       case Planning => 19
       case PersistReading(_) => 18
       case PersistWriting(_) => 17
       case Rereading => 16
       case Validating => 15
       case Deciding => DecidingPhase(job.state)
       case TaskDeciding => DecidingPhase(job.state)
       case TaskWork => 7
       case Embedding(_) => 9
       case Marking(_, _) => 9
       case Verifying => 8
       case Storing => 7
       case Finishing => 6
       case _ => 1)
    case _ => 0
  }

  function MovingPhase(to: State): nat {
    match to
    case Validated => 22
    case Planned => 13
    case Processing => 11
    case Indexed => 5
    case _ => 4
  }

  function DecidingPhase(state: State): nat {
    match state
    case Validated => 14
    case Planned => 12
    case _ => 10
  }

  function StepsInPhase(stage: Stage): int {
    if !stage.Working? then 0
    else
      match stage.at
      case Checking(i, _) => |stage.job.row.dependencies| - i
      case Moving(_, ticket) => if ticket.None? then 1 else 0
      case Embedding(k) => 2 * (|stage.job.parts| - k)
      case Marking(k, _) => 2 * (|stage.job.parts| - k) - 1
      case _ => 0
  }

  ghost predicate IsNearer(before: Stage, after: Stage) {
    || Phase(after) < Phase(before)
    || (Phase(after) == Phase(before) && 0 <= StepsInPhase(after) < StepsInPhase(before))
  }

  lemma ReadyStays(w: World, t: World, id: OpId, answer: Answer)
    requires IsReady(w, id, answer) && Extends(w.db, t.db)
    requires id in t.parts ==> (id in w.parts && PlanOf(t.parts[id]) == PlanOf(w.parts[id]))
                               || PlanOf(t.parts[id]) == answer.plan
    ensures IsReady(t, id, answer)
  {
    AllCommittedStays(w.db, t.db, w.db.rows[id].dependencies);
  }

  lemma MoveStaysOnTrack(embed: Embedder, w: World, job: Job, update: Update, ticket: Option<Txn>, answer: Answer)
    requires WorldOk(embed, w) && MovingOk(w, job, update, ticket)
    requires IsOnTrack(w, job.id, answer, Working(job, Moving(update, ticket)))
    ensures var (t, next) := MoveOn(w, job, update, ticket);
            IsOnTrack(t, job.id, answer, next) && IsNearer(Working(job, Moving(update, ticket)), next)
  {
    hide TablesOk, Orderly, MayUpdate;
    if ticket.Some? {
      MovedStaysOnTrack(embed, w, job, update, answer);
    }
  }

  lemma MovedStaysOnTrack(embed: Embedder, w: World, job: Job, update: Update, answer: Answer)
    requires WorldOk(embed, w) && MayUpdate(w, job.id, update)
    requires IsReady(w, job.id, answer)
    ensures Issue(w.db, job.id, update).Ok?
    ensures Execute(w.db, Issue(w.db, job.id, update).value) == Some(Applied(w.db, job.id, update))
    ensures IsReady(w.(db := Applied(w.db, job.id, update)), job.id, answer)
  {
    ApplyIsExecute(w.db, job.id, update);
    hide TablesOk, Orderly;
    UpdateKeepsWorld(embed, w, job.id, update);
    ReadyStays(w, w.(db := Applied(w.db, job.id, update)), job.id, answer);
  }

  lemma CheckStaysOnTrack(embed: Embedder, w: World, job: Job, i: nat, answer: Answer)
    requires WorldOk(embed, w) && AtOk(embed, w, job, Checking(i, [])) && IsReady(w, job.id, answer)
    ensures var stage := Working(job, Check(w, job, i, [], answer.text));
            IsOnTrack(w, job.id, answer, stage) && IsNearer(Working(job, Checking(i, [])), stage)
  {
    hide WorldOk;
    if i < |job.row.dependencies| {
      assert job.row.dependencies[i] in job.row.dependencies;
    }
  }

  lemma PersistStaysOnTrack(embed: Embedder, w: World, job: Job, answer: Answer)
    requires WorldOk(embed, w) && AtOk(embed, w, job, PersistWriting(answer.plan)) && IsReady(w, job.id, answer)
    ensures var (t, next) := Proceed(embed, w, job, PersistWriting(answer.plan), answer);
            IsOnTrack(t, job.id, answer, next) && IsNearer(Working(job, PersistWriting(answer.plan)), next)
  {
    hide WorldOk;
    assert PlanOf(AsPlanned(answer.plan)) == answer.plan;
    ReadyStays(w, w.(parts := w.parts[job.id := AsPlanned(answer.plan)]), job.id, answer);
  }

  lemma MarkStaysOnTrack(embed: Embedder, w: World, job: Job, k: nat, vector: Vector, answer: Answer)
    requires WorldOk(embed, w) && MarkingOk(embed, w, job, k, vector) && IsReady(w, job.id, answer)
    ensures var (t, next) := Proceed(embed, w, job, Marking(k, vector), answer);
            IsOnTrack(t, job.id, answer, next) && IsNearer(Working(job, Marking(k, vector)), next)
  {
    hide WorldOk;
    MarkIsOne(job.parts, k, vector);
    hide Marked, PlanOf, IsGoodPlan;
    var t := Proceed(embed, w, job, Marking(k, vector), answer).0;
    ReadyStays(w, t, job.id, answer);
  }

  lemma DecideStaysOnTrack(embed: Embedder, w: World, job: Job, answer: Answer)
    requires WorldOk(embed, w) && PlanLoaded(w, job) && IsReady(w, job.id, answer)
    ensures var stage := Working(job, Decide(job));
            IsOnTrack(w, job.id, answer, stage) && IsNearer(Working(job, Deciding), stage)
  {
    hide Orderly;
    if job.state.Indexed? {
      assert HasMemory(w, job.id) && MemoryOk(embed, w, job.id);
    }
  }

  predicate IsReadingStep(at: At) {
    || at.Loading? || at.Preparing? || at.ReadingParts? || at.Planning? || at.PersistReading? || at.Rereading?
    || at.Validating?
  }

  lemma ReadingStaysOnTrack(embed: Embedder, w: World, job: Job, at: At, answer: Answer)
    requires TablesOk(embed, w) && AtOk(embed, w, job, at) && IsReadingStep(at)
    requires IsOnTrack(w, job.id, answer, Working(job, at))
    ensures var (t, next) := Proceed(embed, w, job, at, answer);
            IsOnTrack(t, job.id, answer, next) && IsNearer(Working(job, at), next)
  {
    hide TablesOk, PlanOf, Planner.IsStoredPlan;
  }

  lemma StoringStaysOnTrack(embed: Embedder, w: World, job: Job, at: At, answer: Answer)
    requires AtOk(embed, w, job, at)
    requires at.Verifying? || at.Storing? || at.Finishing? || at.Returned?
    requires IsOnTrack(w, job.id, answer, Working(job, at))
    ensures var (t, next) := Proceed(embed, w, job, at, answer);
            IsOnTrack(t, job.id, answer, next) && IsNearer(Working(job, at), next)
  {
    hide Planner.IsStoredPlan, Stored, Issue;
  }

  lemma TaskStaysOnTrack(embed: Embedder, w: World, job: Job, at: At, answer: Answer)
    requires AtOk(embed, w, job, at) && (at.TaskDeciding? || at.TaskWork?)
    requires IsOnTrack(w, job.id, answer, Working(job, at))
    ensures var (t, next) := Proceed(embed, w, job, at, answer);
            IsOnTrack(t, job.id, answer, next) && IsNearer(Working(job, at), next)
  {
    hide Planner.IsStoredPlan, PlanOf, IsGoodPlan;
  }

  lemma EmbeddingStaysOnTrack(embed: Embedder, w: World, job: Job, k: nat, answer: Answer)
    requires AtOk(embed, w, job, Embedding(k))
    requires IsOnTrack(w, job.id, answer, Working(job, Embedding(k)))
    ensures var (t, next) := Proceed(embed, w, job, Embedding(k), answer);
            IsOnTrack(t, job.id, answer, next) && IsNearer(Working(job, Embedding(k)), next)
  {
    hide Planner.IsStoredPlan, PlanOf;
  }

  lemma ProceedStaysOnTrack(embed: Embedder, w: World, job: Job, at: At, answer: Answer)
    requires WorldOk(embed, w) && AtOk(embed, w, job, at)
    requires IsOnTrack(w, job.id, answer, Working(job, at))
    ensures var (t, next) := Proceed(embed, w, job, at, answer);
            IsOnTrack(t, job.id, answer, next) && IsNearer(Working(job, at), next)
  {
    hide Orderly, TablesOk, IsReady, IsNearer, MovingOk, MarkingOk;
    match at
    case Checking(i, blockers) => CheckStaysOnTrack(embed, w, job, i, answer);
    case Moving(update, ticket) => MoveStaysOnTrack(embed, w, job, update, ticket, answer);
    case PersistWriting(plan) => PersistStaysOnTrack(embed, w, job, answer);
    case Marking(k, vector) => MarkStaysOnTrack(embed, w, job, k, vector, answer);
    case Deciding => DecideStaysOnTrack(embed, w, job, answer);
    case Embedding(k) => EmbeddingStaysOnTrack(embed, w, job, k, answer);
    case _ =>
      if IsReadingStep(at) {
        ReadingStaysOnTrack(embed, w, job, at, answer);
      } else if at.TaskDeciding? || at.TaskWork? {
        TaskStaysOnTrack(embed, w, job, at, answer);
      } else {
        StoringStaysOnTrack(embed, w, job, at, answer);
      }
  }

  /** Some number of undisturbed steps ends with the operation committed, and with the
      memory of an uninterrupted run of the plan it has then. */
  lemma {:induction false} CommitsUndisturbed(embed: Embedder, w: World, stage: Stage, id: OpId, answer: Answer)
    returns (n: nat)
    requires WorldOk(embed, w) && StageOk(embed, w, stage) && IsOnTrack(w, id, answer, stage)
    ensures var (t, last) := Drive(embed, w, stage, answer, n);
            && last.Idle? && WorldOk(embed, t)
            && id in t.db.rows && t.db.rows[id].state.Committed? && t.db.rows[id].payload.Request?
            && (t.db.rows[id].kind.AddMemory? ==>
                  && id in t.parts && id in t.memories
                  && IsMemoryOf(embed, t.db.rows[id].payload.content, PlanOf(t.parts[id]), t.memories[id]))
    decreases Phase(stage), StepsInPhase(stage)
  {
    if stage.Idle? {
      n := 0;
      if w.db.rows[id].kind.AddMemory? {
        assert HasMemory(w, id) && MemoryOk(embed, w, id);
        UninterruptedIs(embed, w.db.rows[id].payload.content, PlanOf(w.parts[id]));
      }
    } else {
      hide WorldOk, AtOk, IsReady, Proceed, Uninterrupted, Phase, StepsInPhase;
      var job := stage.job;
      AdvanceKeeps(embed, w, stage, answer);
      ProceedStaysOnTrack(embed, w, job, stage.at, answer);
      var (t, next) := Advance(embed, w, stage, answer);
      var m := CommitsUndisturbed(embed, t, next, id, answer);
      n := m + 1;
    }
  }
}
