/** Every step of the coordinator, an operator or a submitter keeps the invariant. */
module Preservation {
  import opened Basics
  import opened Ledger
  import opened Dependencies
  import opened Lifecycle
  import opened Coordinator
  import opened Invariant
  import Planner

  /** What a coordinator step on `id` may change besides what the invariant says. */
  ghost predicate IsOwnStep(w: World, t: World, id: OpId) {
    && Extends(w.db, t.db)
    && w.memories.Keys <= t.memories.Keys <= w.memories.Keys + {id}
  }

  lemma SameIsOwnStep(w: World, id: OpId)
    ensures IsOwnStep(w, w, id)
  {
  }

  // ------------------------------------------------- What the invariant gives

  lemma OpenOrHeld(db: Db, id: OpId)
    requires Orderly(db) && id in db.rows && !db.rows[id].state.IsTerminal()
    ensures AllCommitted(db, db.rows[id].dependencies) || db.rows[id].state.Accepted? || db.rows[id].state.Blocked?
    ensures IsPastBlocked(db.rows[id].state) ==> AllCommitted(db, db.rows[id].dependencies)
    ensures BlockedOk(db, db.rows[id]) && IsComplete(db.rows[id])
    ensures IsPastBlocked(db.rows[id].state) ==> db.rows[id].payload.IsValid()
  {
    assert IsHeld(db, id) && OpOk(db, id);
  }

  lemma NoMemoryBeforeProcessing(embed: Embedder, w: World, id: OpId)
    requires TablesOk(embed, w) && id in w.db.rows && !IsStoring(w.db.rows[id].state)
    ensures id !in w.memories
  {
    assert id in w.memories ==> MemoryOk(embed, w, id);
  }

  lemma NoMemoryWithoutParts(embed: Embedder, w: World, id: OpId)
    requires TablesOk(embed, w) && (id in w.parts ==> !AllIndexed(w.parts[id]))
    ensures id !in w.memories
  {
    assert id in w.memories ==> MemoryOk(embed, w, id);
  }

  lemma NoMemoryForOthers(embed: Embedder, w: World, id: OpId)
    requires TablesOk(embed, w) && id in w.db.rows
    requires w.db.rows[id].kind.Task? || w.db.rows[id].payload.Malformed?
    ensures id !in w.memories
  {
    assert id in w.memories ==> MemoryOk(embed, w, id);
  }

  // ----------------------------------------------------------- Dependency check

  lemma LoadKeeps(embed: Embedder, w: World, job: Job, answer: Answer)
    requires WorldOk(embed, w)
    ensures var (t, stage) := Proceed(embed, w, job, Loading, answer); t == w && StageOk(embed, w, stage)
  {
    hide TablesOk, Orderly;
    if job.id in w.db.rows && !w.db.rows[job.id].state.IsTerminal() {
      OpenOrHeld(w.db, job.id);
    }
  }

  lemma CheckKeeps(embed: Embedder, w: World, job: Job, i: nat, blockers: seq<OpId>, answer: Answer)
    requires WorldOk(embed, w) && AtOk(embed, w, job, Checking(i, blockers)) && i < |job.row.dependencies|
    ensures AtOk(embed, w, job, Check(w, job, i, blockers, answer.text))
  {
    hide TablesOk, Orderly;
    OpenOrHeld(w.db, job.id);
    assert job.row.dependencies[i] in job.row.dependencies;
  }

  lemma CheckedKeeps(embed: Embedder, w: World, job: Job, blockers: seq<OpId>, answer: Answer)
    requires WorldOk(embed, w) && AtOk(embed, w, job, Checking(|job.row.dependencies|, blockers))
    ensures AtOk(embed, w, job, AfterCheck(job, SortDedup(blockers), answer.text))
  {
    SortDedupIs(blockers);
    var sorted := SortDedup(blockers);
    assert blockers == [] || blockers[0] in sorted;
    if sorted != [] {
      assert sorted[0] in sorted;
      if !job.row.state.Blocked? || job.row.blockedBy != sorted {
        BlockKeeps(embed, w, job, blockers, sorted);
      }
    } else {
      assert AllCommitted(w.db, job.row.dependencies);
      UnblockedKeeps(embed, w, job, answer);
    }
  }

  lemma BlockKeeps(embed: Embedder, w: World, job: Job, blockers: seq<OpId>, sorted: seq<OpId>)
    requires WorldOk(embed, w) && AtOk(embed, w, job, Checking(|job.row.dependencies|, blockers))
    requires StrictlySorted(sorted) && sorted != [] && blockers != []
    requires forall id :: id in sorted <==> id in blockers
    requires !(job.row.state.Blocked? && job.row.blockedBy == sorted)
    ensures MovingOk(w, job, ToBlocked(sorted), None)
  {
    hide TablesOk, Orderly;
    OpenOrHeld(w.db, job.id);
    NoMemoryBeforeProcessing(embed, w, job.id);
    if job.row.state.Blocked? {
      FewerIsShorter(sorted, job.row.blockedBy);
    }
    assert BlockedOk(w.db, MovedNext(job.row, ToBlocked(sorted)));
  }

  lemma UnblockedKeeps(embed: Embedder, w: World, job: Job, answer: Answer)
    requires WorldOk(embed, w) && JobOk(w, job) && w.db.rows[job.id] == job.row
    requires AllCommitted(w.db, job.row.dependencies)
    ensures AtOk(embed, w, job, AfterCheck(job, [], answer.text))
  {
    hide TablesOk, Orderly;
    if job.state.Accepted? || job.state.Blocked? {
      NoMemoryBeforeProcessing(embed, w, job.id);
    }
  }

  // ------------------------------------------------------------- Transitions

  lemma MoveKeeps(embed: Embedder, w: World, job: Job, update: Update, ticket: Option<Txn>)
    requires WorldOk(embed, w) && MovingOk(w, job, update, ticket)
    ensures var (t, stage) := MoveOn(w, job, update, ticket);
            WorldOk(embed, t) && StageOk(embed, t, stage) && IsOwnStep(w, t, job.id)
  {
    SameIsOwnStep(w, job.id);
    if ticket.Some? {
      ApplyIsExecute(w.db, job.id, update);
      UpdateKeepsWorld(embed, w, job.id, update);
      AfterMoveKeeps(embed, w, job, update);
    }
  }

  lemma AfterMoveKeeps(embed: Embedder, w: World, job: Job, update: Update)
    requires WorldOk(embed, w) && MovingOk(w, job, update, None)
    ensures var moved := job.(state := update.to);
            AtOk(embed, w.(db := Applied(w.db, job.id, update)), moved, AfterMove(moved, update))
  {
    hide TablesOk, Orderly;
    if update.to.Indexed? {
      CommitNext(embed, w, job, update);
    } else {
      hide MayUpdate;
    }
  }

  lemma CommitNext(embed: Embedder, w: World, job: Job, update: Update)
    requires WorldOk(embed, w) && MovingOk(w, job, update, None) && update.to.Indexed?
    ensures MovingOk(w.(db := Applied(w.db, job.id, update)), job.(state := update.to), ToCommitted(update.result), None)
  {
    hide TablesOk, Orderly;
    UpdateKeepsWorld(embed, w, job.id, update);
    OpenOrHeld(Applied(w.db, job.id, update), job.id);
  }

  // -------------------------------------------------------------- The pipeline

  lemma PrepareKeeps(embed: Embedder, w: World, job: Job, answer: Answer)
    requires WorldOk(embed, w) && AtOk(embed, w, job, Preparing)
    ensures var (t, stage) := Proceed(embed, w, job, Preparing, answer); t == w && StageOk(embed, w, stage)
  {
    hide TablesOk, Orderly;
    if job.row.payload.Malformed? {
      NoMemoryForOthers(embed, w, job.id);
    }
  }

  lemma ReadPartsKeeps(embed: Embedder, w: World, job: Job, answer: Answer)
    requires WorldOk(embed, w) && AtOk(embed, w, job, ReadingParts)
    ensures var (t, stage) := Proceed(embed, w, job, ReadingParts, answer); t == w && StageOk(embed, w, stage)
  {
    hide Orderly;
    assert job.id in w.parts ==> PartsOk(embed, w.parts[job.id]);
  }

  lemma PlanKeeps(embed: Embedder, w: World, job: Job, answer: Answer)
    requires WorldOk(embed, w) && AtOk(embed, w, job, Planning)
    ensures var (t, stage) := Proceed(embed, w, job, Planning, answer); t == w && StageOk(embed, w, stage)
  {
    hide TablesOk, Orderly;
    NoMemoryWithoutParts(embed, w, job.id);
  }

  /** Inserting or updating the part rows of one operation without a memory. */
  lemma PartsKeepWorld(embed: Embedder, w: World, id: OpId, parts: seq<StoredPart>)
    requires WorldOk(embed, w) && id in w.db.rows && id !in w.memories && PartsOk(embed, parts)
    requires id in w.parts ==> PlanOf(parts) == PlanOf(w.parts[id])
    ensures WorldOk(embed, w.(parts := w.parts[id := parts]))
  {
    hide Orderly, PartsOk, Uninterrupted, AllIndexed;
    var t := w.(parts := w.parts[id := parts]);
    forall other <- t.memories ensures MemoryOk(embed, t, other) {
      assert MemoryOk(embed, w, other);
    }
    forall other <- t.db.rows ensures HasMemory(t, other) && SummariesOk(t, other) {
      assert HasMemory(w, other) && SummariesOk(w, other);
    }
  }

  lemma PersistKeeps(embed: Embedder, w: World, job: Job, plan: seq<PlanPart>, answer: Answer)
    requires WorldOk(embed, w) && AtOk(embed, w, job, PersistWriting(plan))
    ensures var (t, stage) := Proceed(embed, w, job, PersistWriting(plan), answer);
            WorldOk(embed, t) && StageOk(embed, t, stage) && IsOwnStep(w, t, job.id)
  {
    hide TablesOk, Orderly;
    NoMemoryWithoutParts(embed, w, job.id);
    PartsKeepWorld(embed, w, job.id, AsPlanned(plan));
  }

  lemma DecideKeeps(embed: Embedder, w: World, job: Job)
    requires WorldOk(embed, w) && AtOk(embed, w, job, Deciding)
    ensures AtOk(embed, w, job, Decide(job))
  {
    hide TablesOk, Orderly;
    OpenOrHeld(w.db, job.id);
    if !job.state.Processing? && !job.state.Indexed? {
      NoMemoryBeforeProcessing(embed, w, job.id);
    }
  }

  lemma DecideTaskKeeps(embed: Embedder, w: World, job: Job)
    requires WorldOk(embed, w) && AtOk(embed, w, job, TaskDeciding)
    ensures AtOk(embed, w, job, DecideTask(job))
  {
    hide TablesOk, Orderly;
    OpenOrHeld(w.db, job.id);
    NoMemoryForOthers(embed, w, job.id);
  }

  /** Marking a part by its stored index marks just that part. */
  lemma MarkIsOne(parts: seq<StoredPart>, k: nat, vector: Vector)
    requires Planner.IsStoredPlan(PlanOf(parts)) && k < |parts|
    ensures Marked(parts, parts[k].plan.partIndex, vector) == parts[k := parts[k].(embedding := Some(vector))]
    ensures PlanOf(parts[k := parts[k].(embedding := Some(vector))]) == PlanOf(parts)
  {
    forall i | 0 <= i < |parts| ensures parts[i].plan.partIndex == i {
      assert Planner.IsStoredPart(PlanOf(parts)[i], i);
    }
  }

  lemma MarkKeeps(embed: Embedder, w: World, job: Job, k: nat, vector: Vector, answer: Answer)
    requires WorldOk(embed, w) && MarkingOk(embed, w, job, k, vector)
    ensures var (t, stage) := Proceed(embed, w, job, Marking(k, vector), answer);
            WorldOk(embed, t) && StageOk(embed, t, stage) && IsOwnStep(w, t, job.id)
  {
    MarkIsOne(job.parts, k, vector);
    hide Orderly, Marked, Planner.IsStoredPlan, PlanOf;
    NoMemoryWithoutParts(embed, w, job.id);
    assert PartsOk(embed, w.parts[job.id]);
    PartsKeepWorld(embed, w, job.id, job.parts[k := job.parts[k].(embedding := Some(vector))]);
  }

  /** What is stored once every part is indexed is what an uninterrupted run stores. */
  lemma StoredIsUninterrupted(embed: Embedder, job: Job)
    requires job.row.payload.Request? && AllIndexed(job.parts) && PartsOk(embed, job.parts)
    ensures Stored(job) == Uninterrupted(embed, job.row.payload.content, PlanOf(job.parts))
  {
    assert Vectors(job.parts) == Uninterrupted(embed, job.row.payload.content, PlanOf(job.parts)).vectors;
  }

  lemma StoreKeeps(embed: Embedder, w: World, job: Job, answer: Answer)
    requires WorldOk(embed, w) && AtOk(embed, w, job, Storing)
    ensures var (t, stage) := Proceed(embed, w, job, Storing, answer);
            WorldOk(embed, t) && StageOk(embed, t, stage) && IsOwnStep(w, t, job.id)
  {
    assert PartsOk(embed, w.parts[job.id]);
    StoredIsUninterrupted(embed, job);
    hide Orderly, TablesOk, Planner.IsStoredPlan, PlanOf, Uninterrupted, Stored;
    StoredKeepsTables(embed, w, job);
  }

  lemma StoredKeepsTables(embed: Embedder, w: World, job: Job)
    requires TablesOk(embed, w) && AtOk(embed, w, job, Storing)
    requires Stored(job) == Uninterrupted(embed, job.row.payload.content, PlanOf(job.parts))
    ensures TablesOk(embed, w.(memories := Store(w.memories, job.id, Stored(job))))
  {
    hide Planner.IsStoredPlan, PlanOf, Uninterrupted, Stored, PartsOk;
    var t := w.(memories := Store(w.memories, job.id, Stored(job)));
    forall other <- t.memories ensures MemoryOk(embed, t, other) {
      assert other in w.memories ==> MemoryOk(embed, w, other);
    }
    forall other <- t.db.rows ensures HasMemory(t, other) && SummariesOk(t, other) {
      assert HasMemory(w, other) && SummariesOk(w, other);
    }
  }

  lemma TaskWorkKeeps(embed: Embedder, w: World, job: Job, answer: Answer)
    requires WorldOk(embed, w) && AtOk(embed, w, job, TaskWork)
    ensures var (t, stage) := Proceed(embed, w, job, TaskWork, answer); t == w && StageOk(embed, w, stage)
  {
    hide TablesOk, Orderly;
    NoMemoryForOthers(embed, w, job.id);
  }

  lemma FinishKeeps(embed: Embedder, w: World, job: Job, answer: Answer)
    requires WorldOk(embed, w) && AtOk(embed, w, job, Finishing)
    ensures AtOk(embed, w, job, Finish(w, job, answer.text))
  {
    hide TablesOk, Orderly;
    OpenOrHeld(w.db, job.id);
  }

  /** The steps that only read, decide or let go. */
  predicate IsPlainStep(at: At) {
    || at.PersistReading? || at.Rereading? || at.Validating? || at.Embedding? || at.Verifying?
    || at.Returned? || at.Failed?
  }

  lemma PlainStepKeeps(embed: Embedder, w: World, job: Job, at: At, answer: Answer)
    requires WorldOk(embed, w) && AtOk(embed, w, job, at) && IsPlainStep(at)
    ensures var (t, stage) := Proceed(embed, w, job, at, answer); t == w && StageOk(embed, w, stage)
  {
    hide WorldOk, Planner.IsStoredPlan, PlanOf;
  }

  lemma DecisionKeeps(embed: Embedder, w: World, job: Job, at: At, answer: Answer)
    requires WorldOk(embed, w) && AtOk(embed, w, job, at)
    requires at.Loading? || at.Checking? || at.Deciding? || at.TaskDeciding? || at.Finishing?
    ensures var (t, stage) := Proceed(embed, w, job, at, answer); t == w && StageOk(embed, w, stage)
  {
    hide WorldOk, AtOk;
    match at
    case Loading => LoadKeeps(embed, w, job, answer);
    case Checking(i, blockers) =>
      assert i <= |job.row.dependencies| by {
        CheckedIsInRange(embed, w, job, i, blockers);
      }
      if i < |job.row.dependencies| {
        CheckKeeps(embed, w, job, i, blockers, answer);
      } else {
        CheckedKeeps(embed, w, job, blockers, answer);
      }
    case Deciding => DecideKeeps(embed, w, job);
    case TaskDeciding => DecideTaskKeeps(embed, w, job);
    case Finishing => FinishKeeps(embed, w, job, answer);
  }

  lemma CheckedIsInRange(embed: Embedder, w: World, job: Job, i: nat, blockers: seq<OpId>)
    requires AtOk(embed, w, job, Checking(i, blockers))
    ensures i <= |job.row.dependencies|
  {
  }

  lemma ProceedKeeps(embed: Embedder, w: World, job: Job, at: At, answer: Answer)
    requires WorldOk(embed, w) && AtOk(embed, w, job, at)
    ensures var (t, stage) := Proceed(embed, w, job, at, answer);
            WorldOk(embed, t) && StageOk(embed, t, stage) && IsOwnStep(w, t, job.id)
  {
    SameIsOwnStep(w, job.id);
    hide WorldOk, StageOk, IsOwnStep;
    if IsPlainStep(at) {
      PlainStepKeeps(embed, w, job, at, answer);
    } else if at.Loading? || at.Checking? || at.Deciding? || at.TaskDeciding? || at.Finishing? {
      DecisionKeeps(embed, w, job, at, answer);
    } else {
      CallKeeps(embed, w, job, at, answer);
    }
  }

  lemma CallKeeps(embed: Embedder, w: World, job: Job, at: At, answer: Answer)
    requires WorldOk(embed, w) && AtOk(embed, w, job, at)
    requires at.Moving? || at.Preparing? || at.ReadingParts? || at.Planning? || at.PersistWriting? || at.Marking?
             || at.Storing? || at.TaskWork?
    ensures var (t, stage) := Proceed(embed, w, job, at, answer);
            WorldOk(embed, t) && StageOk(embed, t, stage) && IsOwnStep(w, t, job.id)
  {
    SameIsOwnStep(w, job.id);
    hide WorldOk, StageOk, IsOwnStep, MovingOk, MarkingOk;
    match at
    case Moving(update, ticket) => MoveKeeps(embed, w, job, update, ticket);
    case Preparing => PrepareKeeps(embed, w, job, answer);
    case ReadingParts => ReadPartsKeeps(embed, w, job, answer);
    case Planning => PlanKeeps(embed, w, job, answer);
    case PersistWriting(plan) => PersistKeeps(embed, w, job, plan, answer);
    case Marking(k, vector) => MarkKeeps(embed, w, job, k, vector, answer);
    case Storing => StoreKeeps(embed, w, job, answer);
    case TaskWork => TaskWorkKeeps(embed, w, job, answer);
  }

  // --------------------------------------------- Rejections and error notes

  /** The coordinator's or an operator's rejection of an open operation without a memory. */
  lemma RejectionMayApply(embed: Embedder, w: World, id: OpId, update: Update)
    requires WorldOk(embed, w) && id in w.db.rows && id !in w.memories && !w.db.rows[id].state.IsTerminal()
    requires update.to.Rejected? && update.blockedBy == [] && update.result.None?
    requires !update.detail.Paused? && IsTold(update.to, update.detail) && IsErrorOf(update.error, update.detail)
    ensures MayUpdate(w, id, update)
  {
    hide TablesOk, Orderly;
  }

  lemma NoteMayApply(embed: Embedder, w: World, id: OpId, update: Update)
    requires WorldOk(embed, w) && NoteOk(w.db, id, update) && !w.db.rows[id].state.IsTerminal()
    ensures MayUpdate(w, id, update)
  {
    hide Orderly;
    OpenOrHeld(w.db, id);
    assert HasMemory(w, id);
    assert id in w.memories ==> MemoryOk(embed, w, id);
  }

  lemma RejectingKeeps(embed: Embedder, w: World, stage: Stage, answer: Answer)
    requires WorldOk(embed, w) && StageOk(embed, w, stage) && stage.Rejecting?
    ensures var (t, next) := Advance(embed, w, stage, answer);
            WorldOk(embed, t) && StageOk(embed, t, next) && IsOwnStep(w, t, stage.id)
  {
    SameIsOwnStep(w, stage.id);
    hide TablesOk, Orderly;
    var update := ToRejectedForGood(stage.message);
    if stage.ticket.Some? && Execute(w.db, stage.ticket.value).Some? {
      OrderlyIsHealthy(w.db);
      TicketApplies(w.db, stage.ticket.value, stage.id, update);
      RejectionMayApply(embed, w, stage.id, update);
      UpdateKeepsWorld(embed, w, stage.id, update);
    } else if stage.ticket.None? && Issue(w.db, stage.id, update).Ok? {
      OrderlyIsHealthy(w.db);
      IssuedIsTicket(w.db, stage.id, update);
    }
  }

  lemma OrderlyIsHealthy(db: Db)
    requires Orderly(db)
    ensures Healthy(db)
  {
  }

  lemma NoteMovingKeeps(embed: Embedder, w: World, stage: Stage, answer: Answer)
    requires WorldOk(embed, w) && StageOk(embed, w, stage) && stage.NoteMoving?
    ensures var (t, next) := Advance(embed, w, stage, answer);
            WorldOk(embed, t) && StageOk(embed, t, next) && IsOwnStep(w, t, stage.id)
  {
    SameIsOwnStep(w, stage.id);
    hide TablesOk, Orderly;
    if stage.ticket.Some? && Execute(w.db, stage.ticket.value).Some? {
      OrderlyIsHealthy(w.db);
      TicketApplies(w.db, stage.ticket.value, stage.id, stage.update);
      NoteMayApply(embed, w, stage.id, stage.update);
      UpdateKeepsWorld(embed, w, stage.id, stage.update);
    } else if stage.ticket.None? && Issue(w.db, stage.id, stage.update).Ok? {
      OrderlyIsHealthy(w.db);
      IssuedIsTicket(w.db, stage.id, stage.update);
    }
  }

  /** What the coordinator's step on its subject leaves as it was. */
  ghost predicate IsCoordinatorStep(w: World, t: World, stage: Stage) {
    && Extends(w.db, t.db)
    && w.memories.Keys <= t.memories.Keys
    && forall id <- t.memories :: id in w.memories || (stage.Working? && stage.job.id == id)
  }

  lemma AdvanceKeeps(embed: Embedder, w: World, stage: Stage, answer: Answer)
    requires WorldOk(embed, w) && StageOk(embed, w, stage)
    ensures var (t, next) := Advance(embed, w, stage, answer);
            WorldOk(embed, t) && StageOk(embed, t, next) && IsCoordinatorStep(w, t, stage)
  {
    match stage
    case Idle =>
    case Working(job, at) =>
      hide WorldOk, AtOk;
      ProceedKeeps(embed, w, job, at, answer);
    case Rejecting(_, _, _) =>
      hide WorldOk, AtOk, Send;
      RejectingKeeps(embed, w, stage, answer);
      RejectionStoresNothing(embed, w, stage, answer);
    case Noting(_, _) => hide WorldOk;
    case NoteMoving(_, _, _) =>
      hide WorldOk, AtOk, Send;
      NoteMovingKeeps(embed, w, stage, answer);
      RejectionStoresNothing(embed, w, stage, answer);
  }

  lemma RejectionStoresNothing(embed: Embedder, w: World, stage: Stage, answer: Answer)
    requires !stage.Working?
    ensures Advance(embed, w, stage, answer).0.memories == w.memories
  {
  }

  // ------------------------------------------------ Operators and submitters

  /** What operators and submitters do: rows they do not reject stay as they are, and
      the tables of parts and memories are not theirs. */
  ghost predicate IsOutsideStep(w: World, t: World) {
    && Extends(w.db, t.db)
    && t.parts == w.parts && t.memories == w.memories
    && forall id <- w.db.rows :: t.db.rows[id] == w.db.rows[id] || t.db.rows[id].state.IsTerminal()
  }

  lemma OperateKeeps(embed: Embedder, w: World, operator: Operator)
    requires WorldOk(embed, w) && OperatorOk(w, operator)
    ensures var (t, next) := Operate(w, operator);
            && WorldOk(embed, t) && OperatorOk(t, next) && IsOutsideStep(w, t)
            && (next.Away? || (!operator.Away? && next.id == operator.id))
            && forall id <- w.db.rows :: operator.Away? || id != operator.id ==> t.db.rows[id] == w.db.rows[id]
  {
    match operator
    case Away =>
    case Fetching(_, _) => hide WorldOk;
    case Probing(id, reason, row) =>
      hide Orderly;
      if !row.kind.AddMemory? || id !in w.memories {
        NoMemoryUnlessProbed(embed, w, id, row);
      }
    case Sending(id, reason, ticket) =>
      if ticket.Some? && Execute(w.db, ticket.value).Some? {
        OperatorRejects(embed, w, id, reason, ticket.value);
      } else {
        hide WorldOk;
        if ticket.None? && Issue(w.db, id, ToRejectedByOperator(reason)).Ok? {
          WorldIsHealthy(embed, w);
          IssuedIsTicket(w.db, id, ToRejectedByOperator(reason));
        }
      }
  }

  lemma WorldIsHealthy(embed: Embedder, w: World)
    requires WorldOk(embed, w)
    ensures Healthy(w.db)
  {
  }

  lemma OperatorRejects(embed: Embedder, w: World, id: OpId, reason: string, ticket: Txn)
    requires WorldOk(embed, w) && id !in w.memories
    requires TicketOk(w.db, ticket, id, ToRejectedByOperator(reason)) && Execute(w.db, ticket).Some?
    ensures var t := w.(db := Execute(w.db, ticket).value);
            && WorldOk(embed, t) && IsOutsideStep(w, t)
            && forall other <- w.db.rows :: other != id ==> t.db.rows[other] == w.db.rows[other]
  {
    WorldIsHealthy(embed, w);
    TicketApplies(w.db, ticket, id, ToRejectedByOperator(reason));
    hide TablesOk, Orderly;
    RejectionMayApply(embed, w, id, ToRejectedByOperator(reason));
    UpdateKeepsWorld(embed, w, id, ToRejectedByOperator(reason));
  }

  /** The memory check of `reject` is enough: an operation of another kind has none. */
  lemma NoMemoryUnlessProbed(embed: Embedder, w: World, id: OpId, row: Row)
    requires TablesOk(embed, w) && id in w.db.rows && SameRequest(w.db.rows[id], row)
    requires row.kind.AddMemory? ==> id !in w.memories
    ensures id !in w.memories
  {
    if row.kind.Task? {
      NoMemoryForOthers(embed, w, id);
    }
  }

  lemma SubmitKeeps(embed: Embedder, w: World, id: OpId, row: Row)
    requires WorldOk(embed, w) && IsNewRow(row) && Execute(w.db, Create(id, row)).Some?
    ensures var t := w.(db := Execute(w.db, Create(id, row)).value);
            && WorldOk(embed, t) && IsOutsideStep(w, t)
            && forall other <- w.db.rows :: t.db.rows[other] == w.db.rows[other]
  {
    CreateKeepsOrder(w.db, id, row);
    hide Orderly, PartsOk, AllIndexed, Uninterrupted;
    var t := w.(db := Execute(w.db, Create(id, row)).value);
    forall other <- t.memories ensures MemoryOk(embed, t, other) {
      assert MemoryOk(embed, w, other);
    }
    forall other <- t.db.rows ensures HasMemory(t, other) && SummariesOk(t, other) {
      assert other in w.db.rows ==> HasMemory(w, other) && SummariesOk(w, other);
    }
  }

  lemma TicketIsStable(w: Db, t: Db, ticket: Txn, id: OpId, update: Update)
    requires Extends(w, t) && TicketOk(w, ticket, id, update)
    ensures TicketOk(t, ticket, id, update)
  {
  }

  lemma StageIsStable(embed: Embedder, w: World, t: World, stage: Stage)
    requires StageOk(embed, w, stage) && IsOutsideStep(w, t)
    requires stage.Working? && stage.job.id in w.db.rows ==> t.db.rows[stage.job.id] == w.db.rows[stage.job.id]
    ensures StageOk(embed, t, stage)
  {
    match stage
    case Idle =>
    case Working(job, at) =>
      hide AtOk;
      AtIsStable(embed, w, t, job, at);
    case Rejecting(id, message, ticket) =>
      hide TicketOk;
      if ticket.Some? {
        TicketIsStable(w.db, t.db, ticket.value, id, ToRejectedForGood(message));
      }
    case Noting(_, _) =>
    case NoteMoving(id, update, ticket) =>
      hide TicketOk;
      if ticket.Some? {
        TicketIsStable(w.db, t.db, ticket.value, id, update);
      }
  }

  lemma OperatorIsStable(w: World, t: World, operator: Operator)
    requires OperatorOk(w, operator) && Extends(w.db, t.db)
    requires !operator.Away? && operator.id !in w.memories ==> operator.id !in t.memories
    ensures OperatorOk(t, operator)
  {
    if operator.Sending? && operator.ticket.Some? {
      TicketIsStable(w.db, t.db, operator.ticket.value, operator.id, ToRejectedByOperator(operator.reason));
    }
  }

  // ---------------------------------------------------------------- One step

  lemma GoKeepsInv(embed: Embedder, s: System, answer: Answer, t: System)
    requires SystemInv(embed, s) && Acts(embed, s, Go(answer), t)
    ensures SystemInv(embed, t)
  {
    hide WorldOk, StageOk, OperatorOk, Advance;
    AdvanceKeeps(embed, s.w, s.stage, answer);
    OperatorIsStable(s.w, t.w, s.operator);
    AdvanceKeepsJob(embed, s.w, s.stage, answer);
  }

  /** The operation in flight only changes between picks by being let go. */
  lemma AdvanceKeepsJob(embed: Embedder, w: World, stage: Stage, answer: Answer)
    ensures var next := Advance(embed, w, stage, answer).1;
            next.Working? ==> stage.Working? && next.job.id == stage.job.id
  {
  }

  lemma FaultKeepsInv(embed: Embedder, s: System, applied: bool, answer: Answer, t: System)
    requires SystemInv(embed, s) && Acts(embed, s, Fault(applied, answer), t)
    ensures SystemInv(embed, t)
  {
    hide WorldOk, OperatorOk, Advance;
    AdvanceKeeps(embed, s.w, s.stage, answer);
    if applied {
      OperatorIsStable(s.w, t.w, s.operator);
    }
  }

  lemma OutsideKeepsInv(embed: Embedder, s: System, action: Action, t: System)
    requires SystemInv(embed, s) && Acts(embed, s, action, t)
    requires action.Submit? || action.OperatorGoes? || action.OperatorFails?
    ensures SystemInv(embed, t)
  {
    if action.Submit? {
      SubmitKeeps(embed, s.w, action.id, action.row);
      hide WorldOk, StageOk, OperatorOk;
      StageIsStable(embed, s.w, t.w, s.stage);
      OperatorIsStable(s.w, t.w, s.operator);
    } else {
      hide WorldOk, StageOk, OperatorOk, Operate;
      OperateKeeps(embed, s.w, s.operator);
      StageIsStable(embed, s.w, Operate(s.w, s.operator).0, s.stage);
      NobodyIsAway(t.w);
    }
  }

  lemma NobodyIsAway(w: World)
    ensures OperatorOk(w, Away)
  {
  }

  lemma NextKeepsInv(embed: Embedder, s: System, action: Action, t: System)
    requires SystemInv(embed, s) && Acts(embed, s, action, t)
    ensures SystemInv(embed, t)
  {
    match action
    case Go(answer) => GoKeepsInv(embed, s, answer, t);
    case Fault(applied, answer) => FaultKeepsInv(embed, s, applied, answer, t);
    case Pick(_, _) => hide WorldOk, OperatorOk;
    case Skip => hide WorldOk, OperatorOk;
    case Crash => hide WorldOk;
    case Ask(_, _) => hide WorldOk, StageOk;
    case Submit(_, _) => OutsideKeepsInv(embed, s, action, t);
    case OperatorGoes => OutsideKeepsInv(embed, s, action, t);
    case OperatorFails(_) => OutsideKeepsInv(embed, s, action, t);
  }

  lemma StartKeepsInv(embed: Embedder)
    ensures SystemInv(embed, START)
  {
  }

  /** The invariant holds at every moment of every run. */
  lemma {:induction false} InvAlways(embed: Embedder, run: seq<System>, actions: seq<Action>, i: nat)
    requires IsSystemRun(embed, run, actions) && i < |run|
    ensures SystemInv(embed, run[i])
  {
    hide SystemInv, Acts;
    if i == 0 {
      StartKeepsInv(embed);
    } else {
      InvAlways(embed, run, actions, i - 1);
      NextKeepsInv(embed, run[i - 1], actions[i - 1], run[i]);
    }
  }
}
