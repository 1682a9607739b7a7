/** What holds at every moment of every run of the coordinator, the operators and the
    submitters: the world is consistent, and whoever is in the middle of something
    still has what it relies on. */
module Invariant {
  import opened Basics
  import opened Ledger
  import opened Dependencies
  import opened Lifecycle
  import opened Coordinator
  import Planner

  // ------------------------------------------------------------------ World

  predicate IsStoring(state: State) {
    state.Processing? || state.Indexed? || state.Committed?
  }

  /** A persisted plan: not empty, and what is indexed is the embedding of its text. */
  ghost predicate PartsOk(embed: Embedder, parts: seq<StoredPart>) {
    && parts != []
    && forall k :: 0 <= k < |parts| && parts[k].embedding.Some? ==>
         parts[k].embedding.value == embed(parts[k].plan.content)
  }

  /** A stored memory belongs to an add_memory operation that is not rejected, all of
      whose parts are indexed, and is what an uninterrupted run stores. */
  ghost predicate MemoryOk(embed: Embedder, w: World, id: OpId)
    requires id in w.memories
  {
    && id in w.db.rows
    && var row := w.db.rows[id];
       && row.kind.AddMemory? && row.payload.Request? && IsStoring(row.state)
       && id in w.parts && AllIndexed(w.parts[id])
       && w.memories[id] == Uninterrupted(embed, row.payload.content, PlanOf(w.parts[id]))
       && Planner.MaxEnd(PlanOf(w.parts[id])) <= U32_MAX
  }

  predicate NeedsMemory(row: Row, state: State) {
    row.kind.AddMemory? && (state.Indexed? || state.Committed?)
  }

  predicate HasMemory(w: World, id: OpId)
    requires id in w.db.rows
  {
    NeedsMemory(w.db.rows[id], w.db.rows[id].state) ==> id in w.memories
  }

  /** `detail` tells the plan of `id`, if it tells one at all. */
  predicate TellsPlan(w: World, id: OpId, detail: Detail) {
    detail.PlanSummary? ==>
      && id in w.parts
      && detail.parts == |w.parts[id]| && detail.tokenCount == Planner.MaxEnd(PlanOf(w.parts[id]))
  }

  /** Every plan summary in the log is one of the persisted plan. */
  ghost predicate SummariesOk(w: World, id: OpId)
    requires id in w.db.rows
  {
    forall k {:trigger w.db.events[(id, k)]} | (id, k) in w.db.events :: TellsPlan(w, id, w.db.events[(id, k)].detail)
  }

  ghost predicate TablesOk(embed: Embedder, w: World) {
    && w.parts.Keys <= w.db.rows.Keys
    && (forall id {:trigger w.parts[id]} | id in w.parts :: PartsOk(embed, w.parts[id]))
    && (forall id {:trigger MemoryOk(embed, w, id)} | id in w.memories :: MemoryOk(embed, w, id))
    && (forall id {:trigger HasMemory(w, id)} | id in w.db.rows :: HasMemory(w, id))
    && (forall id {:trigger SummariesOk(w, id)} | id in w.db.rows :: SummariesOk(w, id))
  }

  ghost predicate WorldOk(embed: Embedder, w: World) {
    Orderly(w.db) && TablesOk(embed, w)
  }

  /** The lifecycle allows the update, a stored memory is neither rejected nor redone,
      and a missing one is not claimed to be stored. */
  ghost predicate MayUpdate(w: World, id: OpId, update: Update) {
    && MayMove(w.db, id, update)
    && (id in w.memories ==> IsStoring(update.to))
    && (NeedsMemory(w.db.rows[id], update.to) ==> id in w.memories)
    && TellsPlan(w, id, update.detail)
  }

  lemma UpdateKeepsWorld(embed: Embedder, w: World, id: OpId, update: Update)
    requires WorldOk(embed, w) && MayUpdate(w, id, update)
    ensures WorldOk(embed, w.(db := Applied(w.db, id, update)))
    ensures Extends(w.db, Applied(w.db, id, update))
  {
    hide Orderly, MayMove;
    ApplyKeepsOrder(w.db, id, update);
    UpdateKeepsTables(embed, w, id, update);
  }

  lemma UpdateKeepsTables(embed: Embedder, w: World, id: OpId, update: Update)
    requires TablesOk(embed, w) && MayUpdate(w, id, update)
    ensures TablesOk(embed, w.(db := Applied(w.db, id, update)))
  {
    hide Uninterrupted, MayMove, AllIndexed, PartsOk;
    assert id in w.db.rows by {
      MayMoveIsKnown(w.db, id, update);
    }
    var t := w.(db := Applied(w.db, id, update));
    forall other <- t.memories ensures MemoryOk(embed, t, other) {
      assert MemoryOk(embed, w, other);
    }
    forall other <- t.db.rows ensures HasMemory(t, other) && SummariesOk(t, other) {
      assert HasMemory(w, other) && SummariesOk(w, other);
    }
  }

  lemma MayMoveIsKnown(db: Db, id: OpId, update: Update)
    requires MayMove(db, id, update)
    ensures id in db.rows
  {
  }

  // ---------------------------------------------------------------- Tickets

  /** A transaction issued for `update` at some time before. */
  ghost predicate TicketOk(db: Db, ticket: Txn, id: OpId, update: Update) {
    ticket.Move? && ticket.id == id && ticket.update == update && TxnOk(db, ticket)
  }

  /** A ticket either aborts, or its row is open and it does what `Applied` says. */
  lemma TicketApplies(db: Db, ticket: Txn, id: OpId, update: Update)
    requires Healthy(db) && TicketOk(db, ticket, id, update) && Execute(db, ticket).Some?
    ensures id in db.rows && !db.rows[id].state.IsTerminal()
    ensures Execute(db, ticket) == Some(Applied(db, id, update))
  {
    OnlyTheNextNumberIsFree(db, ticket);
  }

  lemma IssuedIsTicket(db: Db, id: OpId, update: Update)
    requires Healthy(db) && Issue(db, id, update).Ok?
    ensures TicketOk(db, Issue(db, id, update).value, id, update)
  {
    IssuedIsOk(db, id, update);
  }

  // ------------------------------------------------------------------ Stages

  /** The operation in flight is as the coordinator believes, and open. */
  ghost predicate JobOk(w: World, job: Job) {
    && job.id in w.db.rows
    && SameRequest(w.db.rows[job.id], job.row)
    && w.db.rows[job.id].state == job.state
    && !job.state.IsTerminal()
  }

  ghost predicate IsWorked(w: World, job: Job) {
    JobOk(w, job) && IsPastBlocked(job.state)
  }

  ghost predicate IsMemoryWork(w: World, job: Job) {
    IsWorked(w, job) && job.row.kind.AddMemory? && job.row.payload.Request?
  }

  ghost predicate PartsLoaded(w: World, job: Job) {
    IsMemoryWork(w, job) && job.id in w.parts && job.parts == w.parts[job.id]
  }

  ghost predicate PlanLoaded(w: World, job: Job) {
    PartsLoaded(w, job) && Planner.IsStoredPlan(PlanOf(job.parts))
  }

  /** What `dependency_blockers` has found among the first `i` dependencies. */
  ghost predicate CheckOk(db: Db, row: Row, i: nat, blockers: seq<OpId>) {
    && i <= |row.dependencies|
    && (forall id <- blockers :: id in row.dependencies && (row.state.Blocked? ==> id in row.blockedBy))
    && (forall k :: 0 <= k < i ==> IsCommitted(db, row.dependencies[k]) || row.dependencies[k] in blockers)
    && (AllCommitted(db, row.dependencies) || row.state.Accepted? || row.state.Blocked?)
    && (IsPastBlocked(row.state) ==> blockers == [])
  }

  predicate IsAfterProcessing(state: State) {
    state.Processing? || state.Indexed?
  }

  ghost predicate IndexedUpTo(parts: seq<StoredPart>, k: nat) {
    k <= |parts| && forall j :: 0 <= j < k ==> parts[j].embedding.Some?
  }

  ghost predicate MovingOk(w: World, job: Job, update: Update, ticket: Option<Txn>) {
    && JobOk(w, job)
    && MayUpdate(w, job.id, update)
    && !update.detail.Paused?
    && (ticket.Some? ==> Issue(w.db, job.id, update) == Ok(ticket.value))
    && ((update.to.Planned? || update.to.Processing?) && job.row.kind.AddMemory? ==> PlanLoaded(w, job))
  }

  ghost predicate MarkingOk(embed: Embedder, w: World, job: Job, k: nat, vector: Vector) {
    && PlanLoaded(w, job) && job.state.Processing? && IndexedUpTo(job.parts, k)
    && k < |job.parts|
    && job.parts[k].embedding.None?
    && vector == embed(job.parts[k].plan.content)
  }

  ghost predicate AtOk(embed: Embedder, w: World, job: Job, at: At) {
    match at
    case Loading => true
    case Checking(i, blockers) =>
      JobOk(w, job) && w.db.rows[job.id] == job.row && CheckOk(w.db, job.row, i, blockers)
    case Moving(update, ticket) => MovingOk(w, job, update, ticket)
    case Preparing => IsWorked(w, job) && job.row.kind.AddMemory?
    case ReadingParts => IsMemoryWork(w, job)
    case Planning => IsMemoryWork(w, job) && job.id !in w.parts
    case PersistReading(plan) => IsMemoryWork(w, job) && job.id !in w.parts && plan != []
    case PersistWriting(plan) => IsMemoryWork(w, job) && job.id !in w.parts && plan != []
    case Rereading => IsMemoryWork(w, job) && job.id in w.parts
    case Validating => PartsLoaded(w, job)
    case Deciding => PlanLoaded(w, job)
    case Embedding(k) => PlanLoaded(w, job) && job.state.Processing? && IndexedUpTo(job.parts, k)
    case Marking(k, vector) => MarkingOk(embed, w, job, k, vector)
    case Verifying => PlanLoaded(w, job) && IsAfterProcessing(job.state)
    case Storing =>
      && PlanLoaded(w, job) && IsAfterProcessing(job.state) && AllIndexed(job.parts)
      && Planner.MaxEnd(PlanOf(job.parts)) <= U32_MAX
    case TaskDeciding => IsWorked(w, job) && job.row.kind.Task?
    case TaskWork => IsWorked(w, job) && job.row.kind.Task? && IsAfterProcessing(job.state)
    case Finishing =>
      IsWorked(w, job) && IsAfterProcessing(job.state) && (job.row.kind.AddMemory? ==> job.id in w.memories)
    case Returned => true
    case Failed(permanent) => permanent ==> job.id in w.db.rows && job.id !in w.memories
  }

  ghost predicate NoteOk(db: Db, id: OpId, update: Update) {
    && update.detail.Paused?
    && id in db.rows
    && (!db.rows[id].state.IsTerminal() ==> IsNote(db.rows[id], update))
  }

  ghost predicate StageOk(embed: Embedder, w: World, stage: Stage) {
    match stage
    case Idle => true
    case Working(job, at) => AtOk(embed, w, job, at)
    case Rejecting(id, message, ticket) =>
      && id in w.db.rows && id !in w.memories
      && (ticket.Some? ==> TicketOk(w.db, ticket.value, id, ToRejectedForGood(message)))
    case Noting(id, message) => true
    case NoteMoving(id, update, ticket) =>
      && NoteOk(w.db, id, update)
      && (ticket.Some? ==> TicketOk(w.db, ticket.value, id, update))
  }

  ghost predicate OperatorOk(w: World, operator: Operator) {
    match operator
    case Away => true
    case Fetching(_, _) => true
    case Probing(id, _, row) => id in w.db.rows && SameRequest(w.db.rows[id], row)
    case Sending(id, reason, ticket) =>
      && id in w.db.rows && id !in w.memories
      && (ticket.Some? ==> TicketOk(w.db, ticket.value, id, ToRejectedByOperator(reason)))
  }

  /** The lock: an operator never works on the operation in flight. */
  predicate LockOk(stage: Stage, operator: Operator) {
    stage.Working? && !operator.Away? ==> operator.id != stage.job.id
  }

  ghost predicate SystemInv(embed: Embedder, s: System) {
    && WorldOk(embed, s.w)
    && StageOk(embed, s.w, s.stage)
    && OperatorOk(s.w, s.operator)
    && LockOk(s.stage, s.operator)
  }

  // ------------------------------------------------- What others leave alone

  /** Whatever others do, they leave the operation in flight and its tables alone. */
  ghost predicate IsElsewhere(w: World, t: World, id: OpId) {
    && Extends(w.db, t.db)
    && (id in w.db.rows ==> t.db.rows[id] == w.db.rows[id])
    && (id in w.parts <==> id in t.parts)
    && (id in w.parts ==> t.parts[id] == w.parts[id])
    && (id in w.memories <==> id in t.memories)
  }

  lemma AllCommittedStays(a: Db, b: Db, ids: seq<OpId>)
    requires Extends(a, b) && AllCommitted(a, ids)
    ensures AllCommitted(b, ids)
  {
  }

  lemma MayUpdateIsStable(w: World, t: World, id: OpId, update: Update)
    requires IsElsewhere(w, t, id) && MayUpdate(w, id, update)
    ensures MayUpdate(t, id, update)
  {
    if IsPastBlocked(update.to) {
      AllCommittedStays(w.db, t.db, w.db.rows[id].dependencies);
    }
  }

  lemma CheckIsStable(w: Db, t: Db, row: Row, i: nat, blockers: seq<OpId>)
    requires Extends(w, t) && CheckOk(w, row, i, blockers)
    ensures CheckOk(t, row, i, blockers)
  {
    if AllCommitted(w, row.dependencies) {
      AllCommittedStays(w, t, row.dependencies);
    }
    forall k | 0 <= k < i ensures IsCommitted(t, row.dependencies[k]) || row.dependencies[k] in blockers {
      assert IsCommitted(w, row.dependencies[k]) || row.dependencies[k] in blockers;
    }
  }

  lemma JobIsStable(w: World, t: World, job: Job)
    requires IsElsewhere(w, t, job.id)
    ensures JobOk(w, job) ==> JobOk(t, job)
    ensures job.id in w.db.rows ==> job.id in t.db.rows
  {
  }

  lemma OtherAtIsStable(embed: Embedder, w: World, t: World, job: Job, at: At)
    requires AtOk(embed, w, job, at) && IsElsewhere(w, t, job.id) && !at.Checking? && !at.Moving?
    ensures AtOk(embed, t, job, at)
  {
    JobIsStable(w, t, job);
    hide Extends, CheckOk, MayUpdate, JobOk, Planner.IsStoredPlan, PlanOf;
  }

  lemma AtIsStable(embed: Embedder, w: World, t: World, job: Job, at: At)
    requires AtOk(embed, w, job, at) && IsElsewhere(w, t, job.id)
    ensures AtOk(embed, t, job, at)
  {
    match at
    case Checking(i, blockers) =>
      CheckIsStable(w.db, t.db, job.row, i, blockers);
    case Moving(update, ticket) =>
      hide MayUpdate, Extends, Planner.IsStoredPlan, PlanOf;
      MayUpdateIsStable(w, t, job.id, update);
    case _ =>
      OtherAtIsStable(embed, w, t, job, at);
  }
}
