/** What else becomes of an operation when nothing fails: it is blocked, refused, given up
    for good, noted or rejected by an operator. `src/operations.rs`, `process`,
    `reject_permanent_failure`, `record_processing_error` and `reject`. */
module Outcomes {
  import opened Basics
  import opened Ledger
  import opened Dependencies
  import opened Lifecycle
  import opened Coordinator
  import opened Invariant
  import opened Preservation
  import opened Guarantees
  import opened Progress
  import Planner

  predicate IsUnchecked(state: State) {
    state.Accepted? || state.Blocked?
  }

  /** Nothing is planned, embedded or stored, and no other row changes. */
  ghost predicate IsHarmless(w: World, t: World, id: OpId) {
    && t.parts == w.parts && t.memories == w.memories
    && forall other <- w.db.rows :: other in t.db.rows && (other != id ==> t.db.rows[other] == w.db.rows[other])
  }

  // ------------------------------------------------------- Invalid requests

  /** The request is invalid and nothing blocks it. */
  ghost predicate IsRefusable(w: World, id: OpId) {
    id in w.db.rows && !w.db.rows[id].payload.IsValid() && AllCommitted(w.db, w.db.rows[id].dependencies)
  }

  /** Rejected for failing its own validation. */
  predicate IsRefused(db: Db, id: OpId)
    requires id in db.rows
  {
    && db.rows[id].state.Rejected?
    && (id, db.rows[id].progressSeq) in db.events
    && db.events[(id, db.rows[id].progressSeq)].detail.ContractRejected?
  }

  /** Not looked at yet, or already on the way to its rejection. */
  ghost predicate IsOnWayOut(w: World, id: OpId, stage: Stage) {
    && IsRefusable(w, id)
    && match stage
       case Idle => IsRefused(w.db, id)
       case Working(job, at) =>
         job.id == id &&
         (match at
          case Loading => IsUnchecked(w.db.rows[id].state)
          case Checking(_, blockers) => blockers == [] && IsUnchecked(job.row.state)
          case Moving(update, _) => update.to.Rejected? && update.detail.ContractRejected?
          case Returned => IsRefused(w.db, id)
          case _ => false)
       case _ => false
  }

  lemma AdvanceStaysOnWayOut(embed: Embedder, w: World, stage: Stage, id: OpId, answer: Answer)
    requires WorldOk(embed, w) && StageOk(embed, w, stage) && IsOnWayOut(w, id, stage) && !stage.Idle?
    ensures var (t, next) := Advance(embed, w, stage, answer);
            IsOnWayOut(t, id, next) && IsNearer(stage, next) && IsHarmless(w, t, id)
  {
    hide WorldOk, Planner.IsStoredPlan;
    var job := stage.job;
    match stage.at
    case Checking(i, _) =>
      if i < |job.row.dependencies| {
        assert job.row.dependencies[i] in job.row.dependencies;
      }
    case Moving(update, ticket) =>
      hide MovingOk, MoveOn, IsOnWayOut;
      MoveStaysOnWayOut(embed, w, job, update, ticket);
    case _ =>
  }

  lemma MoveStaysOnWayOut(embed: Embedder, w: World, job: Job, update: Update, ticket: Option<Txn>)
    requires WorldOk(embed, w) && MovingOk(w, job, update, ticket)
    requires IsOnWayOut(w, job.id, Working(job, Moving(update, ticket)))
    ensures var (t, next) := MoveOn(w, job, update, ticket);
            && IsOnWayOut(t, job.id, next) && IsNearer(Working(job, Moving(update, ticket)), next)
            && IsHarmless(w, t, job.id)
  {
    hide TablesOk;
    if ticket.Some? {
      RefusalIsApplied(w.db, job.id, update);
    }
    hide Orderly, Applied, MayUpdate;
  }

  lemma RefusalIsApplied(db: Db, id: OpId, update: Update)
    requires Orderly(db) && MayMove(db, id, update) && AllCommitted(db, db.rows[id].dependencies)
    requires update.to.Rejected? && update.detail.ContractRejected?
    ensures var after := Applied(db, id, update);
            && Issue(db, id, update).Ok? && Execute(db, Issue(db, id, update).value) == Some(after)
            && id in after.rows && IsRefused(after, id) && AllCommitted(after, db.rows[id].dependencies)
            && SameRequest(after.rows[id], db.rows[id])
            && forall other <- db.rows :: other in after.rows && (other != id ==> after.rows[other] == db.rows[other])
  {
    ApplyIsExecute(db, id, update);
    AllCommittedStays(db, Applied(db, id, update), db.rows[id].dependencies);
  }

  lemma RefusedWhenIdle(w: World, id: OpId)
    requires IsOnWayOut(w, id, Idle)
    ensures id in w.db.rows && IsRefused(w.db, id) && IsHarmless(w, w, id)
  {
  }

  /** An unblocked operation with an invalid request ends rejected once nothing fails,
      with nothing planned or stored for it and no other operation touched. */
  lemma {:induction false} RefusedUndisturbed(embed: Embedder, w: World, stage: Stage, id: OpId, answer: Answer)
    returns (n: nat)
    requires WorldOk(embed, w) && StageOk(embed, w, stage) && IsOnWayOut(w, id, stage)
    ensures var (t, last) := Drive(embed, w, stage, answer, n);
            last.Idle? && id in t.db.rows && IsRefused(t.db, id) && IsHarmless(w, t, id)
    decreases Phase(stage), StepsInPhase(stage)
  {
    hide WorldOk, StageOk, Advance, Phase, StepsInPhase, IsHarmless, IsOnWayOut, IsRefused;
    if stage.Idle? {
      n := 0;
      RefusedWhenIdle(w, id);
    } else {
      AdvanceKeeps(embed, w, stage, answer);
      AdvanceStaysOnWayOut(embed, w, stage, id, answer);
      var (t, next) := Advance(embed, w, stage, answer);
      var m := RefusedUndisturbed(embed, t, next, id, answer);
      HarmlessIsTransitive(w, t, Drive(embed, t, next, answer, m).0, id);
      n := m + 1;
    }
  }

  lemma HarmlessIsTransitive(w: World, t: World, u: World, id: OpId)
    requires IsHarmless(w, t, id) && IsHarmless(t, u, id)
    ensures IsHarmless(w, u, id)
  {
  }

  // ------------------------------------------------------ Blocked operations

  /** Some dependency is not committed, and the operation is open. */
  ghost predicate IsBlockable(w: World, id: OpId) {
    && id in w.db.rows && IsUnchecked(w.db.rows[id].state)
    && !AllCommitted(w.db, w.db.rows[id].dependencies)
  }

  /** Blocked by exactly its uncommitted dependencies. */
  ghost predicate IsBlockedExactly(db: Db, id: OpId)
    requires id in db.rows
  {
    db.rows[id].state.Blocked? && AreBlockers(db, db.rows[id].dependencies, db.rows[id].blockedBy)
  }

  ghost predicate IsBeingBlocked(w: World, id: OpId, stage: Stage) {
    && IsBlockable(w, id)
    && match stage
       case Idle => IsBlockedExactly(w.db, id)
       case Working(job, at) =>
         job.id == id &&
         (match at
          case Loading => true
          case Checking(i, blockers) =>
            && i <= |job.row.dependencies|
            && forall x :: x in blockers <==> x in job.row.dependencies[..i] && !IsCommitted(w.db, x)
          case Moving(update, _) =>
            && update == ToBlocked(update.blockedBy)
            && AreBlockers(w.db, job.row.dependencies, update.blockedBy)
          case Returned => IsBlockedExactly(w.db, id)
          case _ => false)
       case _ => false
  }

  lemma CheckStaysBlocked(embed: Embedder, w: World, job: Job, i: nat, blockers: seq<OpId>, answer: Answer)
    requires AtOk(embed, w, job, Checking(i, blockers))
    requires IsBeingBlocked(w, job.id, Working(job, Checking(i, blockers)))
    ensures var stage := Working(job, Check(w, job, i, blockers, answer.text));
            IsBeingBlocked(w, job.id, stage) && IsNearerToBlocked(Working(job, Checking(i, blockers)), stage)
  {
    var ids := job.row.dependencies;
    if i < |ids| {
      assert ids[..i + 1] == ids[..i] + [ids[i]];
    } else {
      assert ids[..i] == ids;
      SortDedupIs(blockers);
      NoBlockersMeansAllCommitted(w.db, ids, SortDedup(blockers));
      if job.row.state.Blocked? && job.row.blockedBy == SortDedup(blockers) {
        assert IsBlockedExactly(w.db, job.id);
      }
    }
  }

  /** How far the end is. */
  function StepsToBlocked(stage: Stage): int {
    match stage
    case Working(job, Loading) => |job.row.dependencies| + 6
    case Working(job, Checking(i, _)) => |job.row.dependencies| - i + 4
    case Working(_, Moving(_, ticket)) => if ticket.None? then 3 else 2
    case Working(_, _) => 1
    case _ => 0
  }

  predicate IsNearerToBlocked(before: Stage, after: Stage) {
    (before.Working? && before.at.Loading?) || 0 <= StepsToBlocked(after) < StepsToBlocked(before)
  }

  lemma BlockIsApplied(db: Db, id: OpId, blockers: seq<OpId>)
    requires Orderly(db) && MayMove(db, id, ToBlocked(blockers)) && AreBlockers(db, db.rows[id].dependencies, blockers)
    ensures var after := Applied(db, id, ToBlocked(blockers));
            && Issue(db, id, ToBlocked(blockers)).Ok?
            && Execute(db, Issue(db, id, ToBlocked(blockers)).value) == Some(after)
            && id in after.rows && IsBlockedExactly(after, id) && SameRequest(after.rows[id], db.rows[id])
            && (AllCommitted(after, db.rows[id].dependencies) ==> AllCommitted(db, db.rows[id].dependencies))
            && forall other <- db.rows :: other in after.rows && (other != id ==> after.rows[other] == db.rows[other])
  {
    ApplyIsExecute(db, id, ToBlocked(blockers));
  }

  lemma AdvanceStaysBlocked(embed: Embedder, w: World, stage: Stage, id: OpId, answer: Answer)
    requires WorldOk(embed, w) && StageOk(embed, w, stage) && IsBeingBlocked(w, id, stage) && !stage.Idle?
    ensures var (t, next) := Advance(embed, w, stage, answer);
            IsBeingBlocked(t, id, next) && IsNearerToBlocked(stage, next) && IsHarmless(w, t, id)
  {
    hide WorldOk, Planner.IsStoredPlan;
    var job := stage.job;
    match stage.at
    case Checking(i, blockers) =>
      hide Check;
      CheckStaysBlocked(embed, w, job, i, blockers, answer);
    case Moving(update, ticket) =>
      hide MovingOk, MoveOn, IsBeingBlocked;
      MoveStaysBlocked(embed, w, job, update, ticket);
    case _ =>
  }

  lemma MoveStaysBlocked(embed: Embedder, w: World, job: Job, update: Update, ticket: Option<Txn>)
    requires WorldOk(embed, w) && MovingOk(w, job, update, ticket)
    requires IsBeingBlocked(w, job.id, Working(job, Moving(update, ticket)))
    ensures var (t, next) := MoveOn(w, job, update, ticket);
            && IsBeingBlocked(t, job.id, next) && IsNearerToBlocked(Working(job, Moving(update, ticket)), next)
            && IsHarmless(w, t, job.id)
  {
    hide TablesOk;
    if ticket.Some? {
      BlockIsApplied(w.db, job.id, update.blockedBy);
    }
    hide Orderly, Applied, MayUpdate;
  }

  lemma BlockedWhenIdle(w: World, id: OpId)
    requires IsBeingBlocked(w, id, Idle)
    ensures id in w.db.rows && IsBlockedExactly(w.db, id) && IsHarmless(w, w, id)
  {
  }

  /** An open operation with uncommitted dependencies ends blocked, by exactly these,
      once nothing fails, with nothing planned or stored for it. */
  lemma {:induction false} BlockedUndisturbed(embed: Embedder, w: World, stage: Stage, id: OpId, answer: Answer)
    returns (n: nat)
    requires WorldOk(embed, w) && StageOk(embed, w, stage) && IsBeingBlocked(w, id, stage)
    ensures var (t, last) := Drive(embed, w, stage, answer, n);
            last.Idle? && id in t.db.rows && IsBlockedExactly(t.db, id) && IsHarmless(w, t, id)
    decreases stage.Working? && stage.at.Loading?, StepsToBlocked(stage)
  {
    hide WorldOk, StageOk, Advance, IsHarmless, IsBeingBlocked, IsBlockedExactly, StepsToBlocked;
    if stage.Idle? {
      n := 0;
      BlockedWhenIdle(w, id);
    } else {
      AdvanceKeeps(embed, w, stage, answer);
      AdvanceStaysBlocked(embed, w, stage, id, answer);
      var (t, next) := Advance(embed, w, stage, answer);
      LoadingIsFirst(embed, w, stage, answer);
      var m := BlockedUndisturbed(embed, t, next, id, answer);
      HarmlessIsTransitive(w, t, Drive(embed, t, next, answer, m).0, id);
      n := m + 1;
    }
  }

  lemma LoadingIsFirst(embed: Embedder, w: World, stage: Stage, answer: Answer)
    ensures var next := Advance(embed, w, stage, answer).1; next.Working? ==> !next.at.Loading?
  {
  }

  // ------------------------------------------- Failures that will not go away

  /** A valid add_memory operation without a plan, for which the planner finds none. */
  ghost predicate IsHopeless(w: World, id: OpId, answer: Answer) {
    && id in w.db.rows && id !in w.parts && answer.plan == []
    && w.db.rows[id].kind.AddMemory? && w.db.rows[id].payload.IsValid()
    && AllCommitted(w.db, w.db.rows[id].dependencies)
  }

  ghost predicate IsBeingGivenUp(w: World, id: OpId, answer: Answer, stage: Stage) {
    && IsHopeless(w, id, answer)
    && match stage
       case Idle => IsGivenUp(w.db, id, answer.text)
       case Working(job, at) =>
         job.id == id && !w.db.rows[id].state.IsTerminal() &&
         (match at
          case Loading => true
          case Checking(_, blockers) => blockers == []
          case Moving(update, _) => update == TO_VALIDATED
          case Preparing => true
          case ReadingParts => true
          case Planning => true
          case Failed(permanent) => permanent
          case _ => false)
       case Rejecting(other, message, ticket) =>
         && other == id && message == answer.text && !w.db.rows[id].state.IsTerminal()
         && (ticket.Some? ==> Issue(w.db, id, ToRejectedForGood(message)) == Ok(ticket.value))
       case _ => false
  }

  /** Rejected as a permanent failure, with the failure's text. */
  predicate IsGivenUp(db: Db, id: OpId, message: string)
    requires id in db.rows
  {
    && db.rows[id].state.Rejected? && db.rows[id].error == Some(message)
    && (id, db.rows[id].progressSeq) in db.events
    && db.events[(id, db.rows[id].progressSeq)].detail == PermanentFailure(message)
  }

  function StepsToGivenUp(stage: Stage): int {
    match stage
    case Working(job, at) =>
      (match at
       case Loading => 20
       case Checking(i, _) => |job.row.dependencies| - i + 12
       case Moving(_, ticket) => if ticket.None? then 11 else 10
       case Preparing => 9
       case ReadingParts => 8
       case Planning => 7
       case _ => 6)
    case Rejecting(_, _, ticket) => if ticket.None? then 5 else 4
    case _ => 0
  }

  predicate IsNearerToGivenUp(before: Stage, after: Stage) {
    (before.Working? && before.at.Loading?) || 0 <= StepsToGivenUp(after) < StepsToGivenUp(before)
  }

  lemma ValidationIsApplied(db: Db, id: OpId, ids: seq<OpId>)
    requires Orderly(db) && MayMove(db, id, TO_VALIDATED) && AllCommitted(db, ids)
    ensures var after := Applied(db, id, TO_VALIDATED);
            && Issue(db, id, TO_VALIDATED).Ok? && Execute(db, Issue(db, id, TO_VALIDATED).value) == Some(after)
            && id in after.rows && SameRequest(after.rows[id], db.rows[id]) && AllCommitted(after, ids)
            && !after.rows[id].state.IsTerminal()
            && forall other <- db.rows :: other in after.rows && (other != id ==> after.rows[other] == db.rows[other])
  {
    ApplyIsExecute(db, id, TO_VALIDATED);
    AllCommittedStays(db, Applied(db, id, TO_VALIDATED), ids);
  }

  lemma GivingUpIsApplied(db: Db, id: OpId, message: string)
    requires Orderly(db) && id in db.rows && !db.rows[id].state.IsTerminal()
    requires AllCommitted(db, db.rows[id].dependencies)
    ensures var after := Applied(db, id, ToRejectedForGood(message));
            && Issue(db, id, ToRejectedForGood(message)).Ok?
            && Execute(db, Issue(db, id, ToRejectedForGood(message)).value) == Some(after)
            && id in after.rows && IsGivenUp(after, id, message) && SameRequest(after.rows[id], db.rows[id])
            && AllCommitted(after, db.rows[id].dependencies)
            && forall other <- db.rows :: other in after.rows && (other != id ==> after.rows[other] == db.rows[other])
  {
    ApplyIsExecute(db, id, ToRejectedForGood(message));
    AllCommittedStays(db, Applied(db, id, ToRejectedForGood(message)), db.rows[id].dependencies);
  }

  lemma AdvanceStaysGivenUp(embed: Embedder, w: World, stage: Stage, id: OpId, answer: Answer)
    requires WorldOk(embed, w) && StageOk(embed, w, stage) && IsBeingGivenUp(w, id, answer, stage) && !stage.Idle?
    ensures var (t, next) := Advance(embed, w, stage, answer);
            IsBeingGivenUp(t, id, answer, next) && IsNearerToGivenUp(stage, next) && IsHarmless(w, t, id)
  {
    if stage.Rejecting? {
      GivingUpIsApplied(w.db, id, stage.message);
      hide Orderly, TablesOk, Applied;
    } else {
      WorkStaysGivenUp(embed, w, stage.job, stage.at, answer);
    }
  }

  lemma WorkStaysGivenUp(embed: Embedder, w: World, job: Job, at: At, answer: Answer)
    requires WorldOk(embed, w) && AtOk(embed, w, job, at) && IsBeingGivenUp(w, job.id, answer, Working(job, at))
    ensures var (t, next) := Proceed(embed, w, job, at, answer);
            && IsBeingGivenUp(t, job.id, answer, next) && IsNearerToGivenUp(Working(job, at), next)
            && IsHarmless(w, t, job.id)
  {
    hide TablesOk, Planner.IsStoredPlan;
    match at
    case Checking(i, _) =>
      hide Orderly;
      if i < |job.row.dependencies| {
        assert job.row.dependencies[i] in job.row.dependencies;
      }
    case Moving(update, ticket) =>
      if ticket.Some? {
        ValidationIsApplied(w.db, job.id, w.db.rows[job.id].dependencies);
      }
      hide Orderly, Applied, MayUpdate;
    case _ => hide Orderly;
  }

  lemma GivenUpWhenIdle(w: World, id: OpId, answer: Answer)
    requires IsBeingGivenUp(w, id, answer, Idle)
    ensures id in w.db.rows && IsGivenUp(w.db, id, answer.text) && IsHarmless(w, w, id)
  {
  }

  /** An operation that will never have a plan ends rejected for good, with the failure's
      text, once nothing else fails. */
  lemma {:induction false} GivenUpUndisturbed(embed: Embedder, w: World, stage: Stage, id: OpId, answer: Answer)
    returns (n: nat)
    requires WorldOk(embed, w) && StageOk(embed, w, stage) && IsBeingGivenUp(w, id, answer, stage)
    ensures var (t, last) := Drive(embed, w, stage, answer, n);
            last.Idle? && id in t.db.rows && IsGivenUp(t.db, id, answer.text) && IsHarmless(w, t, id)
    decreases stage.Working? && stage.at.Loading?, StepsToGivenUp(stage)
  {
    hide WorldOk, StageOk, Advance, IsHarmless, IsBeingGivenUp, IsGivenUp, StepsToGivenUp;
    if stage.Idle? {
      n := 0;
      GivenUpWhenIdle(w, id, answer);
    } else {
      AdvanceKeeps(embed, w, stage, answer);
      AdvanceStaysGivenUp(embed, w, stage, id, answer);
      var (t, next) := Advance(embed, w, stage, answer);
      LoadingIsFirst(embed, w, stage, answer);
      var m := GivenUpUndisturbed(embed, t, next, id, answer);
      HarmlessIsTransitive(w, t, Drive(embed, t, next, answer, m).0, id);
      n := m + 1;
    }
  }

  // ------------------------------------------------------------- Error notes

  /** Whose failure `AfterFault` deals with, and under which text it is noted. */
  function Subject(stage: Stage): OpId
    requires stage.Working? || stage.Rejecting?
  {
    if stage.Working? then stage.job.id else stage.id
  }

  function FaultText(stage: Stage, answer: Answer): string
    requires stage.Working? || stage.Rejecting?
  {
    if stage.Working? then answer.text else stage.message
  }

  /** A call that fails anywhere in the processing or final rejection of an open operation
      ends as an error note on it, unless it shows the same error already; nothing else
      changes. */
  lemma FaultIsNoted(embed: Embedder, w: World, stage: Stage, answer: Answer) returns (n: nat)
    requires Healthy(w.db) && (stage.Working? || stage.Rejecting?)
    requires Subject(stage) in w.db.rows && !w.db.rows[Subject(stage)].state.IsTerminal()
    ensures var id, text := Subject(stage), FaultText(stage, answer);
            var (t, last) := Drive(embed, w, AfterFault(stage), answer, n);
            var row := w.db.rows[id];
            && last.Idle? && IsHarmless(w, t, id)
            && t.db.rows[id] == if row.error == Some(text) then row
                                else row.(error := Some(text), progressSeq := row.progressSeq + 1)
  {
    var id, text := Subject(stage), FaultText(stage, answer);
    n := NoteIsWritten(embed, w, id, text, answer);
    if stage.Working? {
      var failed := Working(stage.job, Failed(false));
      assert Drive(embed, w, failed, answer, n + 1) == Drive(embed, w, Noting(id, text), answer, n);
      n := n + 1;
    }
  }

  lemma NoteIsWritten(embed: Embedder, w: World, id: OpId, text: string, answer: Answer) returns (n: nat)
    requires Healthy(w.db) && id in w.db.rows && !w.db.rows[id].state.IsTerminal()
    ensures var (t, last) := Drive(embed, w, Noting(id, text), answer, n);
            var row := w.db.rows[id];
            && last.Idle? && IsHarmless(w, t, id)
            && t.db.rows[id] == if row.error == Some(text) then row
                                else row.(error := Some(text), progressSeq := row.progressSeq + 1)
  {
    var row := w.db.rows[id];
    var noting := Noting(id, text);
    n := if row.error == Some(text) then 1 else 3;
    if row.error == Some(text) {
      assert Drive(embed, w, noting, answer, 1) == Drive(embed, w, Idle, answer, 0);
    } else {
      var note := ToNote(row, text);
      assert IsPastBlocked(row.state) ==> AllCommitted(w.db, row.dependencies) by {
        assert IsHeld(w.db, id);
      }
      ApplyIsExecute(w.db, id, note);
      var t := w.(db := Applied(w.db, id, note));
      assert Drive(embed, w, noting, answer, 3) == Drive(embed, w, NoteMoving(id, note, None), answer, 2);
      var ticket := Issue(w.db, id, note).value;
      assert Drive(embed, w, NoteMoving(id, note, None), answer, 2)
          == Drive(embed, w, NoteMoving(id, note, Some(ticket)), answer, 1);
      assert Drive(embed, w, NoteMoving(id, note, Some(ticket)), answer, 1) == Drive(embed, t, Idle, answer, 0);
    }
  }

  // --------------------------------------------------------------- Operators

  /** `n` steps of a call of `reject`. */
  function OperateTimes(w: World, operator: Operator, n: nat): (World, Operator)
    decreases n
  {
    if n == 0 then (w, operator)
    else
      var (t, next) := Operate(w, operator);
      OperateTimes(t, next, n - 1)
  }

  /** `reject` may take an operation out of the coordinator's hands. */
  predicate IsRejectable(w: World, id: OpId) {
    && id in w.db.rows && !w.db.rows[id].state.IsTerminal() && !w.db.rows[id].state.Indexed?
    && (w.db.rows[id].kind.AddMemory? ==> id !in w.memories)
  }

  /** A rejection nobody disturbs takes effect exactly on an open operation that is not
      indexed and has no memory: it ends rejected with the operator's reason as its
      error. Otherwise nothing changes at all. */
  lemma RejectUndisturbed(w: World, id: OpId, reason: string)
    requires Healthy(w.db)
    ensures var (t, last) := OperateTimes(w, Fetching(id, reason), 4);
            && last.Away?
            && (!IsRejectable(w, id) ==> t == w)
            && (IsRejectable(w, id) ==>
                  && IsHarmless(w, t, id) && id in t.db.rows
                  && RejectedWith(t.db, id, reason))
  {
    var update := ToRejectedByOperator(reason);
    if IsRejectable(w, id) {
      ApplyIsExecute(w.db, id, update);
      var ticket := Issue(w.db, id, update).value;
      var t := w.(db := Applied(w.db, id, update));
      assert OperateTimes(w, Fetching(id, reason), 4) == OperateTimes(w, Probing(id, reason, w.db.rows[id]), 3);
      assert OperateTimes(w, Probing(id, reason, w.db.rows[id]), 3) == OperateTimes(w, Sending(id, reason, None), 2);
      assert OperateTimes(w, Sending(id, reason, None), 2) == OperateTimes(w, Sending(id, reason, Some(ticket)), 1);
      assert OperateTimes(w, Sending(id, reason, Some(ticket)), 1) == OperateTimes(t, Away, 0);
    } else {
      AwayStays(w, 2);
      AwayStays(w, 3);
      if id in w.db.rows && !w.db.rows[id].state.IsTerminal() {
        assert OperateTimes(w, Fetching(id, reason), 4) == OperateTimes(w, Probing(id, reason, w.db.rows[id]), 3);
        assert OperateTimes(w, Probing(id, reason, w.db.rows[id]), 3) == OperateTimes(w, Away, 2);
      } else {
        assert OperateTimes(w, Fetching(id, reason), 4) == OperateTimes(w, Away, 3);
      }
    }
  }

  predicate RejectedWith(db: Db, id: OpId, reason: string)
    requires id in db.rows
  {
    && db.rows[id].state.Rejected? && db.rows[id].error == Some(reason)
    && (id, db.rows[id].progressSeq) in db.events
    && db.events[(id, db.rows[id].progressSeq)].detail == ByOperator(reason)
  }

  lemma {:induction false} AwayStays(w: World, n: nat)
    ensures OperateTimes(w, Away, n) == (w, Away)
  {
    if n > 0 {
      AwayStays(w, n - 1);
    }
  }

  // ---------------------------------------------------------------- The lock

  /** In every run the lock works: a transition of the operation in flight never finds it
      terminal and its transaction never aborts, whatever operators and submitters do. */
  lemma InFlightNeverAborts(embed: Embedder, run: seq<System>, actions: seq<Action>, i: nat)
    requires IsSystemRun(embed, run, actions) && i < |run|
    requires run[i].stage.Working? && run[i].stage.at.Moving?
    ensures var at, id := run[i].stage.at, run[i].stage.job.id;
            && Issue(run[i].w.db, id, at.update).Ok?
            && (at.ticket.Some? ==> Execute(run[i].w.db, at.ticket.value).Some?)
  {
    InvAlways(embed, run, actions, i);
    var w, job, at := run[i].w, run[i].stage.job, run[i].stage.at;
    assert MovingOk(w, job, at.update, at.ticket);
    WorldIsHealthy(embed, w);
    ApplyIsExecute(w.db, job.id, at.update);
  }

  // --------------------------------------------------------- Persisted plans

  /** Whoever else persisted a plan first, `persist_plan` writes only where there is none,
      and goes on with the stored one exactly if it has the same parts: number, hash and
      token range of each. */
  lemma PersistedPlanIsNotReplaced(w: World, id: OpId, plan: seq<PlanPart>)
    ensures && (Persist(w, id, plan).PersistWriting? <==> id !in w.parts || w.parts[id] == [])
            && (Persist(w, id, plan).Rereading? <==>
                  && id in w.parts && w.parts[id] != [] && |w.parts[id]| == |plan|
                  && forall i :: 0 <= i < |plan| ==>
                       && w.parts[id][i].plan.partIndex == plan[i].partIndex
                       && w.parts[id][i].plan.tokenHash == plan[i].tokenHash
                       && w.parts[id][i].plan.tokenStart == plan[i].tokenStart
                       && w.parts[id][i].plan.tokenEnd == plan[i].tokenEnd)
  {
    if id in w.parts {
      assert forall i :: 0 <= i < |w.parts[id]| ==> PlanOf(w.parts[id])[i] == w.parts[id][i].plan;
    }
  }
}
