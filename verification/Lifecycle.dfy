/** What a single coordinator and the operators do to the rows of the ledger: which
    updates they send, in which order an operation goes through its states, and what
    that says about dependencies over a whole run. `src/operations.rs`. */
module Lifecycle {
  import opened Basics
  import opened Ledger
  import opened Dependencies

  function Rank(state: State): nat {
    match state
    case Accepted => 0
    case Blocked => 1
    case Validated => 2
    case Planned => 3
    case Processing => 4
    case Indexed => 5
    case Committed => 6
    case Rejected => 7
  }

  /** How many events other than error notes an operation may still record. */
  ghost function Left(row: Row): nat {
    match row.state
    case Accepted => |Elements(row.dependencies)| + 5
    case Blocked => |row.blockedBy| + 4
    case Validated => 4
    case Planned => 3
    case Processing => 2
    case Indexed => 1
    case Committed => 0
    case Rejected => 0
  }

  /** The blocker list of a Blocked row: sorted dependencies, at least one, and all
      that are not committed. */
  ghost predicate BlockedOk(db: Db, row: Row) {
    row.state.Blocked? ==>
      && row.blockedBy != []
      && StrictlySorted(row.blockedBy)
      && (forall id <- row.blockedBy :: id in row.dependencies)
      && (forall id <- row.dependencies :: IsCommitted(db, id) || id in row.blockedBy)
  }

  /** An error note changes neither state nor blockers nor result. */
  predicate IsNote(row: Row, update: Update) {
    && update.detail.Paused? && update.to == row.state
    && update.blockedBy == row.blockedBy && update.result == row.result
    && update.error == Some(update.detail.error)
  }

  /** A blocked operation is only blocked again by fewer of the same blockers. */
  ghost predicate IsUnblocking(row: Row, update: Update) {
    && row.state.Blocked? && update.to.Blocked?
    && (forall id <- update.blockedBy :: id in row.blockedBy)
    && |update.blockedBy| < |row.blockedBy|
  }

  ghost predicate IsMove(row: Row, update: Update) {
    && !update.detail.Paused?
    && (Follows(row.state, update.to) || IsUnblocking(row, update))
  }

  /** What an event tells about the step it records. */
  predicate IsTold(to: State, detail: Detail) {
    detail.Paused? ||
    match to
    case Accepted => detail.DurablyAccepted?
    case Blocked => detail.DependenciesNotCommitted?
    case Validated => detail.ContractValidated?
    case Planned => detail.PlanSummary? || detail.Scheduled?
    case Processing => detail.Scheduled?
    case Indexed => detail.NoDetail?
    case Committed => detail.OutcomeCommitted?
    case Rejected => detail.ContractRejected? || detail.PermanentFailure? || detail.ByOperator?
  }

  /** The error a receipt shows is the one its last event tells. */
  predicate IsErrorOf(error: Option<string>, detail: Detail) {
    match detail
    case Paused(message) => error == Some(message)
    case PermanentFailure(message) => error == Some(message)
    case ByOperator(reason) => error == Some(reason)
    case ContractRejected => error.Some?
    case _ => error.None?
  }

  /** A receipt shows blockers only while blocked, and a result exactly once indexed. */
  predicate IsComplete(row: Row) {
    && (!row.state.Blocked? ==> row.blockedBy == [])
    && (row.result.Some? <==> row.state.Indexed? || row.state.Committed?)
  }

  ghost predicate ReceiptOk(db: Db, id: OpId)
    requires id in db.rows
  {
    && IsComplete(db.rows[id])
    && (id, db.rows[id].progressSeq) in db.events
    && IsErrorOf(db.rows[id].error, db.events[(id, db.rows[id].progressSeq)].detail)
  }

  ghost predicate MayMove(db: Db, id: OpId, update: Update) {
    && MayApply(db, id, update)
    && (IsNote(db.rows[id], update) || IsMove(db.rows[id], update))
    && (IsPastBlocked(update.to) && !IsPastBlocked(db.rows[id].state) ==> db.rows[id].payload.IsValid())
    && IsTold(update.to, update.detail) && IsErrorOf(update.error, update.detail)
    && BlockedOk(db, MovedNext(db.rows[id], update)) && IsComplete(MovedNext(db.rows[id], update))
  }

  /** Events other than error notes among the first `n` of `id`. */
  ghost function Moves(db: Db, id: OpId, n: nat): nat {
    if n == 0 then 0
    else Moves(db, id, n - 1) + if (id, n) in db.events && db.events[(id, n)].detail.Paused? then 0 else 1
  }

  predicate IsOrdered(event: Event) {
    event.fromState.Some? ==>
      var from, to := event.fromState.value, event.toState;
      if event.detail.Paused? then from == to
      else Follows(from, to) || (from.Blocked? && to.Blocked?)
  }

  ghost predicate LogIsOrdered(db: Db, id: OpId)
    requires id in db.rows
  {
    forall k :: 1 <= k <= db.rows[id].progressSeq && (id, k) in db.events ==>
      IsOrdered(db.events[(id, k)]) && IsTold(db.events[(id, k)].toState, db.events[(id, k)].detail)
  }

  /** With D distinct dependencies, at most D + 6 events other than error notes. */
  ghost predicate IsBounded(db: Db, id: OpId)
    requires id in db.rows
  {
    var row := db.rows[id];
    Moves(db, id, row.progressSeq) + Left(row) <= |Elements(row.dependencies)| + 6
  }

  ghost predicate OpOk(db: Db, id: OpId)
    requires id in db.rows
  {
    && BlockedOk(db, db.rows[id]) && LogIsOrdered(db, id) && IsBounded(db, id)
    && (IsPastBlocked(db.rows[id].state) ==> db.rows[id].payload.IsValid())
    && ReceiptOk(db, id)
  }

  ghost predicate Orderly(db: Db) {
    && Healthy(db)
    && forall id {:trigger OpOk(db, id)} | id in db.rows :: OpOk(db, id)
  }

  /** Each move uses up at least one of the events left. */
  lemma MovesUseUp(db: Db, id: OpId, update: Update)
    requires MayMove(db, id, update) && BlockedOk(db, db.rows[id])
    ensures var after := MovedNext(db.rows[id], update);
            Left(after) + (if update.detail.Paused? then 0 else 1) <= Left(db.rows[id])
  {
    var row := db.rows[id];
    if update.to.Blocked? && row.state.Accepted? {
      SortedIsDistinct(update.blockedBy);
      SubsetIsSmaller(Elements(update.blockedBy), Elements(row.dependencies));
    }
  }

  lemma {:induction false} MovesOnlyDependOnTheLog(a: Db, b: Db, id: OpId, n: nat)
    requires forall k :: 1 <= k <= n ==> ((id, k) in a.events <==> (id, k) in b.events)
    requires forall k :: 1 <= k <= n && (id, k) in a.events ==> a.events[(id, k)] == b.events[(id, k)]
    ensures Moves(a, id, n) == Moves(b, id, n)
  {
    if n > 0 {
      MovesOnlyDependOnTheLog(a, b, id, n - 1);
    }
  }

  lemma ApplyKeepsOrder(db: Db, id: OpId, update: Update)
    requires Orderly(db) && MayMove(db, id, update)
    ensures Orderly(Applied(db, id, update)) && Extends(db, Applied(db, id, update))
  {
    var after := Applied(db, id, update);
    ApplyIsExecute(db, id, update);
    forall other <- after.rows ensures OpOk(after, other) {
      assert OpOk(db, other);
      if other == id {
        MovedIsOk(db, id, update);
      } else {
        OtherIsOk(db, after, other);
      }
    }
  }

  lemma MovedIsOk(db: Db, id: OpId, update: Update)
    requires Orderly(db) && MayMove(db, id, update)
    ensures OpOk(Applied(db, id, update), id)
  {
    var after := Applied(db, id, update);
    var n := db.rows[id].progressSeq;
    assert OpOk(db, id) && OpChained(db, id);
    forall k | 1 <= k <= n ensures (id, k) in db.events {
      assert EventOk(db, id, k);
    }
    MovesOnlyDependOnTheLog(db, after, id, n);
    MovesUseUp(db, id, update);
  }

  lemma OtherIsOk(db: Db, after: Db, id: OpId)
    requires id in db.rows && OpOk(db, id) && Extends(db, after) && id in after.rows && after.rows[id] == db.rows[id]
    requires forall k :: (id, k) in after.events ==> (id, k) in db.events
    ensures OpOk(after, id)
  {
    MovesOnlyDependOnTheLog(db, after, id, db.rows[id].progressSeq);
  }

  lemma CreateKeepsOrder(db: Db, id: OpId, row: Row)
    requires Orderly(db) && IsNewRow(row) && Execute(db, Create(id, row)).Some?
    ensures Orderly(Execute(db, Create(id, row)).value) && Extends(db, Execute(db, Create(id, row)).value)
  {
    var after := Execute(db, Create(id, row)).value;
    ExecuteKeepsChain(db, Create(id, row));
    forall other <- after.rows ensures IsHeld(after, other) && OpOk(after, other) {
      if other == id {
        assert Moves(after, id, 1) == Moves(after, id, 0) + 1;
      } else {
        assert IsHeld(db, other) && OpOk(db, other);
        OtherIsOk(db, after, other);
      }
    }
  }

  // --------------------------------------------------------------- Whole runs

  datatype Change = NoChange | Creation(id: OpId, row: Row) | Transition(id: OpId, update: Update)

  /** One step of the ledger when all its writers keep to the rules above. */
  ghost predicate IsChange(db: Db, change: Change, after: Db) {
    match change
    case NoChange => after == db
    case Creation(id, row) => IsNewRow(row) && Execute(db, Create(id, row)) == Some(after)
    case Transition(id, update) => MayMove(db, id, update) && after == Applied(db, id, update)
  }

  ghost predicate IsHistory(run: seq<Db>, changes: seq<Change>) {
    && |run| == |changes| + 1
    && run[0] == EMPTY
    && forall i :: 0 <= i < |changes| ==> IsChange(run[i], changes[i], run[i + 1])
  }

  lemma ChangeKeepsOrder(db: Db, change: Change, after: Db)
    requires Orderly(db) && IsChange(db, change, after)
    ensures Orderly(after) && Extends(db, after)
  {
    match change
    case NoChange =>
    case Creation(id, row) => CreateKeepsOrder(db, id, row);
    case Transition(id, update) => ApplyKeepsOrder(db, id, update);
  }

  /** At every moment: logs are chained and in lifecycle order, everything past the
      dependency check has its dependencies committed, blocked rows name all that
      blocks them, and no log has more than D + 6 events that are not error notes. */
  lemma {:induction false} HistoryIsOrderly(run: seq<Db>, changes: seq<Change>, i: nat)
    requires IsHistory(run, changes) && i < |run|
    ensures Orderly(run[i])
  {
    if i > 0 {
      HistoryIsOrderly(run, changes, i - 1);
      ChangeKeepsOrder(run[i - 1], changes[i - 1], run[i]);
    }
  }

  lemma {:induction false} HistoryExtends(run: seq<Db>, changes: seq<Change>, i: nat, j: nat)
    requires IsHistory(run, changes) && i <= j < |run|
    ensures Extends(run[i], run[j])
    decreases j - i
  {
    if i < j {
      HistoryExtends(run, changes, i, j - 1);
      HistoryIsOrderly(run, changes, j - 1);
      ChangeKeepsOrder(run[j - 1], changes[j - 1], run[j]);
      ExtendsIsTransitive(run[i], run[j - 1], run[j]);
    }
  }

  /** With D distinct dependencies an operation records at most D + 6 events that are
      not error notes, whatever becomes of it. */
  lemma EventsAreBounded(run: seq<Db>, changes: seq<Change>, i: nat, id: OpId)
    requires IsHistory(run, changes) && i < |run| && id in run[i].rows
    ensures Moves(run[i], id, run[i].rows[id].progressSeq) <= |Elements(run[i].rows[id].dependencies)| + 6
  {
    HistoryIsOrderly(run, changes, i);
    assert OpOk(run[i], id);
  }

  /** What a step does to the row of `id`: nothing, or one more event. An error note
      leaves everything else alone; any other event takes the row to the next state,
      or blocks it again by strictly fewer of the operations that blocked it. */
  ghost predicate IsRowStep(before: Db, after: Db, id: OpId)
    requires id in before.rows && id in after.rows
  {
    var was, row := before.rows[id], after.rows[id];
    || row == was
    || (&& row.progressSeq == was.progressSeq + 1
        && (id, row.progressSeq) in after.events
        && var event := after.events[(id, row.progressSeq)];
           && event.fromState == Some(was.state) && event.toState == row.state
           && if event.detail.Paused? then row == was.(error := row.error, progressSeq := row.progressSeq)
              else Follows(was.state, row.state) || IsBlockedByFewer(was, row))
  }

  ghost predicate IsBlockedByFewer(was: Row, row: Row) {
    && was.state.Blocked? && row.state.Blocked?
    && (forall id <- row.blockedBy :: id in was.blockedBy)
    && |row.blockedBy| < |was.blockedBy|
  }

  lemma LifecycleIsOrdered(run: seq<Db>, changes: seq<Change>, i: nat, id: OpId)
    requires IsHistory(run, changes) && i < |changes| && id in run[i].rows
    ensures id in run[i + 1].rows && IsRowStep(run[i], run[i + 1], id)
  {
    HistoryIsOrderly(run, changes, i);
    ChangeKeepsOrder(run[i], changes[i], run[i + 1]);
    assert IsChange(run[i], changes[i], run[i + 1]);
  }

  /** The state never goes back, over any stretch of a run. */
  lemma {:induction false} RankNeverDrops(run: seq<Db>, changes: seq<Change>, i: nat, j: nat, id: OpId)
    requires IsHistory(run, changes) && i <= j < |run| && id in run[i].rows
    ensures id in run[j].rows && Rank(run[i].rows[id].state) <= Rank(run[j].rows[id].state)
    decreases j - i
  {
    if i < j {
      RankNeverDrops(run, changes, i, j - 1, id);
      LifecycleIsOrdered(run, changes, j - 1, id);
    }
  }

  predicate HasPassed(db: Db, id: OpId) {
    id in db.rows && IsPastBlocked(db.rows[id].state)
  }

  /** When an operation gets past the dependency check, all its dependencies have
      been committed before. */
  lemma DependenciesCommitFirst(run: seq<Db>, changes: seq<Change>, i: nat, id: OpId)
    requires IsHistory(run, changes) && i < |changes|
    requires !HasPassed(run[i], id) && HasPassed(run[i + 1], id)
    ensures id in run[i].rows && AllCommitted(run[i], run[i].rows[id].dependencies)
  {
    assert IsChange(run[i], changes[i], run[i + 1]);
  }

  /** A dependency that stands in the way: itself stuck, missing, or rejected. */
  predicate IsObstacle(db: Db, stuck: set<OpId>, dependency: OpId) {
    dependency in stuck || dependency !in db.rows || db.rows[dependency].state.Rejected?
  }

  ghost predicate IsStuck(db: Db, stuck: set<OpId>, id: OpId) {
    id in db.rows && exists dependency <- db.rows[id].dependencies :: IsObstacle(db, stuck, dependency)
  }

  /** A set of operations each of which depends on one of them (a cycle, say), on a
      missing one or on a rejected one: none of them ever got past the dependency check. */
  lemma {:induction false} StuckNeverPass(run: seq<Db>, changes: seq<Change>, n: nat, i: nat, stuck: set<OpId>, id: OpId)
    requires IsHistory(run, changes) && i <= n < |run| && id in stuck
    requires forall other <- stuck :: IsStuck(run[n], stuck, other)
    ensures !HasPassed(run[i], id)
    decreases i
  {
    if i > 0 {
      StuckNeverPass(run, changes, n, i - 1, stuck, id);
      if HasPassed(run[i], id) {
        DependenciesCommitFirst(run, changes, i - 1, id);
        var obstacle := ObstacleOf(run, changes, n, i - 1, stuck, id);
        assert IsCommitted(run[i - 1], obstacle);
        HistoryExtends(run, changes, i - 1, n);
        assert obstacle in stuck;
        StuckNeverPass(run, changes, n, i - 1, stuck, obstacle);
      }
    }
  }

  lemma ObstacleOf(run: seq<Db>, changes: seq<Change>, n: nat, i: nat, stuck: set<OpId>, id: OpId)
    returns (obstacle: OpId)
    requires IsHistory(run, changes) && i <= n < |run| && id in run[i].rows
    requires IsStuck(run[n], stuck, id)
    ensures obstacle in run[i].rows[id].dependencies && IsObstacle(run[n], stuck, obstacle)
  {
    HistoryExtends(run, changes, i, n);
    obstacle :| obstacle in run[n].rows[id].dependencies && IsObstacle(run[n], stuck, obstacle);
  }
}
