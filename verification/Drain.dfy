/** The coordinator's work list: `drain_pending`, `reconcile_nonterminal` and the
    `process` they call, `src/operations.rs`.

    Every await is a point where an operator may reject operations that are not in
    flight and where the call itself may fail, with its transaction applied or not.
    `faults` records the calls that failed, and which operation was in flight then.
    No operation is submitted while a drain runs. */
module Drain {
  import opened Basics
  import opened Ledger
  import opened Dependencies
  import opened Fixpoint

  /** How processing an operation can fail, as `drain_pending` tells failures apart. */
  datatype Failure = Terminal | Permanent | Recovered | Interrupted

  /** The failure of a call, with or without a recovered connection. */
  predicate IsFault(failure: Failure) {
    failure.Recovered? || failure.Interrupted?
  }

  /** A call that failed, and the operation in flight at that moment. */
  datatype Fault = Fault(during: Option<OpId>, failure: Failure)

  /** The record of failed calls after one that returned `r`. */
  function Logged<T>(faults: seq<Fault>, inFlight: Option<OpId>, r: Result<T, Failure>): seq<Fault> {
    if r.Err? && IsFault(r.error) then faults + [Fault(inFlight, r.error)] else faults
  }

  /** Every call that failed since `before` did so with `during` in flight. */
  ghost predicate FailedDuring(before: seq<Fault>, after: seq<Fault>, during: Option<OpId>) {
    before <= after && forall k :: |before| <= k < |after| ==> after[k].during == during
  }

  // ------------------------------------------------------------ What others do

  /** The row of the operation in flight is the coordinator's alone. */
  ghost predicate FlightKept(inFlight: Option<OpId>, before: Db, after: Db) {
    inFlight.Some? && inFlight.value in before.rows ==>
      inFlight.value in after.rows && after.rows[inFlight.value] == before.rows[inFlight.value]
  }

  /** Others leave a row as it is, or reject it while it is open. */
  ghost predicate Undisturbed(before: Db, after: Db, id: OpId) {
    id in before.rows ==>
      && id in after.rows
      && (after.rows[id] == before.rows[id]
          || (!before.rows[id].state.IsTerminal() && RejectedByOperator(after, id)))
  }

  /** What may happen to the ledger while the coordinator waits. */
  ghost predicate Waited(inFlight: Option<OpId>, before: Db, after: Db) {
    && Shrinks(before, after)
    && FlightKept(inFlight, before, after)
    && forall id {:trigger Undisturbed(before, after, id)} :: Undisturbed(before, after, id)
  }

  lemma WaitedIsTransitive(inFlight: Option<OpId>, a: Db, b: Db, c: Db)
    requires Waited(inFlight, a, b) && Waited(inFlight, b, c)
    ensures Waited(inFlight, a, c)
  {
    ShrinksIsTransitive(a, b, c);
    forall id ensures Undisturbed(a, c, id) {
      assert Undisturbed(a, b, id) && Undisturbed(b, c, id);
    }
  }

  /** Operators commit nothing. */
  lemma CommittedIsKept(inFlight: Option<OpId>, before: Db, after: Db)
    requires Waited(inFlight, before, after)
    ensures forall id :: IsCommitted(after, id) <==> IsCommitted(before, id)
    ensures CommittedIds(after) == CommittedIds(before)
  {
    forall id ensures IsCommitted(after, id) <==> IsCommitted(before, id) {
      assert Undisturbed(before, after, id);
    }
    forall id ensures id in CommittedIds(after) <==> id in CommittedIds(before) {
      assert IsCommitted(after, id) <==> IsCommitted(before, id);
    }
  }

  /** Whatever operators reject meanwhile, what is settled and still open is settled. */
  lemma SettledIsKept(inFlight: Option<OpId>, before: Db, after: Db, id: OpId)
    requires Waited(inFlight, before, after) && id in before.rows && Settled(before, id) && id in Open(after)
    ensures Settled(after, id)
  {
    CommittedIsKept(inFlight, before, after);
    assert Undisturbed(before, after, id);
  }

  lemma WaitedIsReflexive(inFlight: Option<OpId>, db: Db)
    ensures Waited(inFlight, db, db)
  {
  }

  /** What work on `id` may do to the ledger: other rows it leaves to the operators. */
  ghost predicate Touches(before: Db, after: Db, id: OpId) {
    && Shrinks(before, after)
    && forall other {:trigger Undisturbed(before, after, other)} :: other != id ==> Undisturbed(before, after, other)
  }

  lemma TouchesIsTransitive(a: Db, b: Db, c: Db, id: OpId)
    requires Touches(a, b, id) && Touches(b, c, id)
    ensures Touches(a, c, id)
  {
    ShrinksIsTransitive(a, b, c);
    forall other | other != id ensures Undisturbed(a, c, other) {
      assert Undisturbed(a, b, other) && Undisturbed(b, c, other);
    }
  }

  lemma TouchesIsReflexive(db: Db, id: OpId)
    ensures Touches(db, db, id)
  {
  }

  lemma AppliedTouches(inFlight: Option<OpId>, before: Db, db: Db, id: OpId, update: Update)
    requires Waited(inFlight, before, db) && id in db.rows && Shrinks(db, Applied(db, id, update))
    ensures Touches(before, Applied(db, id, update), id)
  {
    var after := Applied(db, id, update);
    ShrinksIsTransitive(before, db, after);
    forall other | other != id ensures Undisturbed(before, after, other) {
      assert Undisturbed(before, db, other);
    }
  }

  /** A row nobody but the operators changed, or that was moved by `update` alone. */
  ghost predicate IsMovedBy(before: Db, after: Db, id: OpId, update: Update) {
    id in before.rows ==>
      || Undisturbed(before, after, id)
      || (id in after.rows && after.rows[id] == MovedNext(before.rows[id], update))
  }

  /** A row nobody but the operators changed, or that got an error note it did not show
      already and is otherwise as it was. */
  ghost predicate IsNotedAtMost(before: Db, after: Db, id: OpId, message: string) {
    id in before.rows ==>
      || Undisturbed(before, after, id)
      || (id in after.rows
          && var row := before.rows[id];
             && row.error != Some(message)
             && after.rows[id] == row.(error := Some(message), progressSeq := row.progressSeq + 1))
  }

  function ByOperatorUpdate(reason: string): Update {
    Update(Rejected, [], None, Some(reason), ByOperator(reason))
  }

  function ToRejected(message: string): Update {
    Update(Rejected, [], None, Some(message), PermanentFailure(message))
  }

  /** A rejection that took effect after all is the last word; otherwise there is at
      most a note. */
  lemma RejectionOrNote(before: Db, sent: Db, after: Db, id: OpId, message: string)
    requires Shrinks(before, sent) && Shrinks(sent, after)
    requires IsMovedBy(before, sent, id, ToRejected(message)) && IsNotedAtMost(sent, after, id, message)
    ensures IsNotedAtMost(before, after, id, message) || IsMovedBy(before, after, id, ToRejected(message))
  {
  }

  lemma OperatorRejects(fate: Fate, start: Db, inFlight: Option<OpId>, db: Db, id: OpId, reason: string)
    requires Justified(fate, start, db) && inFlight != Some(id)
    requires id in db.rows && !db.rows[id].state.IsTerminal()
    ensures Justified(fate, start, Applied(db, id, ByOperatorUpdate(reason)))
    ensures Waited(inFlight, db, Applied(db, id, ByOperatorUpdate(reason)))
  {
    hide Grounded, IsTracked, Healthy, Extends;
    ApplyKeepsJustified(fate, start, db, id, ByOperatorUpdate(reason));
    hide Justified;
  }

  /** The transaction of an update read from `read` either finds its row as read, and
      is then what `Applied` says, or the row was rejected and it aborts. */
  lemma SentUpdate(read: Db, db: Db, id: OpId, update: Update)
    requires Healthy(read) && MayApply(read, id, update)
    requires Healthy(db) && Shrinks(read, db) && Undisturbed(read, db, id)
    ensures var done := Execute(db, Issue(read, id, update).value);
            && (done.Some? <==> db.rows[id] == read.rows[id])
            && (done.Some? ==> done.value == Applied(db, id, update) && MayApply(db, id, update))
  {
    var txn := Issue(read, id, update).value;
    IssuedIsOk(read, id, update);
    TxnOkIsStable(read, db, txn);
    OnlyTheNextNumberIsFree(db, txn);
    if db.rows[id] == read.rows[id] && IsPastBlocked(update.to) {
      AllCommittedIsStable(read, db, read.rows[id].dependencies);
    }
  }

  lemma AllowedIsStable(fate: Fate, read: Db, db: Db, id: OpId, update: Update)
    requires MayApply(read, id, update) && Allowed(fate, read, id, update)
    requires Shrinks(read, db) && Undisturbed(read, db, id) && !db.rows[id].state.IsTerminal()
    ensures MayApply(db, id, update) && Allowed(fate, db, id, update) && db.rows[id] == read.rows[id]
  {
    if IsPastBlocked(update.to) {
      AllCommittedIsStable(read, db, read.rows[id].dependencies);
    }
  }

  /** The uncommitted ones among `ids`, in any order. */
  ghost predicate AreUncommitted(db: Db, ids: seq<OpId>, blockers: seq<OpId>) {
    forall id {:trigger id in blockers} :: id in blockers <==> id in ids && !IsCommitted(db, id)
  }

  lemma BlockersGrow(inFlight: Option<OpId>, before: Db, now: Db, ids: seq<OpId>, i: nat, blockers: seq<OpId>)
    requires i < |ids| && AreUncommitted(before, ids[..i], blockers) && Waited(inFlight, before, now)
    ensures AreUncommitted(now, ids[..i + 1], if IsCommitted(now, ids[i]) then blockers else blockers + [ids[i]])
  {
    CommittedIsKept(inFlight, before, now);
    assert ids[..i + 1] == ids[..i] + [ids[i]];
  }

  lemma BlockersAreSorted(db: Db, ids: seq<OpId>, blockers: seq<OpId>)
    requires AreUncommitted(db, ids[..|ids|], blockers)
    ensures AreBlockers(db, ids, SortDedup(blockers))
  {
    assert ids[..|ids|] == ids;
    SortDedupIs(blockers);
  }

  /** `id` is in flight and past the dependency check, but not committed. */
  ghost predicate IsWorkedOn(inFlight: Option<OpId>, db: Db, id: OpId) {
    inFlight == Some(id) && id in db.rows && IsPastBlocked(db.rows[id].state) && !db.rows[id].state.Committed?
  }

  /** `id` is in flight and scheduled, but not committed. */
  ghost predicate IsScheduled(inFlight: Option<OpId>, db: Db, id: OpId) {
    inFlight == Some(id) && id in db.rows && (db.rows[id].state.Processing? || db.rows[id].state.Indexed?)
  }

  lemma PastBlockedMayMove(fate: Fate, db: Db, id: OpId, update: Update)
    requires Healthy(db) && IsWorkedOn(Some(id), db, id)
    requires Follows(db.rows[id].state, update.to) && !update.to.Rejected? && (update.to.Committed? ==> fate.works(id))
    ensures MayApply(db, id, update) && Allowed(fate, db, id, update)
  {
    assert IsHeld(db, id);
  }

  lemma HeldUnlessUnchecked(db: Db, id: OpId)
    requires Healthy(db) && id in Open(db)
    ensures NeedsCheck(db.rows[id].state) || AllCommitted(db, db.rows[id].dependencies)
  {
    assert IsHeld(db, id);
  }

  /** What becomes of an operation past the dependency check that is worked on to the end. */
  ghost predicate IsWorkDone(fate: Fate, after: Db, id: OpId, r: Result<(), Failure>) {
    && id in after.rows
    && if fate.works(id) then r.Ok? && after.rows[id].state.Committed?
       else r == Err(Permanent) && !after.rows[id].state.IsTerminal()
  }

  ghost predicate IsUnblockedDone(fate: Fate, before: Db, after: Db, id: OpId, r: Result<(), Failure>)
    requires id in before.rows
  {
    if NeedsCheck(before.rows[id].state) && !before.rows[id].payload.IsValid() then
      id in after.rows && after.rows[id].state.Rejected? && r.Ok?
    else
      IsWorkDone(fate, after, id, r)
  }

  /** What `process` does to an operation in flight when none of its calls fails. */
  ghost predicate IsProcessed(fate: Fate, before: Db, after: Db, id: OpId, r: Result<(), Failure>) {
    if id !in Open(before) then r.Ok? && (id in before.rows ==> id in after.rows && after.rows[id] == before.rows[id])
    else if AllCommitted(before, before.rows[id].dependencies) then IsUnblockedDone(fate, before, after, id, r)
    else r.Ok? && id in after.rows && Settled(after, id)
  }

  /** `process` came to an end: it succeeded or found that it never will. */
  predicate IsAnswered(r: Result<(), Failure>) {
    r.Ok? || r.error.Permanent?
  }

  /** What operators do before the rest of `process` makes no difference to it. */
  lemma ProcessedFromBefore(
    fate: Fate, inFlight: Option<OpId>, before: Db, read: Db, after: Db, id: OpId, r: Result<(), Failure>
  )
    requires Waited(inFlight, before, read) && inFlight == Some(id) && id in read.rows
    ensures IsProcessed(fate, read, after, id, r) ==> IsProcessed(fate, before, after, id, r)
  {
    CommittedIsKept(inFlight, before, read);
    assert Undisturbed(before, read, id);
  }

  lemma BlockedIsSettled(before: Db, after: Db, id: OpId, blockers: seq<OpId>)
    requires id in before.rows && Touches(before, after, id) && id in after.rows
    requires before.rows[id].dependencies == after.rows[id].dependencies
    requires after.rows[id].state.Blocked? && after.rows[id].blockedBy == blockers && !before.rows[id].state.Committed?
    requires AreBlockers(before, before.rows[id].dependencies, blockers) && blockers != []
    ensures Settled(after, id)
  {
    forall other ensures IsCommitted(after, other) <==> IsCommitted(before, other) {
      assert other != id ==> Undisturbed(before, after, other);
    }
  }

  lemma NoteMayApply(fate: Fate, db: Db, id: OpId, note: Update)
    requires Healthy(db) && id in Open(db) && note.to == db.rows[id].state && note.detail.Paused?
    ensures MayApply(db, id, note) && Allowed(fate, db, id, note)
  {
    HeldUnlessUnchecked(db, id);
  }

  /** How the inner loop of `drain_pending` goes on with an operation. */
  datatype Handled = Finished(committedNow: bool) | Refused | Interruption(recovered: bool)

  /** An interruption that puts the operation back into the queue. */
  predicate IsRetried(handled: Handled, mayRetry: bool) {
    handled.Interruption? && handled.recovered && mayRetry
  }

  /** What failed while `id` was handled: its processing, exactly if it was interrupted,
      and in the same way; whatever else failed did so with nothing in flight. */
  ghost predicate IsTurn(before: seq<Fault>, after: seq<Fault>, id: OpId, handled: Handled, sure: bool) {
    && before <= after
    && (!sure ==> |before| < |after|)
    && if handled.Interruption? then
         && !sure
         && |before| < |after|
         && after[|before|] == Fault(Some(id), if handled.recovered then Recovered else Interrupted)
         && forall k :: |before| < k < |after| ==> after[k].during.None?
       else
         FailedDuring(before, after, None)
  }

  /** The operations whose processing ran into a connection that was lost and recovered. */
  ghost function RecoveredIds(faults: seq<Fault>): set<OpId> {
    set fault <- faults | fault.during.Some? && fault.failure.Recovered? :: fault.during.value
  }

  /** Nothing failed but one try for each of some operations, with a recovered connection. */
  ghost predicate AreRecoveries(faults: seq<Fault>) {
    && (forall k :: 0 <= k < |faults| ==> faults[k].during.Some? && faults[k].failure.Recovered?)
    && forall j, k :: 0 <= j < k < |faults| ==> faults[j].during != faults[k].during
  }

  /** Nothing failed but the processing of operations. */
  ghost predicate AreProcessing(faults: seq<Fault>) {
    forall k :: 0 <= k < |faults| ==> faults[k].during.Some?
  }

  /** Whatever was left after an interruption and is still open has an error note. */
  ghost predicate AreNoted(db: Db, paused: set<OpId>) {
    forall id <- paused :: id in Open(db) ==> db.rows[id].error.Some?
  }

  lemma TurnRecovers(before: seq<Fault>, after: seq<Fault>, id: OpId, handled: Handled, sure: bool)
    requires IsTurn(before, after, id, handled, sure)
    ensures RecoveredIds(after) == RecoveredIds(before) + if handled == Interruption(true) then {id} else {}
  {
  }

  lemma TurnIsHarmless(before: seq<Fault>, after: seq<Fault>, id: OpId, handled: Handled, sure: bool)
    requires IsTurn(before, after, id, handled, sure) && AreRecoveries(after)
    ensures AreRecoveries(before)
    ensures sure || (handled == Interruption(true) && id !in RecoveredIds(before))
  {
    if !sure {
      var last := |before|;
      assert after[last].during.Some?;
      assert forall k :: 0 <= k < last ==> after[k] == before[k] && after[k].during != after[last].during;
    }
  }

  lemma TurnIsProcessing(before: seq<Fault>, after: seq<Fault>, id: OpId, handled: Handled, sure: bool)
    requires IsTurn(before, after, id, handled, sure) && AreProcessing(after)
    ensures AreProcessing(before)
    ensures sure || (handled.Interruption? && |after| == |before| + 1)
  {
    hide AreProcessing;
    ProcessingBegan(before, after);
    if !sure {
      ProcessingAt(after, |before|);
      if |before| + 1 < |after| {
        ProcessingAt(after, |before| + 1);
      }
    }
  }

  lemma ProcessingAt(faults: seq<Fault>, k: nat)
    requires AreProcessing(faults) && k < |faults|
    ensures faults[k].during.Some?
  {
  }

  lemma ProcessingBegan(before: seq<Fault>, after: seq<Fault>)
    requires AreProcessing(after) && before <= after
    ensures AreProcessing(before)
  {
  }

  lemma TouchesKeepsNotes(before: Db, after: Db, id: OpId, paused: set<OpId>)
    requires Touches(before, after, id) && AreNoted(before, paused)
    ensures AreNoted(after, paused - {id})
  {
    OpenShrinks(before, after);
    forall other <- paused - {id} ensures other in Open(after) ==> after.rows[other].error.Some? {
      assert Undisturbed(before, after, other);
    }
  }

  lemma OutsideRecoversNothing(before: seq<Fault>, after: seq<Fault>)
    requires FailedDuring(before, after, None)
    ensures RecoveredIds(after) == RecoveredIds(before)
    ensures AreProcessing(after) ==> after == before
    ensures AreRecoveries(after) ==> AreProcessing(after)
  {
    assert |before| < |after| ==> after[|before|].during.None?;
  }

  lemma NothingIsNoted(db: Db)
    ensures AreNoted(db, {})
  {
  }

  /** After a turn that put `id` back if it was to be retried. */
  function PausedAfter(paused: set<OpId>, id: OpId, mayRetry: bool, handled: Handled, sure: bool): set<OpId> {
    if sure || IsRetried(handled, mayRetry) then paused - {id} else paused + {id}
  }

  /** After a turn the operation is queued or left unless its outcome is known, and
      nothing else was lost. */
  lemma NothingIsLost(rest: seq<OpId>, paused: set<OpId>, id: OpId, mayRetry: bool, handled: Handled, sure: bool)
    ensures var queue := if IsRetried(handled, mayRetry) then rest + [id] else rest;
            var left := Elements(queue) + PausedAfter(paused, id, mayRetry, handled, sure);
            Elements([id] + rest) + paused <= left + {id} && (id in left || sure)
  {
    assert IsRetried(handled, mayRetry) ==> (rest + [id])[|rest|] == id;
    forall other <- Elements([id] + rest) ensures other == id || other in Elements(rest) {
    }
  }

  lemma TurnIsRecorded(
    wasFaults: seq<Fault>, faults: seq<Fault>, before: Db, after: Db, id: OpId, mayRetry: bool, handled: Handled,
    sure: bool, paused: set<OpId>
  )
    requires IsTurn(wasFaults, faults, id, handled, sure) && Touches(before, after, id)
    requires mayRetry == (id !in RecoveredIds(wasFaults))
    requires AreRecoveries(wasFaults) ==> paused == {}
    requires AreProcessing(wasFaults) ==> AreNoted(before, paused)
    requires handled.Interruption? && !IsRetried(handled, mayRetry)
             && |faults| == |wasFaults| + 1 && id in Open(after) ==>
               after.rows[id].error.Some?
    ensures RecoveredIds(faults) == RecoveredIds(wasFaults) + if handled == Interruption(true) then {id} else {}
    ensures AreRecoveries(faults) ==> PausedAfter(paused, id, mayRetry, handled, sure) == {}
    ensures AreProcessing(faults) ==> AreNoted(after, PausedAfter(paused, id, mayRetry, handled, sure))
  {
    TurnRecovers(wasFaults, faults, id, handled, sure);
    if AreRecoveries(faults) {
      TurnIsHarmless(wasFaults, faults, id, handled, sure);
    }
    if AreProcessing(faults) {
      TurnIsProcessing(wasFaults, faults, id, handled, sure);
      TouchesKeepsNotes(before, after, id, paused);
    }
  }

  /** What handling an operation comes to when its calls are answered. */
  ghost predicate IsHandled(after: Db, id: OpId, handled: Handled) {
    && (handled == Finished(true) <==> IsCommitted(after, id))
    && (id in Open(after) ==> Settled(after, id))
  }

  lemma ProcessedIsHandled(fate: Fate, before: Db, done: Db, after: Db, id: OpId, r: Result<(), Failure>)
    requires r.Ok? && IsProcessed(fate, before, done, id, r) && Waited(None, done, after)
    requires Shrinks(before, done)
    ensures IsHandled(after, id, Finished(IsCommitted(after, id)))
  {
    if id in Open(after) {
      OpenShrinks(done, after);
      OpenShrinks(before, done);
      SettledIsKept(None, done, after, id);
    }
  }

  // -------------------------------------------------------------- The work list

  /** The states `list_nonterminal_ids` asks for, one query each. */
  const NONTERMINAL: seq<State> := [Accepted, Validated, Blocked, Planned, Processing, Indexed]

  ghost predicate IsDistinct(ids: seq<OpId>) {
    forall i, j :: 0 <= i < j < |ids| ==> ids[i] != ids[j]
  }

  /** `pending` and `queued` hold the same ids, each once. */
  ghost predicate IsQueue(pending: seq<OpId>, queued: set<OpId>) {
    IsDistinct(pending) && queued == Elements(pending)
  }

  lemma EmptyIsQueue()
    ensures IsQueue([], {})
  {
  }

  lemma PopKeepsQueue(pending: seq<OpId>, queued: set<OpId>)
    requires pending != [] && queued <= Elements(pending)
    ensures Elements(pending[1..]) <= Elements(pending)
    ensures queued - {pending[0]} <= Elements(pending[1..])
    ensures IsQueue(pending, queued) ==> IsQueue(pending[1..], queued - {pending[0]})
  {
    assert pending == [pending[0]] + pending[1..];
  }

  lemma PushKeepsQueue(pending: seq<OpId>, queued: set<OpId>, id: OpId)
    requires queued <= Elements(pending) && id !in queued
    ensures Elements(pending + [id]) == Elements(pending) + {id}
    ensures IsQueue(pending, queued) ==> IsQueue(pending + [id], queued + {id})
  {
  }

  /** Every open operation is still to be handled or already settled. */
  ghost predicate Covered(db: Db, todo: set<OpId>) {
    forall id {:trigger Settled(db, id)} {:trigger id in todo} | id in Open(db) :: id in todo || Settled(db, id)
  }

  ghost predicate AnyCommitted(db: Db, ids: seq<OpId>) {
    exists id :: id in ids && IsCommitted(db, id)
  }

  lemma AnyCommittedIsStable(before: Db, after: Db, ids: seq<OpId>)
    requires Shrinks(before, after)
    ensures AnyCommitted(before, ids) ==> AnyCommitted(after, ids)
  {
    if AnyCommitted(before, ids) {
      var id :| id in ids && IsCommitted(before, id);
      assert IsCommitted(after, id);
    }
  }

  /** In the middle of a wave that began in `first`, with `todo` the operations queued
      or left after an interruption: unless a commit was noticed, only they may have
      committed, and if none did, what was covered still is. */
  ghost predicate IsWave(first: Db, db: Db, initial: set<OpId>, todo: set<OpId>, rescan: bool) {
    !rescan ==>
      && CommittedIds(db) - CommittedIds(first) <= todo
      && (CommittedIds(db) == CommittedIds(first) && Covered(first, initial) ==> Covered(db, todo))
  }

  /** Work on `id` goes on with the wave if `id` stays to be done or was handled. */
  lemma HandledKeepsWave(
    first: Db, before: Db, after: Db, initial: set<OpId>, todo: set<OpId>, left: set<OpId>, rescan: bool, id: OpId,
    handled: Handled
  )
    requires Shrinks(first, before) && Touches(before, after, id)
    requires IsWave(first, before, initial, todo, rescan)
    requires todo <= left + {id} && (id in left || IsHandled(after, id, handled))
    ensures IsWave(first, after, initial, left, rescan || handled == Finished(true))
  {
    if !rescan && handled != Finished(true) {
      NewCommitsAreLeft(first, before, after, todo, left, id);
      if CommittedIds(after) == CommittedIds(first) && Covered(first, initial) {
        OpenShrinks(first, before);
        OpenShrinks(before, after);
        assert CommittedIds(before) == CommittedIds(after);
        forall other | other in Open(after) ensures other in left || Settled(after, other) {
          if other != id {
            assert other in todo || Settled(before, other);
            SettledElsewhere(before, after, id, other);
          }
        }
      }
    }
  }

  lemma NewCommitsAreLeft(first: Db, before: Db, after: Db, todo: set<OpId>, left: set<OpId>, id: OpId)
    requires Touches(before, after, id)
    requires CommittedIds(before) - CommittedIds(first) <= todo
    requires todo <= left + {id} && (id in left || !IsCommitted(after, id))
    ensures CommittedIds(after) - CommittedIds(first) <= left
  {
    forall other | other in CommittedIds(after) - CommittedIds(first) ensures other in left {
      if other == id {
        assert IsCommitted(after, id);
      } else {
        assert other in before.rows && Undisturbed(before, after, other);
        assert other in CommittedIds(before) - CommittedIds(first);
      }
    }
  }

  /** Work on one operation that commits nothing leaves the others settled. */
  lemma SettledElsewhere(before: Db, after: Db, id: OpId, other: OpId)
    requires Touches(before, after, id) && CommittedIds(before) == CommittedIds(after)
    requires other != id && other in Open(after) && other in before.rows
    ensures Settled(before, other) ==> Settled(after, other)
  {
    assert Undisturbed(before, after, other);
    forall dependency ensures IsCommitted(after, dependency) <==> IsCommitted(before, dependency) {
      assert dependency in CommittedIds(after) <==> dependency in CommittedIds(before);
    }
  }

  lemma WaveBegins(first: Db, initial: seq<OpId>)
    ensures IsWave(first, first, Elements(initial), Elements(initial), false)
    ensures Elements(initial) + {} == Elements(initial)
  {
  }

  ghost predicate IsDescending(counts: seq<nat>) {
    forall i, j :: 0 <= i < j < |counts| ==> counts[i] > counts[j]
  }

  /** How many rescans may still follow. */
  ghost function Ahead(start: Db, rescans: seq<nat>): nat {
    if rescans == [] then |Open(start)| + 1 else rescans[|rescans| - 1]
  }

  /** The rescans so far, the last of which found the ledger as `wave` and queued
      only operations that were open then. */
  ghost predicate AreRescans(start: Db, rescans: seq<nat>, wave: Db, db: Db, pending: seq<OpId>) {
    && Shrinks(start, wave) && Shrinks(wave, db)
    && IsDescending(rescans)
    && (forall i :: 0 <= i < |rescans| ==> rescans[i] <= |Open(start)|)
    && (rescans != [] ==> rescans[|rescans| - 1] == |Open(wave)| && Elements(pending) <= Open(wave))
  }

  /** A wave that committed something it queued leaves fewer operations open. */
  lemma WaveCounts(start: Db, rescans: seq<nat>, wave: Db, before: Db, db: Db, pending: seq<OpId>)
    requires AreRescans(start, rescans, wave, before, pending) && Shrinks(before, db)
    requires AnyCommitted(db, pending)
    ensures |Open(db)| < Ahead(start, rescans) && |Open(db)| <= |Open(start)|
    ensures Shrinks(start, db)
  {
    ShrinksIsTransitive(start, wave, before);
    ShrinksIsTransitive(start, before, db);
    ShrinksIsTransitive(wave, before, db);
    OpenShrinks(start, db);
    SubsetIsSmaller(Open(db), Open(start));
    if rescans != [] {
      var id :| id in pending && IsCommitted(db, id);
      assert id in Elements(pending);
      OpenShrinks(wave, db);
      SubsetIsSmaller(Open(db), Open(wave));
    }
  }

  /** A wave that committed something is followed by a rescan, which counts lower. */
  lemma RescanAdded(
    start: Db, rescans: seq<nat>, wave: Db, before: Db, after: Db, db: Db, pending: seq<OpId>, queue: seq<OpId>
  )
    requires AreRescans(start, rescans, wave, before, pending) && Shrinks(before, after)
    requires AnyCommitted(after, pending)
    requires Shrinks(after, db) && Elements(queue) <= Open(after)
    ensures |Open(after)| < Ahead(start, rescans)
    ensures AreRescans(start, rescans + [|Open(after)|], after, db, queue)
  {
    hide Extends, Open, Elements, AnyCommitted;
    WaveCounts(start, rescans, wave, before, after, pending);
  }

  /** Between two waves: the queue covers every open operation, if it did at first or
      if there was a rescan; and without a rescan nothing was committed. */
  ghost predicate IsBetweenWaves(start: Db, rescans: seq<nat>, db: Db, initial: seq<OpId>, todo: set<OpId>) {
    && (rescans != [] || Open(start) <= Elements(initial) ==> Covered(db, todo))
    && (rescans == [] ==> CommittedIds(db) == CommittedIds(start))
  }

  /** Part of a listing that began in `before`: the ids found for the first `i` states. */
  ghost predicate IsListing(before: Db, now: Db, i: nat, ids: seq<OpId>)
    requires i <= |NONTERMINAL|
  {
    && Elements(ids) <= Open(before)
    && forall id {:trigger id in ids} | id in Open(now) :: now.rows[id].state in NONTERMINAL[..i] ==> id in ids
  }

  lemma ListingGrows(
    inFlight: Option<OpId>, before: Db, mid: Db, now: Db, i: nat, ids: seq<OpId>, found: seq<OpId>
  )
    requires i < |NONTERMINAL| && IsListing(before, mid, i, ids)
    requires Waited(inFlight, before, now) && Waited(inFlight, mid, now)
    requires forall id :: id in found <==> id in now.rows && now.rows[id].state == NONTERMINAL[i]
    ensures IsListing(before, now, i + 1, ids + found)
  {
    OpenShrinks(before, now);
    OpenShrinks(mid, now);
    forall id | id in Open(now) && now.rows[id].state in NONTERMINAL[..i + 1] ensures id in ids + found {
      assert Undisturbed(mid, now, id);
      assert NONTERMINAL[..i + 1] == NONTERMINAL[..i] + [NONTERMINAL[i]];
    }
    forall id <- found ensures id in Open(now) {
    }
  }

  lemma IsListed(state: State)
    requires !state.IsTerminal()
    ensures state in NONTERMINAL[..|NONTERMINAL|]
  {
    assert NONTERMINAL[..|NONTERMINAL|] == NONTERMINAL;
    assert state == NONTERMINAL[0] || state == NONTERMINAL[1] || state == NONTERMINAL[2]
           || state == NONTERMINAL[3] || state == NONTERMINAL[4] || state == NONTERMINAL[5];
  }

  lemma ListingIsSorted(before: Db, now: Db, ids: seq<OpId>)
    requires IsListing(before, now, |NONTERMINAL|, ids)
    ensures StrictlySorted(SortDedup(ids)) && Open(now) <= Elements(SortDedup(ids)) <= Open(before)
  {
    SortDedupIs(ids);
    forall id <- SortDedup(ids) ensures id in Open(before) {
      assert id in Elements(ids);
    }
    forall id | id in Open(now) ensures id in SortDedup(ids) {
      IsListed(now.rows[id].state);
    }
  }

  lemma WaveRanOut(start: Db, rescans: seq<nat>, before: Db, db: Db, initial: seq<OpId>, pending: seq<OpId>)
    requires IsBetweenWaves(start, rescans, before, initial, Elements(pending))
    requires IsWave(before, db, Elements(pending), {}, false) && Shrinks(before, db)
    ensures IsBetweenWaves(start, rescans, db, initial, {})
  {
    OpenShrinks(before, db);
    assert CommittedIds(db) <= CommittedIds(before) + (CommittedIds(db) - CommittedIds(before));
    assert CommittedIds(db) == CommittedIds(before);
  }

  lemma RescanCovers(start: Db, rescans: seq<nat>, db: Db, initial: seq<OpId>, listed: seq<OpId>)
    requires rescans != [] && Open(db) <= Elements(listed)
    ensures IsBetweenWaves(start, rescans, db, initial, Elements(listed))
  {
  }

  lemma TurnedBack(
    start: Db, rescans: seq<nat>, wave: Db, before: Db, after: Db, db: Db, initial: seq<OpId>,
    pending: seq<OpId>, queue: seq<OpId>, listed: bool
  )
    requires AreRescans(start, rescans, wave, before, pending) && Shrinks(before, after)
    requires AnyCommitted(after, pending)
    requires Shrinks(after, db) && Elements(queue) <= Open(after)
    requires listed ==> Open(db) <= Elements(queue)
    ensures var more := rescans + [|Open(after)|];
            && Ahead(start, more) < Ahead(start, rescans)
            && AreRescans(start, more, after, db, queue)
            && (listed ==> IsBetweenWaves(start, more, db, initial, Elements(queue)))
  {
    hide AreRescans, Shrinks, Open, Elements, IsBetweenWaves, AnyCommitted;
    RescanAdded(start, rescans, wave, before, after, db, pending, queue);
    if listed {
      RescanCovers(start, rescans + [|Open(after)|], db, initial, queue);
    }
  }

  lemma RanOut(
    start: Db, rescans: seq<nat>, wave: Db, before: Db, db: Db, initial: seq<OpId>, pending: seq<OpId>,
    paused: set<OpId>
  )
    requires AreRescans(start, rescans, wave, before, pending) && Shrinks(before, db)
    requires IsBetweenWaves(start, rescans, before, initial, Elements(pending))
    requires IsWave(before, db, Elements(pending), paused, false)
    ensures AreRescans(start, rescans, wave, db, [])
    ensures paused == {} ==> IsBetweenWaves(start, rescans, db, initial, {})
  {
    ShrinksIsTransitive(wave, before, db);
    if paused == {} {
      WaveRanOut(start, rescans, before, db, initial, pending);
    }
  }

  lemma StartIsBetweenWaves(start: Db, initial: seq<OpId>)
    ensures IsBetweenWaves(start, [], start, initial, Elements(initial))
    ensures AreRescans(start, [], start, start, initial)
  {
  }

  /** When the work list ran out with nothing left after an interruption. */
  lemma LeastFixpointReached(fate: Fate, start: Db, rescans: seq<nat>, db: Db, initial: seq<OpId>)
    requires Justified(fate, start, db) && IsBetweenWaves(start, rescans, db, initial, {})
    requires Open(start) <= Elements(initial) || CommittedIds(db) != CommittedIds(start)
    ensures AllSettled(db) && IsLeastFixpoint(fate, start, db)
  {
    SettledIsLeastFixpoint(fate, start, db);
  }

  /** What operators reject before the drain begins is withheld from it just the same. */
  lemma FixpointFromBefore(fate: Fate, inFlight: Option<OpId>, before: Db, start: Db, db: Db)
    requires Waited(inFlight, before, start) && Shrinks(start, db) && IsLeastFixpoint(fate, start, db)
    ensures IsLeastFixpoint(fate, before, db)
  {
    CommittedIsKept(inFlight, before, start);
    forall x: set<OpId>
      ensures Closed(fate, before, Withheld(db), x) <==> Closed(fate, start, Withheld(db), x)
    {
      SameClosure(fate, inFlight, before, start, db, x);
    }
  }

  lemma SameClosure(fate: Fate, inFlight: Option<OpId>, before: Db, start: Db, db: Db, x: set<OpId>)
    requires Waited(inFlight, before, start) && Shrinks(start, db)
    requires CommittedIds(start) == CommittedIds(before)
    ensures Closed(fate, before, Withheld(db), x) <==> Closed(fate, start, Withheld(db), x)
  {
    OpenShrinks(before, start);
    forall id | id in Open(before) && id !in Withheld(db)
      ensures id in Open(start) && start.rows[id] == before.rows[id]
    {
      assert Undisturbed(before, start, id);
    }
    forall id | id in Open(start)
      ensures id in Open(before) && start.rows[id] == before.rows[id]
      ensures Succeeds(fate, start, id) <==> Succeeds(fate, before, id)
    {
      assert Undisturbed(before, start, id);
    }
  }

  lemma Reconciled(fate: Fate, before: Db, start: Db, db: Db, reached: bool)
    requires Waited(None, before, start) && Shrinks(start, db)
    requires reached ==> IsLeastFixpoint(fate, start, db)
    ensures Shrinks(before, db)
    ensures reached ==> IsLeastFixpoint(fate, before, db)
  {
    ShrinksIsTransitive(before, start, db);
    if reached {
      FixpointFromBefore(fate, None, before, start, db);
    }
  }

  lemma SortedIsCounted(ids: seq<OpId>, least: set<OpId>, most: set<OpId>)
    requires StrictlySorted(ids) && least <= Elements(ids) <= most
    ensures |least| <= |ids| <= |most|
  {
    SortedIsDistinct(ids);
    SubsetIsSmaller(least, Elements(ids));
    SubsetIsSmaller(Elements(ids), most);
  }

  class OperationService {
    var db: Db
    var inFlight: Option<OpId>
    const fate: Fate
    /** The ledger when the current drain began. */
    ghost var start: Db
    /** The calls of the current drain that failed. */
    ghost var faults: seq<Fault>
    /** The operations whose last handling was interrupted, neither handled again nor
        found by a rescan since. */
    ghost var paused: set<OpId>
    /** Every listing of the current drain was answered. */
    ghost var listed: bool
    /** How many operations were open at each rescan of the current drain. */
    ghost var rescans: seq<nat>
    /** The operations put back into the queue after an interruption. */
    ghost var requeued: seq<OpId>

    constructor (db: Db, fate: Fate)
      requires Healthy(db)
      ensures Valid() && this.db == db && this.fate == fate && inFlight == None
    {
      this.db, this.inFlight, this.fate := db, None, fate;
      start, faults, paused, listed, rescans, requeued := db, [], {}, true, [], [];
    }

    ghost predicate Valid()
      reads `db, `start
    {
      Justified(fate, start, db)
    }

    /** `reject`, called by an operator: refused for the operation in flight, for a
        terminal one and for one whose memory is already stored. */
    method Reject(id: OpId, reason: string)
      requires Valid()
      modifies `db
      ensures Valid() && Waited(inFlight, old(db), db)
    {
      var stored: bool := *;
      var rejectable := id in db.rows && !db.rows[id].state.IsTerminal() && !db.rows[id].state.Indexed?;
      WaitedIsReflexive(inFlight, db);
      if inFlight != Some(id) && rejectable && !stored {
        OperatorRejects(fate, start, inFlight, db, id, reason);
        db := Applied(db, id, ByOperatorUpdate(reason));
      }
    }

    /** Whatever operators do while the coordinator waits. */
    method Interfere()
      requires Valid()
      modifies `db
      ensures Valid() && Waited(inFlight, old(db), db)
    {
      hide Justified, Waited;
      WaitedIsReflexive(inFlight, db);
      var n: nat := *;
      while n > 0
        invariant Valid() && Waited(inFlight, old(db), db)
      {
        var id: nat := *;
        var reason: string := *;
        ghost var before := db;
        Reject(id, reason);
        WaitedIsTransitive(inFlight, old(db), before, db);
        n := n - 1;
      }
    }

    /** An await that others may use and that may not come back with an answer. */
    method Await() returns (r: Result<(), Failure>)
      requires Valid()
      modifies `db, `faults
      ensures Valid() && Waited(inFlight, old(db), db)
      ensures faults == Logged(old(faults), inFlight, r) && (r.Err? ==> IsFault(r.error))
    {
      hide Justified, Waited;
      Interfere();
      var fails: bool := *;
      var recovered: bool := *;
      r := if fails then Err(if recovered then Recovered else Interrupted) else Ok(());
      faults := Logged(faults, inFlight, r);
    }

    /** `get` */
    method Get(id: OpId) returns (r: Result<Option<Row>, Failure>)
      requires Valid()
      modifies `db, `faults
      ensures Valid() && Waited(inFlight, old(db), db)
      ensures faults == Logged(old(faults), inFlight, r) && (r.Err? ==> IsFault(r.error))
      ensures r.Ok? ==> r.value == if id in db.rows then Some(db.rows[id]) else None
    {
      hide Justified, Waited;
      var _ :- Await();
      r := Ok(if id in db.rows then Some(db.rows[id]) else None);
    }

    /** The second half of `transition`: one transaction, which commits only if nobody
        else wrote the event it numbered. Its answer may be lost either way. */
    method Send(txn: Txn, ghost id: OpId, ghost update: Update) returns (r: Result<(), Failure>)
      requires Valid() && MayApply(db, id, update) && Allowed(fate, db, id, update)
      requires Issue(db, id, update) == Ok(txn)
      modifies `db, `faults
      ensures Valid() && Touches(old(db), db, id) && IsMovedBy(old(db), db, id, update)
      ensures r.Ok? ==> db.rows[id] == MovedNext(old(db).rows[id], update)
      ensures faults == Logged(old(faults), inFlight, r) || (faults == old(faults) && RejectedByOperator(db, id))
      ensures r.Err? ==> IsFault(r.error)
      ensures inFlight == Some(id) ==> db.rows[id] in {old(db).rows[id], MovedNext(old(db).rows[id], update)}
      ensures inFlight == Some(id) ==> faults == Logged(old(faults), inFlight, r)
    {
      hide Extends;
      Interfere();
      assert Undisturbed(old(db), db, id);
      SentUpdate(old(db), db, id, update);
      var done := Execute(db, txn);
      var applied: bool := *;
      var recovered: bool := *;
      if done.Some? && applied {
        ApplyKeepsJustified(fate, start, db, id, update);
        AppliedTouches(inFlight, old(db), db, id, update);
        db := done.value;
        var answered: bool := *;
        if answered {
          return Ok(());
        }
      }
      r := Err(if recovered then Recovered else Interrupted);
      if done.Some? {
        faults := Logged(faults, inFlight, r);
      }
    }

    /** `transition`: read the row, refuse a terminal one, and send the update. Without
        a fault it only fails for a row that was or was made terminal. */
    method Transition(id: OpId, update: Update) returns (r: Result<(), Failure>)
      requires Valid() && id in db.rows
      requires !db.rows[id].state.IsTerminal() ==> MayApply(db, id, update) && Allowed(fate, db, id, update)
      modifies `db, `faults
      ensures Valid() && Touches(old(db), db, id) && IsMovedBy(old(db), db, id, update)
      ensures r.Ok? ==> db.rows[id] == MovedNext(old(db).rows[id], update)
      ensures faults == Logged(old(faults), inFlight, r) || (faults == old(faults) && id !in Open(db))
      ensures r.Err? ==> !r.error.Permanent? && (faults != old(faults) || id !in Open(db))
      ensures id !in Open(old(db)) && faults == old(faults) ==> r == Err(Terminal)
      ensures inFlight == Some(id) ==> db.rows[id] in {old(db).rows[id], MovedNext(old(db).rows[id], update)}
      ensures inFlight == Some(id) && id in Open(old(db)) ==>
                faults == Logged(old(faults), inFlight, r) && (r.Err? ==> IsFault(r.error))
    {
      hide Extends;
      var _ :- Await();
      assert Undisturbed(old(db), db, id);
      if db.rows[id].state.IsTerminal() {
        return Err(Terminal);
      }
      AllowedIsStable(fate, old(db), db, id, update);
      ghost var read := db;
      r := Send(Issue(db, id, update).value, id, update);
      TouchesIsTransitive(old(db), read, db, id);
    }

    method IsBlocking(dependency: OpId) returns (r: Result<bool, Failure>)
      requires Valid()
      modifies `db, `faults
      ensures Valid() && Waited(inFlight, old(db), db)
      ensures faults == Logged(old(faults), inFlight, r) && (r.Err? ==> IsFault(r.error))
      ensures r.Ok? ==> (r.value <==> !IsCommitted(db, dependency))
    {
      hide Justified, Waited;
      var found :- Get(dependency);
      r := Ok(found.None? || !found.value.state.Committed?);
    }

    /** `dependency_blockers`: exact whatever operators do between its reads. */
    method DependencyBlockers(dependencies: seq<OpId>) returns (r: Result<seq<OpId>, Failure>)
      requires Valid()
      modifies `db, `faults
      ensures Valid() && Waited(inFlight, old(db), db)
      ensures faults == Logged(old(faults), inFlight, r) && (r.Err? ==> IsFault(r.error))
      ensures r.Ok? ==> AreBlockers(db, dependencies, r.value)
    {
      hide Justified, Waited;
      WaitedIsReflexive(inFlight, db);
      var blockers := [];
      var i := 0;
      while i < |dependencies|
        invariant 0 <= i <= |dependencies|
        invariant Valid() && Waited(inFlight, old(db), db) && faults == old(faults)
        invariant AreUncommitted(db, dependencies[..i], blockers)
      {
        ghost var before := db;
        var blocking := IsBlocking(dependencies[i]);
        WaitedIsTransitive(inFlight, old(db), before, db);
        if blocking.Err? {
          return Err(blocking.error);
        }
        BlockersGrow(inFlight, before, db, dependencies, i, blockers);
        if blocking.value {
          blockers := blockers + [dependencies[i]];
        }
        i := i + 1;
      }
      BlockersAreSorted(db, dependencies, blockers);
      r := Ok(SortDedup(blockers));
    }

    /** A transition of the operation in flight, which is past the dependency check. */
    method Advance(id: OpId, update: Update) returns (r: Result<(), Failure>)
      requires Valid() && IsWorkedOn(inFlight, db, id)
      requires Follows(db.rows[id].state, update.to) && !update.to.Rejected?
      requires update.to.Committed? ==> fate.works(id)
      modifies `db, `faults
      ensures Valid() && Touches(old(db), db, id)
      ensures id in db.rows && (r.Ok? ==> db.rows[id] == MovedNext(old(db).rows[id], update))
      ensures faults == Logged(old(faults), inFlight, r) && (r.Err? ==> IsFault(r.error))
    {
      PastBlockedMayMove(fate, db, id, update);
      r := Transition(id, update);
    }

    /** `finish_operation` */
    method FinishOperation(id: OpId, result: string) returns (r: Result<(), Failure>)
      requires Valid() && IsScheduled(inFlight, db, id) && fate.works(id)
      modifies `db, `faults
      ensures Valid() && Touches(old(db), db, id)
      ensures r.Ok? ==> id in db.rows && db.rows[id].state.Committed? && db.rows[id].result == Some(result)
      ensures faults == Logged(old(faults), inFlight, r) && (r.Err? ==> IsFault(r.error))
    {
      hide Justified, Extends;
      var current :- Get(id);
      if current.value.state.Committed? {
        return Ok(());
      }
      ghost var read := db;
      if !current.value.state.Indexed? {
        r := Advance(id, Update(Indexed, [], Some(result), None, NoDetail));
        TouchesIsTransitive(old(db), read, db, id);
        if r.Err? {
          return;
        }
      }
      ghost var indexed := db;
      r := Advance(id, Update(Committed, [], Some(result), None, OutcomeCommitted));
      TouchesIsTransitive(old(db), indexed, db, id);
    }

    /** The way from Validated over Planned to Processing, as far as still ahead. */
    method Schedule(id: OpId, state: State, planned: Detail) returns (r: Result<(), Failure>)
      requires Valid() && IsWorkedOn(inFlight, db, id) && db.rows[id].state == state
      modifies `db, `faults
      ensures Valid() && Touches(old(db), db, id)
      ensures r.Ok? ==> IsScheduled(inFlight, db, id)
      ensures faults == Logged(old(faults), inFlight, r) && (r.Err? ==> IsFault(r.error))
    {
      hide Justified, Extends;
      TouchesIsReflexive(db, id);
      if state.Validated? {
        var _ :- Advance(id, Update(Planned, [], None, None, planned));
      }
      ghost var before := db;
      if state.Validated? || state.Planned? {
        r := Advance(id, Update(Processing, [], None, None, Scheduled));
        TouchesIsTransitive(old(db), before, db, id);
        if r.Err? {
          return;
        }
      }
      r := Ok(());
    }

    /** The work itself, whatever it is, and `finish_operation` after it. */
    method WorkAndFinish(id: OpId) returns (r: Result<(), Failure>)
      requires Valid() && IsScheduled(inFlight, db, id) && fate.works(id)
      modifies `db, `faults
      ensures Valid() && Touches(old(db), db, id)
      ensures r.Ok? ==> id in db.rows && db.rows[id].state.Committed?
      ensures faults == Logged(old(faults), inFlight, r) && (r.Err? ==> IsFault(r.error))
    {
      hide Justified, Extends;
      var _ :- Await();
      ghost var done := db;
      var result: string := *;
      r := FinishOperation(id, result);
      TouchesIsTransitive(old(db), done, db, id);
    }

    /** `process_add_memory`, without what it keeps in the part table: an unusable
        payload or an empty plan is found before anything is scheduled. */
    method ProcessAddMemory(id: OpId, state: State) returns (r: Result<(), Failure>)
      requires Valid() && IsWorkedOn(inFlight, db, id) && db.rows[id].state == state
      modifies `db, `faults
      ensures Valid() && Touches(old(db), db, id)
      ensures IsAnswered(r) ==> IsWorkDone(fate, db, id, r)
      ensures faults == Logged(old(faults), inFlight, r) && (!IsAnswered(r) ==> IsFault(r.error))
    {
      hide Justified, Extends;
      var _ :- Await();
      if !fate.works(id) {
        return Err(Permanent);
      }
      ghost var planned := db;
      var parts: nat, tokens: nat := *, *;
      r := Schedule(id, state, PlanSummary(parts, tokens));
      TouchesIsTransitive(old(db), planned, db, id);
      if r.Err? {
        return;
      }
      ghost var scheduled := db;
      r := WorkAndFinish(id);
      TouchesIsTransitive(old(db), scheduled, db, id);
    }

    /** `process_task_operation` and the `finish_operation` after it: an unusable
        payload is found once the operation is Processing. */
    method ProcessTask(id: OpId, state: State) returns (r: Result<(), Failure>)
      requires Valid() && IsWorkedOn(inFlight, db, id) && db.rows[id].state == state
      modifies `db, `faults
      ensures Valid() && Touches(old(db), db, id)
      ensures IsAnswered(r) ==> IsWorkDone(fate, db, id, r)
      ensures faults == Logged(old(faults), inFlight, r) && (!IsAnswered(r) ==> IsFault(r.error))
    {
      hide Justified, Extends;
      var _ :- Schedule(id, state, Scheduled);
      ghost var scheduled := db;
      if !fate.works(id) {
        return Err(Permanent);
      }
      r := WorkAndFinish(id);
      TouchesIsTransitive(old(db), scheduled, db, id);
    }

    /** `process` */
    method Process(id: OpId) returns (r: Result<(), Failure>)
      requires Valid() && inFlight == Some(id)
      modifies `db, `faults
      ensures Valid() && Touches(old(db), db, id)
      ensures IsAnswered(r) ==> IsProcessed(fate, old(db), db, id, r)
      ensures faults == Logged(old(faults), inFlight, r) && (!IsAnswered(r) ==> IsFault(r.error))
    {
      hide Justified, Extends;
      var found :- Get(id);
      if found.None? || found.value.state.IsTerminal() {
        return Ok(());
      }
      ghost var read := db;
      r := ProcessOpen(id, found.value);
      TouchesIsTransitive(old(db), read, db, id);
      ProcessedFromBefore(fate, inFlight, old(db), read, db, id, r);
    }

    /** The rest of `process`, for an operation that is not terminal. */
    method ProcessOpen(id: OpId, operation: Row) returns (r: Result<(), Failure>)
      requires Valid() && inFlight == Some(id) && id in Open(db) && db.rows[id] == operation
      modifies `db, `faults
      ensures Valid() && Touches(old(db), db, id)
      ensures IsAnswered(r) ==> IsProcessed(fate, old(db), db, id, r)
      ensures faults == Logged(old(faults), inFlight, r) && (!IsAnswered(r) ==> IsFault(r.error))
    {
      hide Extends;
      var blockers :- DependencyBlockers(operation.dependencies);
      ghost var checked := db;
      NoBlockersMeansAllCommitted(db, operation.dependencies, blockers);
      if blockers != [] {
        HeldUnlessUnchecked(db, id);
        r := Block(id, operation, blockers);
      } else {
        r := ProcessUnblocked(id, operation);
      }
      TouchesIsTransitive(old(db), checked, db, id);
      ProcessedFromBefore(fate, inFlight, old(db), checked, db, id, r);
    }

    /** The branch of `process` for an operation with uncommitted dependencies. */
    method Block(id: OpId, operation: Row, blockers: seq<OpId>) returns (r: Result<(), Failure>)
      requires Valid() && inFlight == Some(id) && id in db.rows && db.rows[id] == operation
      requires NeedsCheck(operation.state) && blockers != []
      requires AreBlockers(db, operation.dependencies, blockers)
      modifies `db, `faults
      ensures Valid() && Touches(old(db), db, id)
      ensures r.Ok? ==> id in db.rows && Settled(db, id) && db.rows[id].blockedBy == blockers
      ensures faults == Logged(old(faults), inFlight, r) && (r.Err? ==> IsFault(r.error))
    {
      hide Justified, Extends;
      TouchesIsReflexive(db, id);
      if !operation.state.Blocked? || operation.blockedBy != blockers {
        var _ :- Transition(id, Update(Blocked, blockers, None, None, DependenciesNotCommitted));
        BlockedIsSettled(old(db), db, id, blockers);
      }
      r := Ok(());
    }

    /** The validation in `process`: the state it leaves the operation in. */
    method CheckPayload(id: OpId, operation: Row) returns (r: Result<State, Failure>)
      requires Valid() && inFlight == Some(id) && id in db.rows && db.rows[id] == operation
      requires !operation.state.IsTerminal() && AllCommitted(db, operation.dependencies)
      modifies `db, `faults
      ensures Valid() && Touches(old(db), db, id)
      ensures r.Ok? ==> id in db.rows && db.rows[id].state == r.value
      ensures r.Ok? ==> if NeedsCheck(operation.state) && !operation.payload.IsValid() then r.value.Rejected?
                        else IsPastBlocked(r.value) && !r.value.Committed?
      ensures faults == Logged(old(faults), inFlight, r) && (r.Err? ==> IsFault(r.error))
    {
      hide Justified, Extends;
      TouchesIsReflexive(db, id);
      if operation.state.Accepted? || operation.state.Blocked? {
        if !operation.payload.IsValid() {
          var error: string := *;
          var _ :- Transition(id, Update(Rejected, [], None, Some(error), ContractRejected));
          return Ok(Rejected);
        }
        var _ :- Transition(id, Update(Validated, [], None, None, ContractValidated));
        return Ok(Validated);
      }
      r := Ok(operation.state);
    }

    /** The rest of `process`, once every dependency is committed. */
    method ProcessUnblocked(id: OpId, operation: Row) returns (r: Result<(), Failure>)
      requires Valid() && inFlight == Some(id) && id in db.rows && db.rows[id] == operation
      requires !operation.state.IsTerminal() && AllCommitted(db, operation.dependencies)
      modifies `db, `faults
      ensures Valid() && Touches(old(db), db, id)
      ensures IsAnswered(r) ==> IsUnblockedDone(fate, old(db), db, id, r)
      ensures faults == Logged(old(faults), inFlight, r) && (!IsAnswered(r) ==> IsFault(r.error))
    {
      hide Justified, Extends;
      var state :- CheckPayload(id, operation);
      if state.Rejected? {
        return Ok(());
      }
      ghost var checked := db;
      if operation.kind.AddMemory? {
        r := ProcessAddMemory(id, state);
      } else {
        r := ProcessTask(id, state);
      }
      TouchesIsTransitive(old(db), checked, db, id);
    }

    /** `record_processing_error`: a note in the log that leaves the state alone. */
    method RecordProcessingError(id: OpId, message: string)
      requires Valid()
      modifies `db, `faults
      ensures Valid() && Touches(old(db), db, id)
      ensures IsNotedAtMost(old(db), db, id, message)
      ensures FailedDuring(old(faults), faults, inFlight)
      ensures faults == old(faults) && id in Open(db) ==> db.rows[id].error == Some(message)
    {
      hide Extends, Grounded, IsTracked;
      var found := Get(id);
      assert Undisturbed(old(db), db, id);
      if found.Err? || found.value.None? || found.value.value.state.IsTerminal() {
        return;
      }
      var current := found.value.value;
      if current.error == Some(message) {
        return;
      }
      ghost var read := db;
      var note := Update(current.state, current.blockedBy, current.result, Some(message), Paused(message));
      NoteMayApply(fate, db, id, note);
      var _ := Transition(id, note);
      TouchesIsTransitive(old(db), read, db, id);
    }

    /** `reject_permanent_failure`: without a fault the operation is rejected, by the
        coordinator or by an operator who came first. */
    method RejectPermanentFailure(id: OpId, message: string)
      requires Valid() && id in db.rows && !fate.works(id)
      modifies `db, `faults
      ensures Valid() && Touches(old(db), db, id)
      ensures IsNotedAtMost(old(db), db, id, message) || IsMovedBy(old(db), db, id, ToRejected(message))
      ensures FailedDuring(old(faults), faults, inFlight) && (faults != old(faults) || id !in Open(db))
      ensures faults == old(faults) && id in Open(old(db)) ==>
                db.rows[id].state.Rejected? && (RejectedByOperator(db, id) || db.rows[id].error == Some(message))
    {
      hide Extends;
      var rejected := Transition(id, ToRejected(message));
      if rejected.Err? {
        ghost var sent := db;
        RecordProcessingError(id, message);
        OpenShrinks(sent, db);
        TouchesIsTransitive(old(db), sent, db, id);
        RejectionOrNote(old(db), sent, db, id, message);
      }
    }

    /** One turn of the inner loop of `drain_pending`, up to what it does about the
        queue: process `id` while it is in flight, and reject or look at it after.
        `sure` says that its outcome is known. */
    method Handle(id: OpId) returns (handled: Handled, ghost sure: bool)
      requires Valid() && inFlight == None
      modifies `db, `inFlight, `faults
      ensures Valid() && Touches(old(db), db, id) && inFlight == None
      ensures handled == Finished(true) ==> IsCommitted(db, id)
      ensures sure ==> IsHandled(db, id, handled)
      ensures IsTurn(old(faults), faults, id, handled, sure)
      ensures handled.Interruption? ==> |faults| == |old(faults)| + 1
    {
      hide Justified, Extends;
      Interfere();
      ghost var locked := db;
      inFlight := Some(id);
      var processed := Process(id);
      inFlight := None;
      TouchesIsTransitive(old(db), locked, db, id);
      ghost var done := db;
      if processed.Err? {
        handled, sure := HandleError(id, processed.error);
      } else {
        var found := Get(id);
        handled := Finished(found.Ok? && found.value.Some? && found.value.value.state.Committed?);
        sure := found.Ok?;
        ProcessedIsHandled(fate, locked, done, db, id, processed);
      }
      TouchesIsTransitive(old(db), done, db, id);
    }

    method HandleError(id: OpId, error: Failure) returns (handled: Handled, ghost sure: bool)
      requires Valid() && inFlight == None
      requires error.Permanent? ==> id in db.rows && !fate.works(id)
      requires error.Permanent? ==> !IsCommitted(db, id)
      requires error.Terminal? ==> id !in Open(db) && !IsCommitted(db, id)
      modifies `db, `faults
      ensures Valid() && Touches(old(db), db, id) && inFlight == None
      ensures !handled.Finished? && (handled.Interruption? <==> IsFault(error)) && (IsFault(error) ==> !sure)
      ensures sure ==> IsHandled(db, id, handled)
      ensures handled.Interruption? ==> handled.recovered == error.Recovered? && faults == old(faults)
      ensures FailedDuring(old(faults), faults, None) && (!sure && handled.Refused? ==> faults != old(faults))
    {
      match error
      case Terminal => handled, sure := Refused, true;
      case Permanent =>
        var message: string := *;
        RejectPermanentFailure(id, message);
        handled, sure := Refused, id !in Open(db);
      case Recovered => handled, sure := Interruption(true), false;
      case Interrupted => handled, sure := Interruption(false), false;
    }

    /** `Handle`, and the error note for an interruption that is not tried again. */
    method HandleNext(id: OpId, mayRetry: bool, ghost first: Db, ghost initial: seq<OpId>, ghost rescan: bool)
      returns (handled: Handled, ghost sure: bool)
      requires Valid() && inFlight == None && Shrinks(first, db)
      requires id in initial && (rescan ==> AnyCommitted(db, initial))
      modifies `db, `inFlight, `faults
      ensures Valid() && inFlight == None && Touches(old(db), db, id) && Shrinks(first, db)
      ensures rescan || handled == Finished(true) ==> AnyCommitted(db, initial)
      ensures sure ==> IsHandled(db, id, handled)
      ensures IsTurn(old(faults), faults, id, handled, sure)
      ensures IsRetried(handled, mayRetry) ==> |faults| == |old(faults)| + 1
      ensures handled.Interruption? && !IsRetried(handled, mayRetry)
              && |faults| == |old(faults)| + 1 && id in Open(db) ==>
                db.rows[id].error.Some?
    {
      hide Justified, Extends;
      handled, sure := Handle(id);
      ghost var done := db;
      if handled.Interruption? && !IsRetried(handled, mayRetry) {
        var message: string := *;
        RecordProcessingError(id, message);
        TouchesIsTransitive(old(db), done, db, id);
      }
      ShrinksIsTransitive(first, old(db), db);
      AnyCommittedIsStable(old(db), db, initial);
    }

    /** The inner loop of `drain_pending`: one wave, until the queue is empty. */
    method RunWave(initial: seq<OpId>, alreadyQueued: set<OpId>, alreadyRetried: set<OpId>)
      returns (queued: set<OpId>, retried: set<OpId>, rescanAfterWave: bool)
      requires Valid() && inFlight == None && paused == {}
      requires alreadyRetried == Elements(requeued) == RecoveredIds(faults) && IsDistinct(requeued)
      requires alreadyQueued <= Elements(initial)
      modifies `db, `inFlight, `faults, `paused, `requeued
      ensures Valid() && Shrinks(old(db), db) && inFlight == None
      ensures retried == Elements(requeued) == RecoveredIds(faults) && IsDistinct(requeued) && queued == {}
      ensures rescanAfterWave ==> AnyCommitted(db, initial)
      ensures IsWave(old(db), db, Elements(initial), paused, rescanAfterWave)
      ensures AreRecoveries(faults) ==> paused == {}
      ensures AreProcessing(faults) ==> AreNoted(db, paused)
    {
      hide Justified, Extends, IsWave, IsHandled, Touches, AnyCommitted, IsQueue, IsTurn, AreNoted, RecoveredIds;
      hide AreRecoveries, AreProcessing, PausedAfter, Shrinks, Undisturbed, IsCommitted, Open;
      ShrinksIsReflexive(db);
      WaveBegins(db, initial);
      NothingIsNoted(db);
      var pending := initial;
      queued, retried, rescanAfterWave := alreadyQueued, alreadyRetried, false;
      ghost var universe := Elements(initial) + retried;
      while pending != []
        invariant Valid() && Shrinks(old(db), db) && inFlight == None
        invariant retried == Elements(requeued) == RecoveredIds(faults) && IsDistinct(requeued) && retried <= universe
        invariant queued <= Elements(pending) <= Elements(initial)
        invariant IsQueue(initial, alreadyQueued) ==> IsQueue(pending, queued)
        invariant rescanAfterWave ==> AnyCommitted(db, initial)
        invariant IsWave(old(db), db, Elements(initial), Elements(pending) + paused, rescanAfterWave)
        invariant AreRecoveries(faults) ==> paused == {}
        invariant AreProcessing(faults) ==> AreNoted(db, paused)
        decreases universe - retried, |pending|
      {
        var id := pending[0];
        PopKeepsQueue(pending, queued);
        assert id in Elements(pending) && pending == [id] + pending[1..];
        ghost var before, todo, wasRescan, wasFaults := db, Elements(pending) + paused, rescanAfterWave, faults;
        pending := pending[1..];
        queued := queued - {id};
        ghost var sure;
        var handled;
        handled, sure := HandleNext(id, id !in retried, old(db), initial, rescanAfterWave);
        TurnIsRecorded(wasFaults, faults, before, db, id, id !in retried, handled, sure, paused);
        NothingIsLost(pending, paused, id, id !in retried, handled, sure);
        paused := PausedAfter(paused, id, id !in retried, handled, sure);
        if handled.Finished? {
          rescanAfterWave := rescanAfterWave || handled.committedNow;
        } else if handled.Interruption? && handled.recovered && id !in retried {
          PushKeepsQueue(pending, queued, id);
          retried, queued, pending := retried + {id}, queued + {id}, pending + [id];
          requeued := requeued + [id];
        }
        HandledKeepsWave(
          old(db), before, db, Elements(initial), todo, Elements(pending) + paused, wasRescan, id, handled);
      }
      assert Elements(pending) + paused == paused;
    }

    /** One query of `list_nonterminal_ids`: the ids in one state, in any order. */
    method QueryState(state: State) returns (r: Result<seq<OpId>, Failure>)
      requires Valid()
      modifies `db, `faults
      ensures Valid() && Waited(inFlight, old(db), db)
      ensures faults == Logged(old(faults), inFlight, r) && (r.Err? ==> IsFault(r.error))
      ensures r.Ok? ==> forall id :: id in r.value <==> id in db.rows && db.rows[id].state == state
    {
      hide Justified, Waited;
      var _ :- Await();
      var left := set id | id in db.rows && db.rows[id].state == state;
      ghost var all := left;
      var ids := [];
      while left != {}
        invariant left <= all && forall id :: id in ids <==> id in all - left
        decreases left
      {
        var id :| id in left;
        left := left - {id};
        ids := ids + [id];
      }
      r := Ok(ids);
    }

    /** `list_nonterminal_ids` */
    method ListNonterminal() returns (r: Result<seq<OpId>, Failure>)
      requires Valid()
      modifies `db, `faults
      ensures Valid() && Waited(inFlight, old(db), db)
      ensures faults == Logged(old(faults), inFlight, r) && (r.Err? ==> IsFault(r.error))
      ensures r.Ok? ==> StrictlySorted(r.value) && Open(db) <= Elements(r.value) <= Open(old(db))
    {
      hide Justified, Waited;
      WaitedIsReflexive(inFlight, db);
      var ids := [];
      var i := 0;
      while i < |NONTERMINAL|
        invariant 0 <= i <= |NONTERMINAL|
        invariant Valid() && Waited(inFlight, old(db), db) && faults == old(faults)
        invariant IsListing(old(db), db, i, ids)
      {
        ghost var before, wasIds := db, ids;
        var found := QueryState(NONTERMINAL[i]);
        WaitedIsTransitive(inFlight, old(db), before, db);
        if found.Err? {
          return Err(found.error);
        }
        ids := ids + found.value;
        ListingGrows(inFlight, old(db), before, db, i, wasIds, found.value);
        i := i + 1;
      }
      ListingIsSorted(old(db), db, ids);
      r := Ok(SortDedup(ids));
    }

    /** The loop of `drain_pending` that queues what a rescan found. */
    method Enqueue(ids: seq<OpId>, alreadyQueued: set<OpId>) returns (pending: seq<OpId>, queued: set<OpId>)
      requires alreadyQueued == {}
      ensures IsQueue(pending, queued) && Elements(pending) == Elements(ids)
    {
      pending, queued := [], alreadyQueued;
      for i := 0 to |ids|
        invariant IsQueue(pending, queued) && Elements(pending) == Elements(ids[..i])
      {
        assert ids[..i + 1] == ids[..i] + [ids[i]];
        if ids[i] !in queued {
          PushKeepsQueue(pending, queued, ids[i]);
          queued := queued + {ids[i]};
          pending := pending + [ids[i]];
        }
      }
      assert ids[..|ids|] == ids;
    }

    /** After a wave that committed something: list the open operations and queue them. */
    method Rescan(alreadyQueued: set<OpId>) returns (found: bool, queue: seq<OpId>, queued: set<OpId>)
      requires Valid() && inFlight == None && alreadyQueued == {}
      modifies `db, `faults
      ensures Valid() && Shrinks(old(db), db)
      ensures IsQueue(queue, queued) && Elements(queue) <= Open(old(db))
      ensures found ==> Open(db) <= Elements(queue)
      ensures FailedDuring(old(faults), faults, None) && (!found ==> faults != old(faults))
    {
      hide Justified, Extends;
      var ids := ListNonterminal();
      queue, queued := Enqueue(if ids.Ok? then ids.value else [], alreadyQueued);
      found := ids.Ok?;
    }

    /** One turn of the outer loop of `drain_pending`: a wave, and after it a rescan if
        something was committed. `queue` is the queue of the next wave, if there is more. */
    method Turn(pending: seq<OpId>, alreadyQueued: set<OpId>, alreadyRetried: set<OpId>, ghost initial: seq<OpId>,
                ghost wave: Db)
      returns (more: bool, queue: seq<OpId>, queued: set<OpId>, retried: set<OpId>, ghost nextWave: Db)
      requires Valid() && inFlight == None && paused == {} && listed
      requires alreadyRetried == Elements(requeued) == RecoveredIds(faults) && IsDistinct(requeued)
      requires alreadyQueued <= Elements(pending)
      requires AreRescans(start, rescans, wave, db, pending)
      requires IsBetweenWaves(start, rescans, db, initial, Elements(pending))
      modifies `db, `inFlight, `faults, `paused, `listed, `rescans, `requeued
      ensures Valid() && inFlight == None
      ensures retried == Elements(requeued) == RecoveredIds(faults) && IsDistinct(requeued)
      ensures IsQueue(queue, queued)
      ensures more ==> Ahead(start, rescans) < Ahead(start, old(rescans)) && paused == {} && listed
      ensures !more && listed ==> queue == []
      ensures AreRescans(start, rescans, nextWave, db, queue)
      ensures listed && paused == {} ==> IsBetweenWaves(start, rescans, db, initial, Elements(queue))
      ensures AreRecoveries(faults) ==> listed && paused == {}
      ensures AreProcessing(faults) ==> listed && AreNoted(db, paused)
    {
      hide *;
      var rescanAfterWave;
      queued, retried, rescanAfterWave := RunWave(pending, alreadyQueued, alreadyRetried);
      EmptyIsQueue();
      if !rescanAfterWave {
        RanOut(start, rescans, wave, old(db), db, initial, pending, paused);
        return false, [], queued, retried, wave;
      }
      nextWave := db;
      more, queue, queued := TurnBack(queued, pending, initial, old(db), wave);
      NothingIsNoted(db);
    }

    method TurnBack(alreadyQueued: set<OpId>, ghost pending: seq<OpId>, ghost initial: seq<OpId>, ghost before: Db,
                    ghost wave: Db)
      returns (found: bool, queue: seq<OpId>, queued: set<OpId>)
      requires Valid() && inFlight == None && alreadyQueued == {} && listed
      requires AreRescans(start, rescans, wave, before, pending) && Shrinks(before, db) && AnyCommitted(db, pending)
      modifies `db, `faults, `paused, `listed, `rescans
      ensures Valid() && IsQueue(queue, queued) && paused == {} && listed == found
      ensures Ahead(start, rescans) < Ahead(start, old(rescans))
      ensures AreRescans(start, rescans, old(db), db, queue)
      ensures found ==> IsBetweenWaves(start, rescans, db, initial, Elements(queue))
      ensures RecoveredIds(faults) == RecoveredIds(old(faults))
      ensures AreRecoveries(faults) || AreProcessing(faults) ==> found
    {
      hide *;
      found, queue, queued := Rescan(alreadyQueued);
      TurnedBack(start, rescans, wave, before, old(db), db, initial, pending, queue, found);
      OutsideRecoversNothing(old(faults), faults);
      rescans := rescans + [|Open(old(db))|];
      paused, listed := {}, found;
    }

    /** `drain_pending`. Whatever operators reject, the drain ends with the least fixpoint
        committed and the rest exactly blocked, provided that every listing was answered
        and every interrupted operation was handled again, or found by a later rescan. */
    method DrainPending(initial: seq<OpId>)
      requires Valid() && inFlight == None
      modifies this
      ensures Valid() && start == old(db) && inFlight == None
      ensures Elements(requeued) == RecoveredIds(faults) && IsDistinct(requeued)
      ensures IsDescending(rescans) && forall i :: 0 <= i < |rescans| ==> rescans[i] <= |Open(old(db))|
      ensures listed && paused == {}
              && (Open(old(db)) <= Elements(initial) || CommittedIds(db) != CommittedIds(old(db))) ==>
                AllSettled(db) && IsLeastFixpoint(fate, old(db), db)
      ensures AreRecoveries(faults) ==> listed && paused == {}
      ensures AreProcessing(faults) ==> listed && AreNoted(db, paused)
    {
      StartIsJustified(fate, db);
      StartIsBetweenWaves(db, initial);
      start, faults, paused, listed, rescans, requeued := db, [], {}, true, [], [];
      var pending := initial;
      var queued := set id | id in initial;
      var retried: set<OpId> := {};
      var more := true;
      ghost var wave := db;
      while more
        invariant Valid() && start == old(db) && inFlight == None
        invariant retried == Elements(requeued) == RecoveredIds(faults) && IsDistinct(requeued)
        invariant queued <= Elements(pending)
        invariant AreRescans(start, rescans, wave, db, pending)
        invariant more ==> paused == {} && listed
        invariant listed && paused == {} ==> IsBetweenWaves(start, rescans, db, initial, Elements(pending))
        invariant !more && listed ==> pending == []
        invariant AreRecoveries(faults) ==> listed && paused == {}
        invariant AreProcessing(faults) ==> listed && AreNoted(db, paused)
        decreases more, Ahead(start, rescans)
      {
        more, pending, queued, retried, wave := Turn(pending, queued, retried, initial, wave);
      }
      if listed && paused == {} && (Open(start) <= Elements(initial) || CommittedIds(db) != CommittedIds(start)) {
        LeastFixpointReached(fate, start, rescans, db, initial);
      }
    }

    /** `reconcile_nonterminal`: the same for the ledger as it was at the call. */
    method ReconcileNonterminal() returns (r: Result<nat, Failure>)
      requires Valid() && inFlight == None
      modifies this
      ensures Valid() && Shrinks(old(db), db) && inFlight == None
      ensures r.Ok? ==> Waited(None, old(db), start) && IsDescending(rescans)
      ensures r.Ok? ==> |Open(start)| <= r.value <= |Open(old(db))|
      ensures r.Ok? ==> Elements(requeued) == RecoveredIds(faults) && IsDistinct(requeued)
      ensures r.Ok? && listed && paused == {} ==> AllSettled(db) && IsLeastFixpoint(fate, old(db), db)
      ensures AreRecoveries(faults) ==> r.Ok? && listed && paused == {}
      ensures AreProcessing(faults) ==> r.Ok? && listed && AreNoted(db, paused)
    {
      hide Extends;
      faults := [];
      var ids := ListNonterminal();
      if ids.Err? {
        assert faults[0].during.None?;
        return Err(ids.error);
      }
      ghost var begun := db;
      DrainPending(ids.value);
      Reconciled(fate, old(db), begun, db, listed && paused == {});
      SortedIsCounted(ids.value, Open(begun), Open(old(db)));
      r := Ok(|ids.value|);
    }
  }
}
