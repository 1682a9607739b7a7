/** What reconciliation is for: the committed operations it should end with, and the
    bookkeeping that ties a ledger in the middle of a drain to the one it started
    from. `reconcile_nonterminal` and `process`, `src/operations.rs`. */
module Fixpoint {
  import opened Basics
  import opened Ledger
  import opened Dependencies

  // ------------------------------------------------------ The intended result

  ghost function Open(db: Db): set<OpId> {
    set id | id in db.rows && !db.rows[id].state.IsTerminal()
  }

  ghost function CommittedIds(db: Db): set<OpId> {
    set id | id in db.rows && db.rows[id].state.Committed?
  }

  predicate NeedsCheck(state: State) {
    state.Accepted? || state.Blocked?
  }

  /** Whether processing a valid operation ends other than by a permanent failure. */
  datatype Fate = Fate(works: OpId -> bool)

  /** Whether processing `id`, once its dependencies are committed, commits it. */
  ghost predicate Succeeds(fate: Fate, start: Db, id: OpId)
    requires id in start.rows
  {
    (NeedsCheck(start.rows[id].state) ==> start.rows[id].payload.IsValid()) && fate.works(id)
  }

  ghost predicate IsIn(ids: seq<OpId>, x: set<OpId>) {
    forall id <- ids :: id in x
  }

  /** The last event of `id` is an operator's rejection. */
  predicate RejectedByOperator(db: Db, id: OpId) {
    && id in db.rows && db.rows[id].state.Rejected?
    && (id, db.rows[id].progressSeq) in db.events
    && db.events[(id, db.rows[id].progressSeq)].detail.ByOperator?
  }

  /** What operators took out of the coordinator's hands. */
  ghost function Withheld(db: Db): set<OpId> {
    set id | id in db.rows && RejectedByOperator(db, id)
  }

  /** `x` holds what was committed at the start and every open operation that was not
      withheld, succeeds and has its dependencies in `x`. */
  ghost predicate Closed(fate: Fate, start: Db, withheld: set<OpId>, x: set<OpId>) {
    && CommittedIds(start) <= x
    && forall id {:trigger Succeeds(fate, start, id)} | id in Open(start) && id !in withheld ::
         Succeeds(fate, start, id) && IsIn(start.rows[id].dependencies, x) ==> id in x
  }

  /** What `db` committed is the least set closed under "not withheld, all
      dependencies committed, and processing succeeds". */
  ghost predicate IsLeastFixpoint(fate: Fate, start: Db, db: Db) {
    && Closed(fate, start, Withheld(db), CommittedIds(db))
    && forall x: set<OpId> {:trigger Closed(fate, start, Withheld(db), x)} ::
         Closed(fate, start, Withheld(db), x) ==> CommittedIds(db) <= x
  }

  /** As `Closed`, as far as the members of `within` are concerned. */
  ghost predicate ClosedWithin(fate: Fate, start: Db, within: set<OpId>, x: set<OpId>) {
    && CommittedIds(start) <= x
    && forall id {:trigger Succeeds(fate, start, id)} | id in Open(start) && id in within ::
         Succeeds(fate, start, id) && IsIn(start.rows[id].dependencies, x) ==> id in x
  }

  /** Every commit goes back, from dependency to dependency, to the start. */
  ghost predicate Grounded(fate: Fate, start: Db, db: Db) {
    forall x: set<OpId> {:trigger ClosedWithin(fate, start, CommittedIds(db), x)} ::
      ClosedWithin(fate, start, CommittedIds(db), x) ==> CommittedIds(db) <= x
  }

  /** Blocked, with exactly its uncommitted dependencies, of which there are some. */
  ghost predicate Settled(db: Db, id: OpId)
    requires id in db.rows
  {
    var row := db.rows[id];
    row.state.Blocked? && row.blockedBy != [] && AreBlockers(db, row.dependencies, row.blockedBy)
  }

  ghost predicate AllSettled(db: Db) {
    forall id {:trigger Settled(db, id)} | id in Open(db) :: Settled(db, id)
  }

  // ------------------------------------------------------------- Moving ahead

  /** The ledger only moves on, and has no new operations. */
  ghost predicate Shrinks(before: Db, after: Db) {
    Extends(before, after) && before.rows.Keys == after.rows.Keys
  }

  lemma ShrinksIsTransitive(a: Db, b: Db, c: Db)
    requires Shrinks(a, b) && Shrinks(b, c)
    ensures Shrinks(a, c)
  {
    ExtendsIsTransitive(a, b, c);
  }

  lemma ShrinksIsReflexive(db: Db)
    ensures Shrinks(db, db)
  {
  }

  lemma OpenShrinks(before: Db, after: Db)
    requires Shrinks(before, after)
    ensures Open(after) <= Open(before)
    ensures CommittedIds(before) <= CommittedIds(after)
  {
  }

  lemma AllCommittedIsStable(before: Db, after: Db, ids: seq<OpId>)
    requires Shrinks(before, after) && AllCommitted(before, ids)
    ensures AllCommitted(after, ids)
  {
  }

  /** How far `id` got since the start: it went past validation only if it needed
      none or passed it, never went back, and was rejected only by an operator or
      because it does not succeed. */
  ghost predicate IsTracked(fate: Fate, start: Db, db: Db, id: OpId)
    requires id in start.rows && id in db.rows
  {
    && (NeedsCheck(db.rows[id].state) ==> NeedsCheck(start.rows[id].state))
    && (IsPastBlocked(db.rows[id].state) && NeedsCheck(start.rows[id].state) ==> start.rows[id].payload.IsValid())
    && (db.rows[id].state.Rejected? && id in Open(start) ==>
          !Succeeds(fate, start, id) || RejectedByOperator(db, id))
  }

  ghost predicate Justified(fate: Fate, start: Db, db: Db) {
    && Healthy(db)
    && Shrinks(start, db)
    && (forall id {:trigger IsTracked(fate, start, db, id)} | id in start.rows :: IsTracked(fate, start, db, id))
    && Grounded(fate, start, db)
  }

  lemma StartIsJustified(fate: Fate, start: Db)
    requires Healthy(start)
    ensures Justified(fate, start, start)
  {
  }

  /** What the coordinator and the operators restrict their updates to. */
  ghost predicate Allowed(fate: Fate, db: Db, id: OpId, update: Update)
    requires id in db.rows
  {
    var state := db.rows[id].state;
    && (Follows(state, update.to) || (update.to == state && (state.Blocked? || update.detail.Paused?)))
    && (NeedsCheck(update.to) ==> NeedsCheck(state))
    && (IsPastBlocked(update.to) && NeedsCheck(state) ==> db.rows[id].payload.IsValid())
    && (update.to.Committed? ==> fate.works(id))
    && (update.to.Rejected? ==>
          update.detail.ByOperator? || !fate.works(id) || (NeedsCheck(state) && !db.rows[id].payload.IsValid()))
  }

  lemma ApplyKeepsJustified(fate: Fate, start: Db, db: Db, id: OpId, update: Update)
    requires Justified(fate, start, db) && MayApply(db, id, update) && Allowed(fate, db, id, update)
    ensures Justified(fate, start, Applied(db, id, update)) && Shrinks(db, Applied(db, id, update))
  {
    var after := Applied(db, id, update);
    ApplyIsExecute(db, id, update);
    ShrinksIsTransitive(start, db, after);
    forall other <- start.rows ensures IsTracked(fate, start, after, other) {
      ApplyKeepsTracked(fate, start, db, id, update, other);
    }
    forall x: set<OpId> | ClosedWithin(fate, start, CommittedIds(after), x) ensures CommittedIds(after) <= x {
      ApplyIsGrounded(fate, start, db, id, update, x);
    }
  }

  lemma ApplyKeepsTracked(fate: Fate, start: Db, db: Db, id: OpId, update: Update, other: OpId)
    requires Justified(fate, start, db) && MayApply(db, id, update) && Allowed(fate, db, id, update)
    requires other in start.rows
    ensures IsTracked(fate, start, Applied(db, id, update), other)
  {
    assert IsTracked(fate, start, db, other);
    hide Healthy, Extends, Grounded;
  }

  lemma ApplyIsGrounded(fate: Fate, start: Db, db: Db, id: OpId, update: Update, x: set<OpId>)
    requires Justified(fate, start, db) && MayApply(db, id, update) && Allowed(fate, db, id, update)
    requires ClosedWithin(fate, start, CommittedIds(Applied(db, id, update)), x)
    ensures CommittedIds(Applied(db, id, update)) <= x
  {
    assert ClosedWithin(fate, start, CommittedIds(db), x);
    assert CommittedIds(db) <= x;
    if update.to.Committed? {
      assert IsTracked(fate, start, db, id);
      assert Succeeds(fate, start, id);
      assert IsIn(start.rows[id].dependencies, x) by {
        forall dependency <- start.rows[id].dependencies ensures dependency in x {
          assert dependency in db.rows[id].dependencies && IsCommitted(db, dependency);
          assert dependency in CommittedIds(db);
        }
      }
    }
  }

  lemma SettledIsBlocked(db: Db, id: OpId)
    requires id in db.rows && Settled(db, id)
    ensures !IsIn(db.rows[id].dependencies, CommittedIds(db))
  {
    var blocker := db.rows[id].blockedBy[0];
    assert blocker in db.rows[id].blockedBy;
  }

  /** Once every open operation is settled, what is committed is the least fixpoint. */
  lemma SettledIsLeastFixpoint(fate: Fate, start: Db, db: Db)
    requires Justified(fate, start, db) && AllSettled(db)
    ensures IsLeastFixpoint(fate, start, db)
  {
    SettledIsClosed(fate, start, db);
    var committed := CommittedIds(db);
    forall x: set<OpId> | Closed(fate, start, Withheld(db), x) ensures committed <= x {
      assert ClosedWithin(fate, start, committed, x);
    }
  }

  lemma SettledIsClosed(fate: Fate, start: Db, db: Db)
    requires Justified(fate, start, db) && AllSettled(db)
    ensures Closed(fate, start, Withheld(db), CommittedIds(db))
  {
    OpenShrinks(start, db);
    var x := CommittedIds(db);
    forall id | id in Open(start) && id !in Withheld(db) && Succeeds(fate, start, id)
                && IsIn(start.rows[id].dependencies, x)
      ensures id in x
    {
      assert IsTracked(fate, start, db, id);
      if id in Open(db) {
        SettledIsBlocked(db, id);
      }
    }
  }
}
