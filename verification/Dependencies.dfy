/** Dependencies of operations and the blocker lists computed from them
    (`dependency_blockers`, `src/operations.rs`). */
module Dependencies {
  import opened Basics
  import opened Ledger

  predicate IsCommitted(db: Db, id: OpId) {
    id in db.rows && db.rows[id].state.Committed?
  }

  ghost predicate AllCommitted(db: Db, ids: seq<OpId>) {
    forall id <- ids :: IsCommitted(db, id)
  }

  /** Past the dependency check: only entered once every dependency is committed. */
  predicate IsPastBlocked(state: State) {
    state.Validated? || state.Planned? || state.Processing? || state.Indexed? || state.Committed?
  }

  /** The one state that comes next, or the end as a rejection; waiting for dependencies
      is the only state that may be left out. */
  predicate Follows(from: State, to: State) {
    match from
    case Accepted => to.Blocked? || to.Validated? || to.Rejected?
    case Blocked => to.Validated? || to.Rejected?
    case Validated => to.Planned? || to.Rejected?
    case Planned => to.Processing? || to.Rejected?
    case Processing => to.Indexed? || to.Rejected?
    case Indexed => to.Committed? || to.Rejected?
    case _ => false
  }

  ghost predicate StrictlySorted(ids: seq<OpId>) {
    forall i, j :: 0 <= i < j < |ids| ==> ids[i] < ids[j]
  }

  function Insert(id: OpId, ids: seq<OpId>): seq<OpId> {
    if ids == [] then [id]
    else if id < ids[0] then [id] + ids
    else if id == ids[0] then ids
    else [ids[0]] + Insert(id, ids[1..])
  }

  /** `sort()` followed by `dedup()` */
  function SortDedup(ids: seq<OpId>): seq<OpId> {
    if ids == [] then [] else Insert(ids[|ids| - 1], SortDedup(ids[..|ids| - 1]))
  }

  lemma {:induction false} InsertIs(id: OpId, ids: seq<OpId>)
    requires StrictlySorted(ids)
    ensures StrictlySorted(Insert(id, ids))
    ensures forall x :: x in Insert(id, ids) <==> x == id || x in ids
  {
    if ids != [] && id > ids[0] {
      InsertIs(id, ids[1..]);
      var inserted := Insert(id, ids[1..]);
      assert ids == [ids[0]] + ids[1..];
      forall j | 0 <= j < |inserted| ensures ids[0] < inserted[j] {
        assert inserted[j] in inserted;
      }
    } else if ids != [] {
      assert ids[0] in ids;
    }
  }

  lemma {:induction false} SortDedupIs(ids: seq<OpId>)
    ensures StrictlySorted(SortDedup(ids))
    ensures forall x :: x in SortDedup(ids) <==> x in ids
  {
    if ids != [] {
      var n := |ids| - 1;
      SortDedupIs(ids[..n]);
      InsertIs(ids[n], SortDedup(ids[..n]));
      assert ids == ids[..n] + [ids[n]];
    }
  }

  /** A strictly sorted list is determined by its elements. */
  lemma {:induction false} SortedIsUnique(a: seq<OpId>, b: seq<OpId>)
    requires StrictlySorted(a) && StrictlySorted(b)
    requires forall x :: x in a <==> x in b
    ensures a == b
  {
    assert (a == [] || a[0] in a) && (b == [] || b[0] in b);
    if a != [] {
      assert a[0] == b[0];
      FirstIsSmallest(a);
      FirstIsSmallest(b);
      SortedIsUnique(a[1..], b[1..]);
    }
  }

  lemma FirstIsSmallest(ids: seq<OpId>)
    requires StrictlySorted(ids) && ids != []
    ensures StrictlySorted(ids[1..])
    ensures forall x :: x in ids[1..] <==> x in ids && x != ids[0]
  {
    assert ids == [ids[0]] + ids[1..];
    forall x <- ids[1..] ensures ids[0] < x {
      var i :| 0 <= i < |ids[1..]| && ids[1..][i] == x;
      assert ids[i + 1] == x;
    }
  }

  function Elements(ids: seq<OpId>): set<OpId> {
    set id | id in ids
  }

  lemma {:induction false} SortedIsDistinct(ids: seq<OpId>)
    requires StrictlySorted(ids)
    ensures |ids| == |Elements(ids)|
  {
    if ids != [] {
      FirstIsSmallest(ids);
      SortedIsDistinct(ids[1..]);
      assert Elements(ids) == Elements(ids[1..]) + {ids[0]};
    }
  }

  /** A list with strictly fewer elements is strictly shorter. */
  lemma FewerIsShorter(a: seq<OpId>, b: seq<OpId>)
    requires StrictlySorted(a) && StrictlySorted(b)
    requires forall id <- a :: id in b
    ensures |a| <= |b|
    ensures a != b ==> |a| < |b|
  {
    SortedIsDistinct(a);
    SortedIsDistinct(b);
    SubsetIsSmaller(Elements(a), Elements(b));
    if Elements(a) == Elements(b) {
      forall x ensures x in a <==> x in b {
        assert x in a <==> x in Elements(a);
        assert x in b <==> x in Elements(b);
      }
      SortedIsUnique(a, b);
    }
  }

  lemma {:induction false} SubsetIsSmaller(x: set<OpId>, y: set<OpId>)
    requires x <= y
    ensures |x| <= |y|
    ensures x != y ==> |x| < |y|
  {
    if x != {} {
      var e :| e in x;
      SubsetIsSmaller(x - {e}, y - {e});
    }
  }

  /** `blockers` is the sorted list, without repetition, of the uncommitted ones
      among `dependencies`. */
  ghost predicate AreBlockers(db: Db, dependencies: seq<OpId>, blockers: seq<OpId>) {
    && StrictlySorted(blockers)
    && forall id :: id in blockers <==> id in dependencies && !IsCommitted(db, id)
  }

  lemma NoBlockersMeansAllCommitted(db: Db, dependencies: seq<OpId>, blockers: seq<OpId>)
    requires AreBlockers(db, dependencies, blockers)
    ensures blockers == [] <==> AllCommitted(db, dependencies)
  {
    if blockers != [] {
      assert blockers[0] in blockers;
    }
  }

  ghost predicate IsHeld(db: Db, id: OpId)
    requires id in db.rows
  {
    IsPastBlocked(db.rows[id].state) ==> AllCommitted(db, db.rows[id].dependencies)
  }

  /** Every operation past the dependency check has all its dependencies committed. */
  ghost predicate DependenciesHeld(db: Db) {
    forall id {:trigger IsHeld(db, id)} | id in db.rows :: IsHeld(db, id)
  }

  // ------------------------------------------------------- Applying an update

  ghost predicate Healthy(db: Db) {
    Chained(db) && DependenciesHeld(db)
  }

  /** `update` may be applied to `id`: it is open, and moves past the dependency
      check only when its dependencies are committed. */
  ghost predicate MayApply(db: Db, id: OpId, update: Update) {
    && id in db.rows && !db.rows[id].state.IsTerminal()
    && (IsPastBlocked(update.to) ==> AllCommitted(db, db.rows[id].dependencies))
  }

  function MovedNext(row: Row, update: Update): Row {
    Moved(row, row.progressSeq + 1, update)
  }

  /** The ledger after an undisturbed read and commit of `update`. */
  function Applied(db: Db, id: OpId, update: Update): Db
    requires id in db.rows
  {
    var row := db.rows[id];
    var sequence := row.progressSeq + 1;
    Db(db.rows[id := MovedNext(row, update)],
       db.events[(id, sequence) := Event(sequence, Some(row.state), update.to, update.detail)])
  }

  /** Reading and committing with nothing in between always succeeds, and what it
      does is `Applied`. */
  lemma ApplyIsExecute(db: Db, id: OpId, update: Update)
    requires Healthy(db) && MayApply(db, id, update)
    ensures Issue(db, id, update).Ok? && Execute(db, Issue(db, id, update).value) == Some(Applied(db, id, update))
    ensures Healthy(Applied(db, id, update)) && Extends(db, Applied(db, id, update))
  {
    IssuedIsOk(db, id, update);
    var txn := Issue(db, id, update).value;
    OnlyTheNextNumberIsFree(db, txn);
    ExecuteKeepsChain(db, txn);
    ApplyKeepsDependencies(db, id, update);
  }

  lemma ApplyKeepsDependencies(db: Db, id: OpId, update: Update)
    requires DependenciesHeld(db) && MayApply(db, id, update)
    ensures DependenciesHeld(Applied(db, id, update))
  {
    var after := Applied(db, id, update);
    forall other <- after.rows ensures IsHeld(after, other) {
      assert IsHeld(db, other);
    }
  }
}
