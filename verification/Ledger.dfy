/** The durable operation ledger of `src/operations.rs`.

    An operation row and its numbered event log are only ever changed by two
    kinds of transaction: the one `submit` sends, which creates the row together
    with event 1, and the one `transition` sends, which updates the row and
    creates event `progress_seq + 1` of the row it read beforehand. Event keys
    are unique, so a transaction whose number is already taken aborts as a whole.

    `Sys` is the ledger together with every transaction that any number of
    callers have issued. Reading and committing are separate steps, a
    transaction may be executed at any later moment, more than once, or never,
    whatever its caller was told about it. */
module Ledger {
  import opened Basics

  /** Operation ids. Only equality and a total order are used, and `record_key`
      is injective, so an id stands for its record key too. */
  type OpId = nat

  datatype State =
    | Accepted
    | Validated
    | Blocked
    | Planned
    | Processing
    | Indexed
    | Committed
    | Rejected
  {
    predicate IsTerminal() {
      Committed? || Rejected?
    }
  }

  datatype Kind = AddMemory | Task

  /** A payload that does not parse, or a parsed request that may still fail its
      own validation. */
  datatype Payload = Malformed | Request(content: string, wellFormed: bool)
  {
    /** `validate_payload` */
    predicate IsValid() {
      Request? && wellFormed
    }
  }

  /** The `detail` object of an event. `Paused` marks an error note. */
  datatype Detail =
    | NoDetail
    | DurablyAccepted
    | DependenciesNotCommitted
    | ContractValidated
    | ContractRejected
    | PlanSummary(parts: nat, tokenCount: nat)
    | Scheduled
    | OutcomeCommitted
    | PermanentFailure(error: string)
    | ByOperator(reason: string)
    | Paused(error: string)

  datatype Row = Row(
    kind: Kind,
    dependencies: seq<OpId>,
    payloadHash: string,
    payload: Payload,
    state: State,
    blockedBy: seq<OpId>,
    result: Option<string>,
    error: Option<string>,
    progressSeq: nat
  )

  datatype Event = Event(sequence: nat, fromState: Option<State>, toState: State, detail: Detail)

  datatype Db = Db(rows: map<OpId, Row>, events: map<(OpId, nat), Event>)

  /** What a caller of `transition` asks for. */
  datatype Update = Update(
    to: State,
    blockedBy: seq<OpId>,
    result: Option<string>,
    error: Option<string>,
    detail: Detail
  )

  datatype Txn =
    | Create(id: OpId, row: Row)
    | Move(id: OpId, from: State, sequence: nat, update: Update)

  datatype LedgerError = NotFound | AlreadyTerminal(state: State) | Storage

  /** The row `submit` writes for a request. */
  function NewRow(kind: Kind, dependencies: seq<OpId>, payloadHash: string, payload: Payload): Row {
    Row(kind, dependencies, payloadHash, payload, Accepted, [], None, None, 1)
  }

  const ACCEPTED_EVENT := Event(1, None, Accepted, DurablyAccepted)

  predicate IsNewRow(row: Row) {
    row == NewRow(row.kind, row.dependencies, row.payloadHash, row.payload)
  }

  function Moved(row: Row, sequence: nat, update: Update): Row {
    row.(state := update.to, blockedBy := update.blockedBy, result := update.result,
         error := update.error, progressSeq := sequence)
  }

  /** One atomic transaction: `None` when a unique key is already taken. */
  function Execute(db: Db, txn: Txn): Option<Db> {
    match txn
    case Create(id, row) =>
      if id in db.rows || (id, 1) in db.events then None
      else Some(Db(db.rows[id := row], db.events[(id, 1) := ACCEPTED_EVENT]))
    case Move(id, from, sequence, update) =>
      if (id, sequence) in db.events then None
      else
        var rows := if id in db.rows then db.rows[id := Moved(db.rows[id], sequence, update)] else db.rows;
        Some(Db(rows, db.events[(id, sequence) := Event(sequence, Some(from), update.to, update.detail)]))
  }

  /** The read half of `transition`: the transaction it goes on to send. */
  function Issue(db: Db, id: OpId, update: Update): Result<Txn, LedgerError> {
    if id !in db.rows then Err(NotFound)
    else if db.rows[id].state.IsTerminal() then Err(AlreadyTerminal(db.rows[id].state))
    else Ok(Move(id, db.rows[id].state, db.rows[id].progressSeq + 1, update))
  }

  // ---------------------------------------------------------------- The chain

  /** Event `k` of `id` exists, carries its number, and starts where event `k - 1`
      ended, in a non-terminal state; event 1 starts nowhere and ends in Accepted. */
  ghost predicate EventOk(db: Db, id: OpId, k: nat)
    requires k >= 1
  {
    && (id, k) in db.events
    && db.events[(id, k)].sequence == k
    && (k == 1 ==> db.events[(id, k)].fromState == None && db.events[(id, k)].toState == Accepted)
    && (k > 1 ==>
          && (id, k - 1) in db.events
          && !db.events[(id, k - 1)].toState.IsTerminal()
          && db.events[(id, k)].fromState == Some(db.events[(id, k - 1)].toState))
  }

  /** The event log of `id` is 1..progress_seq, links from state to state, never
      leaves a terminal state and ends in the state of the row. */
  ghost predicate OpChained(db: Db, id: OpId)
    requires id in db.rows
  {
    var last := db.rows[id].progressSeq;
    && last >= 1
    && (forall k :: 1 <= k <= last ==> EventOk(db, id, k))
    && (id, last) in db.events
    && db.events[(id, last)].toState == db.rows[id].state
  }

  ghost predicate NoStrayEvents(db: Db) {
    forall key <- db.events ::
      key.0 in db.rows && 1 <= key.1 <= db.rows[key.0].progressSeq
  }

  ghost predicate Chained(db: Db) {
    && NoStrayEvents(db)
    && forall id {:trigger OpChained(db, id)} | id in db.rows :: OpChained(db, id)
  }

  /** A transaction some caller issued against a ledger that has since only moved on. */
  ghost predicate TxnOk(db: Db, txn: Txn) {
    match txn
    case Create(_, row) => IsNewRow(row)
    case Move(id, from, sequence, _) =>
      && id in db.rows
      && 2 <= sequence <= db.rows[id].progressSeq + 1
      && (id, sequence - 1) in db.events
      && !from.IsTerminal()
      && db.events[(id, sequence - 1)].toState == from
  }

  /** `after` extends `before`: rows keep what they were submitted with, events
      are only added, terminal rows are frozen. */
  ghost predicate Extends(before: Db, after: Db) {
    && (forall key <- before.events :: key in after.events && after.events[key] == before.events[key])
    && (forall id <- before.rows ::
          && id in after.rows
          && SameRequest(before.rows[id], after.rows[id])
          && before.rows[id].progressSeq <= after.rows[id].progressSeq
          && (before.rows[id].state.IsTerminal() ==> after.rows[id] == before.rows[id]))
  }

  predicate SameRequest(a: Row, b: Row) {
    && a.kind == b.kind
    && a.dependencies == b.dependencies
    && a.payloadHash == b.payloadHash
    && a.payload == b.payload
  }

  /** A committed transaction of either kind keeps the chain and extends the ledger. */
  lemma ExecuteKeepsChain(db: Db, txn: Txn)
    requires Chained(db) && TxnOk(db, txn)
    ensures Execute(db, txn).Some? ==> Chained(Execute(db, txn).value) && Extends(db, Execute(db, txn).value)
  {
    if Execute(db, txn).Some? {
      if txn.Create? {
        CreateKeepsChain(db, txn);
      } else {
        MoveKeepsChain(db, txn);
      }
    }
  }

  lemma CreateKeepsChain(db: Db, txn: Txn)
    requires Chained(db) && TxnOk(db, txn) && txn.Create? && Execute(db, txn).Some?
    ensures Chained(Execute(db, txn).value) && Extends(db, Execute(db, txn).value)
  {
    var after := Execute(db, txn).value;
    forall other <- after.rows ensures OpChained(after, other) {
      if other == txn.id {
        assert EventOk(after, other, 1);
      } else {
        OtherChainsAreKept(db, after, other);
      }
    }
  }

  lemma MoveKeepsChain(db: Db, txn: Txn)
    requires Chained(db) && TxnOk(db, txn) && txn.Move? && Execute(db, txn).Some?
    ensures Chained(Execute(db, txn).value) && Extends(db, Execute(db, txn).value)
  {
    var after := Execute(db, txn).value;
    OnlyTheNextNumberIsFree(db, txn);
    forall other <- after.rows ensures OpChained(after, other) {
      if other == txn.id {
        MovedChain(db, txn);
      } else {
        OtherChainsAreKept(db, after, other);
      }
    }
  }

  lemma MovedChain(db: Db, txn: Txn)
    requires Chained(db) && TxnOk(db, txn) && txn.Move? && Execute(db, txn).Some?
    ensures OpChained(Execute(db, txn).value, txn.id)
  {
    var after := Execute(db, txn).value;
    OnlyTheNextNumberIsFree(db, txn);
    assert OpChained(db, txn.id);
    forall k | 1 <= k <= txn.sequence ensures EventOk(after, txn.id, k) {
      if k < txn.sequence {
        assert EventOk(db, txn.id, k);
      }
    }
  }

  lemma OtherChainsAreKept(db: Db, after: Db, id: OpId)
    requires id in db.rows && OpChained(db, id)
    requires id in after.rows && after.rows[id] == db.rows[id]
    requires forall k :: (id, k) in db.events ==> (id, k) in after.events && after.events[(id, k)] == db.events[(id, k)]
    ensures OpChained(after, id)
  {
    forall k | 1 <= k <= db.rows[id].progressSeq ensures EventOk(after, id, k) {
      assert EventOk(db, id, k);
    }
  }

  /** The optimistic lock: a move can only execute as the immediate successor of
      the row as it is now, and then it read exactly that row's state. */
  lemma OnlyTheNextNumberIsFree(db: Db, txn: Txn)
    requires Chained(db) && TxnOk(db, txn) && txn.Move?
    ensures Execute(db, txn).Some? <==> txn.sequence == db.rows[txn.id].progressSeq + 1
    ensures Execute(db, txn).Some? ==> txn.from == db.rows[txn.id].state
  {
    assert OpChained(db, txn.id);
    if txn.sequence <= db.rows[txn.id].progressSeq {
      assert EventOk(db, txn.id, txn.sequence);
    }
  }

  lemma IssuedIsOk(db: Db, id: OpId, update: Update)
    requires Chained(db)
    ensures Issue(db, id, update).Ok? ==> TxnOk(db, Issue(db, id, update).value)
  {
    if id in db.rows {
      assert OpChained(db, id);
    }
  }

  lemma TxnOkIsStable(before: Db, after: Db, txn: Txn)
    requires TxnOk(before, txn) && Extends(before, after)
    ensures TxnOk(after, txn)
  {
  }

  lemma ExtendsIsTransitive(a: Db, b: Db, c: Db)
    requires Extends(a, b) && Extends(b, c)
    ensures Extends(a, c)
  {
  }

  // ------------------------------------------------------------ Interleavings

  datatype Sys = Sys(db: Db, issued: set<Txn>)

  datatype Step =
    | Submit(id: OpId, row: Row)
    | Read(id: OpId, update: Update)
    | Commit(txn: Txn)
    | Forget(txn: Txn)

  ghost predicate Next(s: Sys, step: Step, t: Sys) {
    match step
    case Submit(id, row) =>
      IsNewRow(row) && t == s.(issued := s.issued + {Create(id, row)})
    case Read(id, update) =>
      && Issue(s.db, id, update).Ok?
      && t == s.(issued := s.issued + {Issue(s.db, id, update).value})
    case Commit(txn) =>
      && txn in s.issued
      && t == s.(db := if Execute(s.db, txn).Some? then Execute(s.db, txn).value else s.db)
    case Forget(txn) =>
      t == s.(issued := s.issued - {txn})
  }

  ghost predicate Inv(s: Sys) {
    Chained(s.db) && forall txn <- s.issued :: TxnOk(s.db, txn)
  }

  const EMPTY := Db(map[], map[])

  /** A run of the ledger under any interleaving of any number of callers. */
  ghost predicate IsRun(run: seq<Sys>, steps: seq<Step>) {
    && |run| == |steps| + 1
    && run[0] == Sys(EMPTY, {})
    && forall i :: 0 <= i < |steps| ==> Next(run[i], steps[i], run[i + 1])
  }

  lemma NextKeepsInv(s: Sys, step: Step, t: Sys)
    requires Inv(s) && Next(s, step, t)
    ensures Inv(t) && Extends(s.db, t.db)
  {
    match step
    case Submit(_, _) =>
    case Read(id, update) => IssuedIsOk(s.db, id, update);
    case Commit(txn) => CommitKeepsInv(s, txn, t);
    case Forget(_) =>
  }

  lemma CommitKeepsInv(s: Sys, txn: Txn, t: Sys)
    requires Inv(s) && Next(s, Commit(txn), t)
    ensures Inv(t) && Extends(s.db, t.db)
  {
    ExecuteKeepsChain(s.db, txn);
    forall other <- t.issued ensures TxnOk(t.db, other) {
      TxnOkIsStable(s.db, t.db, other);
    }
  }

  /** At every moment of every run each operation's log is exactly 1..progress_seq,
      linked state to state, with no event of an unknown operation. */
  lemma {:induction false} EventLogIsChained(run: seq<Sys>, steps: seq<Step>, i: nat)
    requires IsRun(run, steps) && i < |run|
    ensures Inv(run[i]) && Chained(run[i].db)
  {
    if i > 0 {
      EventLogIsChained(run, steps, i - 1);
      NextKeepsInv(run[i - 1], steps[i - 1], run[i]);
    }
  }

  /** Between any two moments of a run nothing recorded is lost or rewritten: rows
      keep their request and payload hash, events keep their content, and a
      Committed or Rejected row is the same row for ever after. */
  lemma {:induction false} HistoryOnlyGrows(run: seq<Sys>, steps: seq<Step>, i: nat, j: nat)
    requires IsRun(run, steps) && i <= j < |run|
    ensures Extends(run[i].db, run[j].db)
    decreases j - i
  {
    if i < j {
      HistoryOnlyGrows(run, steps, i, j - 1);
      EventLogIsChained(run, steps, j - 1);
      NextKeepsInv(run[j - 1], steps[j - 1], run[j]);
      ExtendsIsTransitive(run[i].db, run[j - 1].db, run[j].db);
    }
  }

  /** The unique key of the event a transaction writes. */
  function EventKey(txn: Txn): (OpId, nat) {
    match txn
    case Create(id, _) => (id, 1)
    case Move(id, _, sequence, _) => (id, sequence)
  }

  /** Of all the transactions of a run that read the same version of a row, or create
      it, none has any effect after the first one sent. */
  lemma RacingWritersNeverBothCommit(run: seq<Sys>, steps: seq<Step>, i: nat, j: nat)
    requires IsRun(run, steps) && i < j < |steps|
    requires steps[i].Commit? && steps[j].Commit? && EventKey(steps[i].txn) == EventKey(steps[j].txn)
    ensures EventKey(steps[i].txn) in run[i + 1].db.events
    ensures run[j + 1] == run[j]
  {
    EventLogIsChained(run, steps, i);
    assert Next(run[i], steps[i], run[i + 1]) && Next(run[j], steps[j], run[j + 1]);
    KeyIsTaken(run[i].db, steps[i].txn);
    HistoryOnlyGrows(run, steps, i + 1, j);
  }

  lemma KeyIsTaken(db: Db, txn: Txn)
    requires Chained(db)
    ensures EventKey(txn) in (if Execute(db, txn).Some? then Execute(db, txn).value else db).events
  {
    if txn.id in db.rows {
      assert OpChained(db, txn.id) && EventOk(db, txn.id, 1);
    }
  }

  /** What `events_after` returns for a chained ledger: the numbers above `after`, all of them. */
  lemma HistoryAfterIsContiguous(db: Db, id: OpId, after: nat)
    requires Chained(db) && id in db.rows
    ensures forall k: nat :: k > after ==> ((id, k) in db.events <==> k <= db.rows[id].progressSeq)
    ensures forall k: nat :: k > after && (id, k) in db.events ==> db.events[(id, k)].sequence == k
  {
    forall k: nat | k > after
      ensures (id, k) in db.events <==> k <= db.rows[id].progressSeq
      ensures (id, k) in db.events ==> db.events[(id, k)].sequence == k
    {
      assert OpChained(db, id);
      if k <= db.rows[id].progressSeq {
        assert EventOk(db, id, k);
      }
    }
  }
}
