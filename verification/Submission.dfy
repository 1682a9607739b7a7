/** `OperationService::submit` in `src/operations.rs`: look the id up, try to
    create the row and its first event in one transaction, and read the row again.

    Any number of calls run interleaved with each other and with every other
    ledger step. A commit may take effect and lose its reply, fail, or fail for
    its caller and still take effect later. */
module Submission {
  import opened Basics
  import opened Ledger

  type CallId = nat

  datatype Submit = Submit(id: OpId, kind: Kind, dependencies: seq<OpId>, payloadHash: string, payload: Payload)
  {
    function ToRow(): Row {
      NewRow(kind, dependencies, payloadHash, payload)
    }
  }

  datatype Reply = Receipt(row: Row, created: bool) | Conflict(row: Row) | StorageError

  /** Where a call of `submit` stands. */
  datatype Phase =
    | Looking
    | Creating
    | Confirming
    | Recovering
    | Replied(reply: Reply)

  datatype Call = Call(request: Submit, phase: Phase)

  /** `creator` is history: the call whose own transaction created a row. */
  datatype Sys = Sys(ledger: Ledger.Sys, calls: map<CallId, Call>, creator: map<OpId, CallId>)

  datatype CommitOutcome = Acknowledged | ReplyLost | Failed | Delayed

  datatype Step =
    | Start(call: CallId, request: Submit)
    | Lookup(call: CallId, readable: bool)
    | Create(call: CallId, outcome: CommitOutcome)
    | Reread(call: CallId, readable: bool)
    | Elsewhere(step: Ledger.Step)

  /** The rule for a row that is already there: same hash, same receipt. */
  function Existing(request: Submit, row: Row): Reply {
    if row.payloadHash != request.payloadHash then Conflict(row) else Receipt(row, false)
  }

  function AfterLookup(db: Db, request: Submit, readable: bool): Phase {
    if !readable then Replied(StorageError)
    else if request.id in db.rows then Replied(Existing(request, db.rows[request.id]))
    else Creating
  }

  function AfterReread(db: Db, request: Submit, confirmed: bool, readable: bool): Phase {
    if !readable || request.id !in db.rows then Replied(StorageError)
    else if confirmed then Replied(Receipt(db.rows[request.id], true))
    else Replied(Existing(request, db.rows[request.id]))
  }

  ghost predicate InPhase(s: Sys, call: CallId, phase: Phase) {
    call in s.calls && s.calls[call].phase == phase
  }

  function Enter(s: Sys, call: CallId, phase: Phase): Sys
    requires call in s.calls
  {
    s.(calls := s.calls[call := s.calls[call].(phase := phase)])
  }

  ghost predicate Next(s: Sys, step: Step, t: Sys) {
    match step
    case Start(call, request) =>
      call !in s.calls && t == s.(calls := s.calls[call := Call(request, Looking)])
    case Lookup(call, readable) =>
      && InPhase(s, call, Looking)
      && t == Enter(s, call, AfterLookup(s.ledger.db, s.calls[call].request, readable))
    case Create(call, outcome) =>
      && InPhase(s, call, Creating)
      && CreateStep(s, call, outcome, t)
    case Reread(call, readable) =>
      && (InPhase(s, call, Confirming) || InPhase(s, call, Recovering))
      && t == Enter(s, call, AfterReread(s.ledger.db, s.calls[call].request, s.calls[call].phase.Confirming?, readable))
    case Elsewhere(step) =>
      Ledger.Next(s.ledger, step, t.ledger) && t == s.(ledger := t.ledger)
  }

  ghost predicate CreateStep(s: Sys, call: CallId, outcome: CommitOutcome, t: Sys)
    requires InPhase(s, call, Creating)
  {
    var request := s.calls[call].request;
    var txn := Ledger.Txn.Create(request.id, request.ToRow());
    var done := Ledger.Execute(s.ledger.db, txn);
    match outcome
    case Acknowledged =>
      done.Some? && t == Enter(Created(s, request.id, call, done.value), call, Confirming)
    case ReplyLost =>
      done.Some? && t == Enter(Created(s, request.id, call, done.value), call, Recovering)
    case Failed =>
      t == Enter(s, call, Recovering)
    case Delayed =>
      t == Enter(s.(ledger := s.ledger.(issued := s.ledger.issued + {txn})), call, Recovering)
  }

  function Created(s: Sys, id: OpId, call: CallId, db: Db): Sys {
    s.(ledger := s.ledger.(db := db), creator := s.creator[id := call])
  }

  // ------------------------------------------------------------- Invariant

  /** What a call may rely on once it got somewhere. */
  ghost predicate CallOk(s: Sys, call: CallId)
    requires call in s.calls
  {
    var request := s.calls[call].request;
    match s.calls[call].phase
    case Confirming => CreatedBy(s, request, call)
    case Replied(Receipt(row, created)) =>
      && IsReceiptOf(s, request.id, row)
      && row.payloadHash == request.payloadHash
      && (created ==> CreatedBy(s, request, call))
    case Replied(Conflict(row)) =>
      IsReceiptOf(s, request.id, row) && row.payloadHash != request.payloadHash
    case _ => true
  }

  /** The row under `request.id` is the one this very call wrote. */
  ghost predicate CreatedBy(s: Sys, request: Submit, call: CallId) {
    && request.id in s.creator && s.creator[request.id] == call
    && request.id in s.ledger.db.rows
    && SameRequest(request.ToRow(), s.ledger.db.rows[request.id])
  }

  ghost predicate IsReceiptOf(s: Sys, id: OpId, row: Row) {
    id in s.ledger.db.rows && SameRequest(row, s.ledger.db.rows[id])
  }

  ghost predicate Inv(s: Sys) {
    && Ledger.Inv(s.ledger)
    && s.creator.Keys <= s.ledger.db.rows.Keys
    && forall call <- s.calls :: CallOk(s, call)
  }

  lemma CallOkIsStable(s: Sys, t: Sys, call: CallId)
    requires call in s.calls && CallOk(s, call)
    requires call in t.calls && t.calls[call] == s.calls[call]
    requires Ledger.Extends(s.ledger.db, t.ledger.db)
    requires forall id <- s.creator :: id in t.creator && t.creator[id] == s.creator[id]
    ensures CallOk(t, call)
  {
  }

  lemma NextKeepsInv(s: Sys, step: Step, t: Sys)
    requires Inv(s) && Next(s, step, t)
    ensures Inv(t) && Ledger.Extends(s.ledger.db, t.ledger.db)
  {
    match step
    case Start(_, _) =>
      OtherCallsAreKept(s, t, step.call);
    case Lookup(_, _) =>
      OtherCallsAreKept(s, t, step.call);
    case Create(_, outcome) =>
      CreateKeepsInv(s, step.call, outcome, t);
    case Reread(_, _) =>
      OtherCallsAreKept(s, t, step.call);
    case Elsewhere(inner) =>
      Ledger.NextKeepsInv(s.ledger, inner, t.ledger);
      forall call <- t.calls ensures CallOk(t, call) {
        CallOkIsStable(s, t, call);
      }
  }

  lemma OtherCallsAreKept(s: Sys, t: Sys, moved: CallId)
    requires Inv(s)
    requires moved in t.calls && t.calls == s.calls[moved := t.calls[moved]]
    requires Ledger.Extends(s.ledger.db, t.ledger.db)
    requires forall id <- s.creator :: id in t.creator && t.creator[id] == s.creator[id]
    ensures forall call <- t.calls :: call != moved ==> CallOk(t, call)
  {
    forall call <- t.calls | call != moved ensures CallOk(t, call) {
      CallOkIsStable(s, t, call);
    }
  }

  lemma CreateKeepsInv(s: Sys, call: CallId, outcome: CommitOutcome, t: Sys)
    requires Inv(s) && InPhase(s, call, Creating) && CreateStep(s, call, outcome, t)
    ensures Inv(t) && Ledger.Extends(s.ledger.db, t.ledger.db)
  {
    if outcome.Acknowledged? || outcome.ReplyLost? {
      CreateExtendsLedger(s, call, outcome, t);
    }
    OtherCallsAreKept(s, t, call);
  }

  lemma CreateExtendsLedger(s: Sys, call: CallId, outcome: CommitOutcome, t: Sys)
    requires Inv(s) && InPhase(s, call, Creating) && CreateStep(s, call, outcome, t)
    requires outcome.Acknowledged? || outcome.ReplyLost?
    ensures Ledger.Inv(t.ledger) && Ledger.Extends(s.ledger.db, t.ledger.db)
    ensures s.calls[call].request.id !in s.creator
  {
    var request := s.calls[call].request;
    var txn := Ledger.Txn.Create(request.id, request.ToRow());
    ExecuteKeepsChain(s.ledger.db, txn);
    forall other <- t.ledger.issued ensures TxnOk(t.ledger.db, other) {
      TxnOkIsStable(s.ledger.db, t.ledger.db, other);
    }
  }

  // ------------------------------------------------------------- Theorems

  ghost predicate IsRun(run: seq<Sys>, steps: seq<Step>) {
    && |run| == |steps| + 1
    && run[0] == Sys.Sys(Ledger.Sys.Sys(Ledger.EMPTY, {}), map[], map[])
    && forall i :: 0 <= i < |steps| ==> Next(run[i], steps[i], run[i + 1])
  }

  lemma {:induction false} InvAlways(run: seq<Sys>, steps: seq<Step>, i: nat)
    requires IsRun(run, steps) && i < |run|
    ensures Inv(run[i])
  {
    if i > 0 {
      InvAlways(run, steps, i - 1);
      NextKeepsInv(run[i - 1], steps[i - 1], run[i]);
    }
  }

  /** At most one call is ever told that it created an operation. */
  lemma CreatedIsToldOnce(run: seq<Sys>, steps: seq<Step>, i: nat, first: CallId, second: CallId)
    requires IsRun(run, steps) && i < |run|
    requires first in run[i].calls && second in run[i].calls
    requires run[i].calls[first].request.id == run[i].calls[second].request.id
    requires run[i].calls[first].phase.Replied? && run[i].calls[first].phase.reply.Receipt?
    requires run[i].calls[second].phase.Replied? && run[i].calls[second].phase.reply.Receipt?
    ensures run[i].calls[first].phase.reply.created && run[i].calls[second].phase.reply.created ==> first == second
  {
    InvAlways(run, steps, i);
    assert CallOk(run[i], first) && CallOk(run[i], second);
  }

  /** Every receipt carries its own caller's hash, every conflict another one, and
      both show the operation's one row as it was submitted and still is. */
  lemma RepliesCarryTheCallersHash(run: seq<Sys>, steps: seq<Step>, i: nat, call: CallId)
    requires IsRun(run, steps) && i < |run|
    requires call in run[i].calls && run[i].calls[call].phase.Replied?
    ensures var request := run[i].calls[call].request;
            var reply := run[i].calls[call].phase.reply;
            var rows := run[i].ledger.db.rows;
            !reply.StorageError? ==>
              && request.id in rows
              && SameRequest(reply.row, rows[request.id])
              && (reply.Receipt? <==> rows[request.id].payloadHash == request.payloadHash)
              && (reply.Receipt? && reply.created ==>
                    && rows[request.id].kind == request.kind && rows[request.id].dependencies == request.dependencies
                    && rows[request.id].payload == request.payload)
  {
    InvAlways(run, steps, i);
    assert CallOk(run[i], call);
  }

  /** Once a row is there it is never created again and keeps what it was created with. */
  lemma {:induction false} RowIsCreatedOnce(run: seq<Sys>, steps: seq<Step>, i: nat, j: nat, id: OpId)
    requires IsRun(run, steps) && i <= j < |run|
    requires id in run[i].ledger.db.rows
    ensures id in run[j].ledger.db.rows
    ensures SameRequest(run[i].ledger.db.rows[id], run[j].ledger.db.rows[id])
    ensures run[i].ledger.db.rows[id].progressSeq <= run[j].ledger.db.rows[id].progressSeq
    decreases j - i
  {
    if i < j {
      RowIsCreatedOnce(run, steps, i, j - 1, id);
      InvAlways(run, steps, j - 1);
      NextKeepsInv(run[j - 1], steps[j - 1], run[j]);
    }
  }

  /** The transaction of `call` was committed and acknowledged before step `i`. */
  ghost predicate WasAcknowledged(steps: seq<Step>, i: nat, call: CallId) {
    exists j :: 0 <= j < i && j < |steps| && steps[j] == Step.Create(call, Acknowledged)
  }

  /** What a call knows of its own commit. */
  ghost predicate KnowsItsCommit(s: Sys, call: CallId, acknowledged: bool) {
    if call !in s.calls then !acknowledged
    else
      match s.calls[call].phase
      case Confirming => acknowledged
      case Replied(Receipt(_, created)) => created <==> acknowledged
      case Replied(Conflict(_)) => !acknowledged
      case Replied(StorageError) => true
      case _ => !acknowledged
  }

  lemma NextKeepsKnowledge(s: Sys, step: Step, t: Sys, call: CallId, acknowledged: bool)
    requires Inv(s) && Next(s, step, t) && KnowsItsCommit(s, call, acknowledged)
    ensures KnowsItsCommit(t, call, acknowledged || step == Step.Create(call, Acknowledged))
  {
    if call in s.calls {
      assert CallOk(s, call);
    }
  }

  lemma {:induction false} CommitIsKnown(run: seq<Sys>, steps: seq<Step>, i: nat, call: CallId)
    requires IsRun(run, steps) && i < |run|
    ensures KnowsItsCommit(run[i], call, WasAcknowledged(steps, i, call))
  {
    if i > 0 {
      CommitIsKnown(run, steps, i - 1, call);
      InvAlways(run, steps, i - 1);
      NextKeepsKnowledge(run[i - 1], steps[i - 1], run[i], call, WasAcknowledged(steps, i - 1, call));
      hide Next, Inv, KnowsItsCommit;
      assert WasAcknowledged(steps, i, call) <==>
          WasAcknowledged(steps, i - 1, call) || steps[i - 1] == Step.Create(call, Acknowledged);
    }
  }

  /** A receipt says "created" exactly if its own call's commit was acknowledged: the
      creator is told, unless the reply to the commit was lost, and nobody else is. */
  lemma CreatorIsTold(run: seq<Sys>, steps: seq<Step>, i: nat, call: CallId)
    requires IsRun(run, steps) && i < |run|
    requires call in run[i].calls && run[i].calls[call].phase.Replied?
    requires !run[i].calls[call].phase.reply.StorageError?
    ensures var reply := run[i].calls[call].phase.reply;
            reply.Receipt? && reply.created <==> WasAcknowledged(steps, i, call)
  {
    CommitIsKnown(run, steps, i, call);
  }

  /** In step `j` the call could not read the row, or found none after a failed commit. */
  ghost predicate CannotRead(run: seq<Sys>, steps: seq<Step>, j: nat, call: CallId)
    requires j < |run| && j < |steps|
  {
    || steps[j] == Lookup(call, false)
    || steps[j] == Reread(call, false)
    || (steps[j] == Reread(call, true) && InPhase(run[j], call, Recovering)
        && run[j].calls[call].request.id !in run[j].ledger.db.rows)
  }

  /** A call gets an error only for a read that failed, or for a commit that failed and
      left no row; whoever can read the row is told about it. */
  lemma {:induction false} ErrorsHaveACause(run: seq<Sys>, steps: seq<Step>, i: nat, call: CallId)
    requires IsRun(run, steps) && i < |run|
    requires InPhase(run[i], call, Replied(StorageError))
    ensures exists j :: 0 <= j < i && CannotRead(run, steps, j, call)
  {
    var s, step := run[i - 1], steps[i - 1];
    assert Next(s, step, run[i]);
    if InPhase(s, call, Replied(StorageError)) {
      ErrorsHaveACause(run, steps, i - 1, call);
    } else {
      InvAlways(run, steps, i - 1);
      assert CallOk(s, call);
      assert CannotRead(run, steps, i - 1, call);
    }
  }
}
