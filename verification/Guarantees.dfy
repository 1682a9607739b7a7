/** What the coordinator, the operators and the submitters guarantee over every run,
    whatever fails and wherever the process crashes. `src/operations.rs`. */
module Guarantees {
  import opened Basics
  import opened Ledger
  import opened Dependencies
  import opened Lifecycle
  import opened Coordinator
  import opened Invariant
  import opened Preservation
  import Planner

  // ------------------------------------------------------ The ledger's history

  /** What a ticketed transaction does, if anything, is a change the lifecycle allows. */
  lemma TicketIsChange(embed: Embedder, w: World, ticket: Txn, id: OpId, update: Update) returns (change: Change)
    requires WorldOk(embed, w) && TicketOk(w.db, ticket, id, update)
    requires id in w.db.rows && !w.db.rows[id].state.IsTerminal() ==> MayUpdate(w, id, update)
    ensures IsChange(w.db, change, if Execute(w.db, ticket).Some? then Execute(w.db, ticket).value else w.db)
  {
    if Execute(w.db, ticket).Some? {
      hide TablesOk, Orderly;
      OrderlyIsHealthy(w.db);
      TicketApplies(w.db, ticket, id, update);
      change := Change.Transition(id, update);
    } else {
      change := NoChange;
    }
  }

  lemma MoveIsChange(embed: Embedder, w: World, job: Job, update: Update, ticket: Option<Txn>) returns (change: Change)
    requires WorldOk(embed, w) && MovingOk(w, job, update, ticket)
    ensures IsChange(w.db, change, MoveOn(w, job, update, ticket).0.db)
  {
    change := NoChange;
    if ticket.Some? {
      hide TablesOk, Orderly;
      OrderlyIsHealthy(w.db);
      IssuedIsTicket(w.db, job.id, update);
      change := TicketIsChange(embed, w, ticket.value, job.id, update);
    }
  }

  lemma AdvanceIsChange(embed: Embedder, w: World, stage: Stage, answer: Answer) returns (change: Change)
    requires WorldOk(embed, w) && StageOk(embed, w, stage)
    ensures IsChange(w.db, change, Advance(embed, w, stage, answer).0.db)
  {
    change := NoChange;
    if stage.Working? && stage.at.Moving? {
      change := MoveIsChange(embed, w, stage.job, stage.at.update, stage.at.ticket);
    } else if stage.Rejecting? && stage.ticket.Some? {
      hide WorldOk;
      if !w.db.rows[stage.id].state.IsTerminal() {
        RejectionMayApply(embed, w, stage.id, ToRejectedForGood(stage.message));
      }
      change := TicketIsChange(embed, w, stage.ticket.value, stage.id, ToRejectedForGood(stage.message));
    } else if stage.NoteMoving? && stage.ticket.Some? {
      hide WorldOk;
      if !w.db.rows[stage.id].state.IsTerminal() {
        NoteMayApply(embed, w, stage.id, stage.update);
      }
      change := TicketIsChange(embed, w, stage.ticket.value, stage.id, stage.update);
    } else {
      hide WorldOk, StageOk;
    }
  }

  lemma OperateIsChange(embed: Embedder, w: World, operator: Operator) returns (change: Change)
    requires WorldOk(embed, w) && OperatorOk(w, operator)
    ensures IsChange(w.db, change, Operate(w, operator).0.db)
  {
    change := NoChange;
    hide WorldOk;
    if operator.Sending? && operator.ticket.Some? {
      var update := ToRejectedByOperator(operator.reason);
      if !w.db.rows[operator.id].state.IsTerminal() {
        RejectionMayApply(embed, w, operator.id, update);
      }
      change := TicketIsChange(embed, w, operator.ticket.value, operator.id, update);
    }
  }

  lemma StepIsChange(embed: Embedder, s: System, action: Action, t: System) returns (change: Change)
    requires SystemInv(embed, s) && Acts(embed, s, action, t)
    ensures IsChange(s.w.db, change, t.w.db)
  {
    hide WorldOk, StageOk, OperatorOk, Advance, Operate;
    change := NoChange;
    match action
    case Submit(id, row) => change := Creation(id, row);
    case Go(answer) => change := AdvanceIsChange(embed, s.w, s.stage, answer);
    case Fault(applied, answer) =>
      if applied {
        change := AdvanceIsChange(embed, s.w, s.stage, answer);
      }
    case OperatorGoes => change := OperateIsChange(embed, s.w, s.operator);
    case OperatorFails(applied) =>
      if applied {
        change := OperateIsChange(embed, s.w, s.operator);
      }
    case _ =>
  }

  ghost function Ledgers(run: seq<System>): seq<Db> {
    seq(|run|, i requires 0 <= i < |run| => run[i].w.db)
  }

  /** The ledger of every run goes through a history of allowed changes, so whatever
      holds of those holds here. */
  lemma {:induction false} RunIsHistory(embed: Embedder, run: seq<System>, actions: seq<Action>)
    returns (changes: seq<Change>)
    requires IsSystemRun(embed, run, actions)
    ensures IsHistory(Ledgers(run), changes)
  {
    hide SystemInv, Acts, IsChange;
    var n := |actions|;
    if n == 0 {
      changes := [];
    } else {
      var before := RunIsHistory(embed, run[..n], actions[..n - 1]);
      InvAlways(embed, run, actions, n - 1);
      assert Acts(embed, run[n - 1], actions[n - 1], run[n]);
      var last := StepIsChange(embed, run[n - 1], actions[n - 1], run[n]);
      changes := before + [last];
      HistoryGoesOn(Ledgers(run[..n]), before, last, run[n].w.db);
      assert Ledgers(run) == Ledgers(run[..n]) + [run[n].w.db];
    }
  }

  lemma HistoryGoesOn(run: seq<Db>, changes: seq<Change>, last: Change, db: Db)
    requires IsHistory(run, changes) && IsChange(run[|run| - 1], last, db)
    ensures IsHistory(run + [db], changes + [last])
  {
    hide IsChange;
    forall i | 0 <= i < |changes| + 1 ensures IsChange((run + [db])[i], (changes + [last])[i], (run + [db])[i + 1]) {
      if i < |changes| {
        assert IsChange(run[i], changes[i], run[i + 1]);
      }
    }
  }

  // ---------------------------------------- Rejected and stored exclude each other

  /** No add_memory operation that is rejected, by an operator, by validation or after
      a permanent failure, has its memory stored, then or ever after; a committed one has. */
  lemma RejectionExcludesStorage(embed: Embedder, run: seq<System>, actions: seq<Action>, i: nat, j: nat, id: OpId)
    requires IsSystemRun(embed, run, actions) && i <= j < |run|
    requires id in run[i].w.db.rows && run[i].w.db.rows[id].kind.AddMemory?
    ensures id in run[j].w.db.rows
    ensures run[i].w.db.rows[id].state.Rejected? ==> id !in run[j].w.memories
    ensures run[i].w.db.rows[id].state.Committed? ==> id in run[j].w.memories
  {
    InvAlways(embed, run, actions, i);
    InvAlways(embed, run, actions, j);
    var changes := RunIsHistory(embed, run, actions);
    HistoryExtends(Ledgers(run), changes, i, j);
    var before, after := Ledgers(run)[i], Ledgers(run)[j];
    assert Extends(before, after) && before == run[i].w.db && after == run[j].w.db;
    assert HasMemory(run[j].w, id);
    assert id in run[j].w.memories ==> MemoryOk(embed, run[j].w, id);
  }

  // ------------------------------------------------------- Plans and embeddings

  /** The plan stays the same and embeddings that are there stay. */
  ghost predicate KeepsParts(before: seq<StoredPart>, after: seq<StoredPart>) {
    && PlanOf(after) == PlanOf(before)
    && forall k :: 0 <= k < |before| && k < |after| && before[k].embedding.Some? ==> after[k] == before[k]
  }

  ghost predicate KeepsAllParts(w: World, t: World) {
    forall id {:trigger w.parts[id]} {:trigger t.parts[id]} | id in w.parts ::
      id in t.parts && KeepsParts(w.parts[id], t.parts[id])
  }

  lemma AdvanceKeepsParts(embed: Embedder, w: World, stage: Stage, answer: Answer)
    requires WorldOk(embed, w) && StageOk(embed, w, stage)
    ensures KeepsAllParts(w, Advance(embed, w, stage, answer).0)
  {
    if stage.Working? && stage.at.Marking? {
      hide WorldOk;
      MarkIsOne(stage.job.parts, stage.at.k, stage.at.vector);
      hide Marked, Planner.IsStoredPlan, PlanOf;
    } else {
      hide WorldOk, StageOk, AsPlanned;
    }
  }

  lemma StepKeepsParts(embed: Embedder, s: System, action: Action, t: System)
    requires SystemInv(embed, s) && Acts(embed, s, action, t)
    ensures KeepsAllParts(s.w, t.w)
  {
    hide WorldOk, StageOk, OperatorOk, Advance;
    match action
    case Go(answer) => AdvanceKeepsParts(embed, s.w, s.stage, answer);
    case Fault(_, answer) => AdvanceKeepsParts(embed, s.w, s.stage, answer);
    case _ =>
  }

  lemma KeepsPartsIsTransitive(a: seq<StoredPart>, b: seq<StoredPart>, c: seq<StoredPart>)
    requires KeepsParts(a, b) && KeepsParts(b, c)
    ensures KeepsParts(a, c)
  {
    assert |PlanOf(a)| == |PlanOf(b)| == |PlanOf(c)|;
    forall k | 0 <= k < |a| && k < |c| && a[k].embedding.Some? ensures c[k] == a[k] {
      assert b[k] == a[k];
    }
  }

  /** The first plan persisted for an operation is the only one it ever has, and a part
      marked indexed keeps its embedding, through all failures and crashes. */
  lemma {:induction false} FirstPlanStays(
    embed: Embedder, run: seq<System>, actions: seq<Action>, i: nat, j: nat, id: OpId)
    requires IsSystemRun(embed, run, actions) && i <= j < |run| && id in run[i].w.parts
    ensures id in run[j].w.parts && KeepsParts(run[i].w.parts[id], run[j].w.parts[id])
    decreases j - i
  {
    if i < j {
      FirstPlanStays(embed, run, actions, i, j - 1, id);
      InvAlways(embed, run, actions, j - 1);
      StepKeepsParts(embed, run[j - 1], actions[j - 1], run[j]);
      hide KeepsParts, SystemInv, Acts;
      KeepsPartsIsTransitive(run[i].w.parts[id], run[j - 1].w.parts[id], run[j].w.parts[id]);
    }
  }

  /** The embedder is called for part `k` of an operation. */
  predicate IsEmbedding(s: System, id: OpId, k: nat) {
    && s.stage.Working? && s.stage.at == Embedding(k) && s.stage.job.id == id
    && k < |s.stage.job.parts| && s.stage.job.parts[k].embedding.None?
  }

  /** Once a part is indexed it is never embedded again. */
  lemma IndexedIsNotEmbeddedAgain(
    embed: Embedder, run: seq<System>, actions: seq<Action>, i: nat, j: nat, id: OpId, k: nat)
    requires IsSystemRun(embed, run, actions) && i <= j < |run| && id in run[i].w.parts
    requires k < |run[i].w.parts[id]| && run[i].w.parts[id][k].embedding.Some?
    ensures !IsEmbedding(run[j], id, k)
  {
    FirstPlanStays(embed, run, actions, i, j, id);
    InvAlways(embed, run, actions, j);
    assert |PlanOf(run[j].w.parts[id])| == |PlanOf(run[i].w.parts[id])|;
    if run[j].stage.Working? {
      assert AtOk(embed, run[j].w, run[j].stage.job, run[j].stage.at);
    }
  }

  /** Indexed and Committed mean that every part is indexed. */
  lemma IndexedMeansAllParts(embed: Embedder, run: seq<System>, actions: seq<Action>, i: nat, id: OpId)
    requires IsSystemRun(embed, run, actions) && i < |run|
    requires id in run[i].w.db.rows && NeedsMemory(run[i].w.db.rows[id], run[i].w.db.rows[id].state)
    ensures id in run[i].w.parts && run[i].w.parts[id] != [] && AllIndexed(run[i].w.parts[id])
  {
    InvAlways(embed, run, actions, i);
    assert HasMemory(run[i].w, id) && MemoryOk(embed, run[i].w, id) && PartsOk(embed, run[i].w.parts[id]);
  }

  /** A memory of the whole content, with the embedding of each part of the plan in order
      and the highest token end, of 32 bits, as its token count, if any part has tokens. */
  ghost predicate IsMemoryOf(embed: Embedder, content: string, plan: seq<PlanPart>, memory: Memory) {
    && memory.content == content
    && |memory.vectors| == |plan|
    && (forall i :: 0 <= i < |plan| ==> memory.vectors[i] == embed(plan[i].content))
    && (memory.tokenCount.None? <==> forall part <- plan :: part.tokenEnd == 0)
    && (memory.tokenCount.Some? ==>
          && (forall part <- plan :: part.tokenEnd <= memory.tokenCount.value)
          && memory.tokenCount.value <= 0xFFFF_FFFF
          && exists part <- plan :: part.tokenEnd == memory.tokenCount.value)
  }

  lemma UninterruptedIs(embed: Embedder, content: string, plan: seq<PlanPart>)
    requires Planner.MaxEnd(plan) <= U32_MAX
    ensures IsMemoryOf(embed, content, plan, Uninterrupted(embed, content, plan))
  {
    HighestEnd(plan);
  }

  lemma {:induction false} HighestEnd(plan: seq<PlanPart>)
    ensures forall part <- plan :: part.tokenEnd <= Planner.MaxEnd(plan)
    ensures Planner.MaxEnd(plan) > 0 ==> exists part <- plan :: part.tokenEnd == Planner.MaxEnd(plan)
  {
    if plan != [] {
      HighestEnd(plan[..|plan| - 1]);
      assert plan == plan[..|plan| - 1] + [plan[|plan| - 1]];
    }
  }

  /** Whatever failed or crashed in between, the memory stored for an operation is the
      one an uninterrupted run stores from the first plan ever persisted for it, and
      it never changes. */
  lemma StoredAsIfUninterrupted(
    embed: Embedder, run: seq<System>, actions: seq<Action>, i: nat, j: nat, id: OpId)
    requires IsSystemRun(embed, run, actions) && i <= j < |run|
    requires id in run[i].w.parts && id in run[j].w.memories
    ensures id in run[i].w.db.rows && run[i].w.db.rows[id].payload.Request?
    ensures run[j].w.memories[id]
         == Uninterrupted(embed, run[i].w.db.rows[id].payload.content, PlanOf(run[i].w.parts[id]))
    ensures IsMemoryOf(
              embed, run[i].w.db.rows[id].payload.content, PlanOf(run[i].w.parts[id]), run[j].w.memories[id])
  {
    hide Uninterrupted, Acts;
    FirstPlanStays(embed, run, actions, i, j, id);
    InvAlways(embed, run, actions, i);
    InvAlways(embed, run, actions, j);
    var changes := RunIsHistory(embed, run, actions);
    HistoryExtends(Ledgers(run), changes, i, j);
    var before, after := Ledgers(run)[i], Ledgers(run)[j];
    assert Extends(before, after) && before == run[i].w.db && after == run[j].w.db;
    assert MemoryOk(embed, run[j].w, id);
    UninterruptedIs(embed, run[i].w.db.rows[id].payload.content, PlanOf(run[i].w.parts[id]));
  }

  // ------------------------------------------------ The lifecycle, for every run

  /** Everything past the dependency check has its dependencies committed, and the
      step that took it there found them so. */
  lemma DependenciesPrecede(embed: Embedder, run: seq<System>, actions: seq<Action>, i: nat, id: OpId)
    requires IsSystemRun(embed, run, actions) && i < |run| && HasPassed(run[i].w.db, id)
    ensures AllCommitted(run[i].w.db, run[i].w.db.rows[id].dependencies)
    ensures i > 0 && !HasPassed(run[i - 1].w.db, id) ==>
              id in run[i - 1].w.db.rows && AllCommitted(run[i - 1].w.db, run[i - 1].w.db.rows[id].dependencies)
  {
    InvAlways(embed, run, actions, i);
    assert IsHeld(run[i].w.db, id);
    if i > 0 && !HasPassed(run[i - 1].w.db, id) {
      var changes := RunIsHistory(embed, run, actions);
      DependenciesCommitFirst(Ledgers(run), changes, i - 1, id);
    }
  }

  /** An operation on a dependency cycle, or with a missing or rejected dependency, has
      never been past the dependency check. */
  lemma StuckOperationsNeverPass(
    embed: Embedder, run: seq<System>, actions: seq<Action>, n: nat, i: nat, stuck: set<OpId>, id: OpId)
    requires IsSystemRun(embed, run, actions) && i <= n < |run| && id in stuck
    requires forall other <- stuck :: IsStuck(run[n].w.db, stuck, other)
    ensures !HasPassed(run[i].w.db, id)
  {
    var changes := RunIsHistory(embed, run, actions);
    StuckNeverPass(Ledgers(run), changes, n, i, stuck, id);
  }

  /** In every run receipts are complete and every event tells its step: blockers are
      shown exactly while an operation is blocked, a result exactly once it is indexed,
      and an error exactly while it is paused or rejected, the one its last event tells. */
  lemma ReceiptsAreComplete(embed: Embedder, run: seq<System>, actions: seq<Action>, i: nat, id: OpId)
    requires IsSystemRun(embed, run, actions) && i < |run| && id in run[i].w.db.rows
    ensures forall k :: 1 <= k <= run[i].w.db.rows[id].progressSeq ==> (id, k) in run[i].w.db.events
    ensures (id, run[i].w.db.rows[id].progressSeq) in run[i].w.db.events
    ensures var row := run[i].w.db.rows[id];
            var last := run[i].w.db.events[(id, row.progressSeq)].detail;
            && (row.blockedBy != [] <==> row.state.Blocked?)
            && (row.result.Some? <==> row.state.Indexed? || row.state.Committed?)
            && (row.error.Some? <==> row.state.Rejected? || last.Paused?)
            && IsErrorOf(row.error, last)
    ensures forall k :: 1 <= k <= run[i].w.db.rows[id].progressSeq ==>
              IsTold(run[i].w.db.events[(id, k)].toState, run[i].w.db.events[(id, k)].detail)
  {
    InvAlways(embed, run, actions, i);
    var db := run[i].w.db;
    assert OpOk(db, id) && OpChained(db, id);
    assert IsTold(db.events[(id, db.rows[id].progressSeq)].toState, db.events[(id, db.rows[id].progressSeq)].detail);
    forall k | 1 <= k <= db.rows[id].progressSeq ensures (id, k) in db.events {
      assert EventOk(db, id, k);
    }
  }

  /** In every run an event that tells a plan tells the one the operation has: its number
      of parts and its highest token end. */
  lemma PlanEventsTellThePlan(embed: Embedder, run: seq<System>, actions: seq<Action>, i: nat, id: OpId, k: nat)
    requires IsSystemRun(embed, run, actions) && i < |run|
    requires (id, k) in run[i].w.db.events && run[i].w.db.events[(id, k)].detail.PlanSummary?
    ensures id in run[i].w.parts
    ensures run[i].w.db.events[(id, k)].detail
         == PlanSummary(|run[i].w.parts[id]|, Planner.MaxEnd(PlanOf(run[i].w.parts[id])))
  {
    InvAlways(embed, run, actions, i);
    assert (id, k) in run[i].w.db.events.Keys && id in run[i].w.db.rows;
    assert SummariesOk(run[i].w, id);
  }

  /** In every run only valid requests get past the dependency check: whatever is
      scheduled, indexed or committed parsed and passed its own validation. */
  lemma OnlyValidRequestsPass(embed: Embedder, run: seq<System>, actions: seq<Action>, i: nat, id: OpId)
    requires IsSystemRun(embed, run, actions) && i < |run| && HasPassed(run[i].w.db, id)
    ensures run[i].w.db.rows[id].payload.Request? && run[i].w.db.rows[id].payload.wellFormed
  {
    InvAlways(embed, run, actions, i);
    assert OpOk(run[i].w.db, id);
  }

  /** Each step leaves a row alone, notes an error, moves it to a later state, or
      blocks it again by a proper part of what blocked it; and an operation with D
      distinct dependencies never has more than D + 6 events that are not error notes.
      The state never goes back, over any stretch of the run. */
  lemma LifecycleOfRuns(embed: Embedder, run: seq<System>, actions: seq<Action>, i: nat, j: nat, id: OpId)
    requires IsSystemRun(embed, run, actions) && i < |actions| && i <= j < |run| && id in run[i].w.db.rows
    ensures id in run[j].w.db.rows && Rank(run[i].w.db.rows[id].state) <= Rank(run[j].w.db.rows[id].state)
    ensures id in run[i + 1].w.db.rows && IsRowStep(run[i].w.db, run[i + 1].w.db, id)
    ensures var row := run[i].w.db.rows[id];
            Moves(run[i].w.db, id, row.progressSeq) <= |Elements(row.dependencies)| + 6
  {
    var changes := RunIsHistory(embed, run, actions);
    LifecycleIsOrdered(Ledgers(run), changes, i, id);
    RankNeverDrops(Ledgers(run), changes, i, j, id);
    EventsAreBounded(Ledgers(run), changes, i, id);
  }
}
