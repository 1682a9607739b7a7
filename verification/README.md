# Verified models of the operation ledger, executor supervision, window planner and compression gate

The server accepts memory operations into a durable ledger, works them off with one
coordinator, embeds their text in a supervised child process, and condenses groups
of memories into summaries that a deterministic gate has to accept. This project
models those four parts in Dafny and proves what they promise. Run
`dafny verify dfyconfig.toml` in this directory to check all of it.

## How the model is laid out

| File | What it holds |
|---|---|
| `Basics.dfy` | Option and Result |
| `Ledger.dfy` | rows, numbered events, the two transactions, and any interleaving of reads and commits by any number of writers |
| `Dependencies.dfy` | blocker lists, and what one undisturbed read and commit does |
| `Lifecycle.dfy` | the order in which an operation goes through its states, over whole histories of a ledger |
| `Submission.dfy` | concurrent calls of `submit` with lost, failed and delayed commits |
| `EventStream.dfy` | the loop of `event_stream`, and its interleavings with commits and publications |
| `Fixpoint.dfy` | the set of operations reconciliation should commit, and when a ledger in the middle of a drain is on its way there |
| `Drain.dfy` | the work list as a class with loops: `drain_pending`, `reconcile_nonterminal`, `process` |
| `Coordinator.dfy` | the coordinator, the operators and the submitters as a state machine between awaits |
| `Invariant.dfy`, `Preservation.dfy` | what holds at every moment of such a run, and why every step keeps it |
| `Guarantees.dfy` | what follows for whole runs with failures and crashes anywhere |
| `Progress.dfy`, `Outcomes.dfy` | what becomes of an operation once nothing fails: it commits, is blocked, refused, given up, noted or rejected by an operator |
| `Executor.dfy` | parent and child over two pipes, and the supervising class |
| `Planner.dfy` | the Rust and the Swift planner as two loops against one specification |
| `Text.dfy`, `Splitting.dfy`, `Contract.dfy`, `Summarizer.dfy`, `Budget.dfy`, `Gate.dfy`, `Extractive.dfy` | sentence splitting, extraction, claim validation, merging and the budget loop |
| `Backing.dfy` | what the gate's acceptance means in terms of words and quotes |

Conventions that hold throughout:

* A database call that comes back with an error has either taken effect already or
  never will. The submission model is weaker still: there a failed commit may also
  take effect later.
* The database is a map with unique keys and atomic transactions. An operation id
  stands for its record key, because `record_key` is injective. Ids are natural
  numbers; only equality and order are used.
* A timeout, a lost reply, a dead connection and an executor error are all the same
  nondeterministic failure of an await. A crash forgets everything but the database.
* `Coordinator.dfy` and `Drain.dfy` describe the same coordinator at two grains. The
  first has a step for every await, with the part and memory tables and with
  crashes. The second has the loops, and stands for the pipeline by whether it ends
  in a permanent failure (`Fate.works`). Its ghost fields record the calls that failed
  (`faults`) and name the operations left after an interruption (`paused`); operators
  may reject at every await.
* The embedder is a function of the text. The planner is a function of the text in
  `Planner.dfy` and free to answer differently every time in `Coordinator.dfy`.

## Where the code does less than one might expect

* **Live events can have gaps.** A live event is passed on without comparing its
  number with the one before. `EventStream.GapFreeExactlyWhenNoneOvertakes` gives the
  exact condition on the order of arrival, `OvertakenEventIsLost` and
  `UnpublishedCommitIsAGap` give a lost event each, and `StreamIsComplete` covers
  publication in commit order.
* **A short text is planned without being re-encoded.** The one-part path compares
  token counts only, so its part can exceed the capacity
  (`Planner.ShortTextMayNotFit`). `Planner.PlansFitAtCapacity` says for which texts
  every plan fits a given capacity, `Planner.PlansFitExactlyWhen` for which every plan
  fits whatever the capacity.
* **Extracted claims can be refused for a short quote, and only for that.**
  `Extractive.ExtractIsAcceptedExactlyWhen` is the equivalence,
  `Extractive.ShortExtractIsRefused` a memory whose claim is refused.
* **A changed plan is not a permanent failure.** `persist_plan` reports a plain error,
  so the operation is paused and tried again; the model does the same
  (`Coordinator.Persist`).

## Model

| member | source | states |
|---|---|---|
| `Ledger.ExecuteKeepsChain` | src/operations.rs:969-1040 | a transaction issued at any earlier time, if it commits at all, keeps every event log chained and only extends the ledger |
| `Ledger.OnlyTheNextNumberIsFree` | src/operations.rs:1003-1023 | the unique event key is an optimistic lock: a transition commits exactly when its number is the row's next one, and then it had read the row's present state |
| `Ledger.EventLogIsChained` | src/operations.rs:969-1040 | for any interleaving of any number of writers, every log is exactly 1..progress_seq, each event starts in the state the one before ended in, and the row is in the last state |
| `Ledger.RacingWritersNeverBothCommit` | crates/surreal-memory/src/storage/migrations/mod.rs:459-460 | over any run and any number of writers, of all transactions that read the same version of a row, or create it, only the first one sent can have an effect |
| `Ledger.HistoryOnlyGrows` | src/operations.rs:980-987 | no event or request is ever rewritten, and a Committed or Rejected row never changes again |
| `Ledger.HistoryAfterIsContiguous` | src/operations.rs:950-967 | a history lookup finds all numbers above the given one and no others |
| `Submission.CreatedIsToldOnce` | src/operations.rs:738-848 | for any interleaving of submits with ambiguous commits at most one caller is told that it created the operation |
| `Submission.RepliesCarryTheCallersHash` | src/operations.rs:743-755 | a receipt is given exactly for the caller's own payload hash, a conflict for another one, and both show the row as it is; a "created" receipt shows kind, dependencies and payload as submitted |
| `Submission.RowIsCreatedOnce` | src/operations.rs:799-829 | a row is never created twice and keeps its request and payload hash for ever |
| `Submission.CreatorIsTold` | src/operations.rs:738-848 | a receipt says "created" exactly if the caller's own commit was acknowledged |
| `Submission.ErrorsHaveACause` | src/operations.rs:738-848 | a caller gets a storage error only for a read that failed or a failed commit that left no row |
| `EventStream.Follow` | src/operations.rs:1546-1590 | what the stream loop yields for a history, live events and lag back-fills is the one subsequence of arrivals that always rises, and it ends in an error exactly when a back-fill fails before the channel closes |
| `EventStream.YieldsStrictlyIncrease` | src/operations.rs:1561-1582 | no event is yielded twice or out of order, whatever the order of publication |
| `EventStream.GapFreeExactlyWhenNoneOvertakes` | src/operations.rs:1569-1575 | the stream has no gap if and only if no event reaches the subscriber before its predecessor |
| `EventStream.OvertakenEventIsLost` | src/operations.rs:1569-1575 | a concrete arrival order that loses an event |
| `EventStream.StreamIsComplete` | src/operations.rs:1551-1587 | with publication in commit order, any interleaving of subscribe, lookup, commit, publish and lag yields after+1, after+2, … without gap, up to the last commit once drained |
| `EventStream.UnpublishedCommitIsAGap` | src/operations.rs:1010-1036 | a run in which a commit whose reply was lost is never published and missing from the stream |
| `EventStream.LookupReturnsNumbers` | src/operations.rs:950-967 | the history lookup of the stream model is the one of the ledger |
| `Dependencies.SortDedupIs` | src/operations.rs:1050-1051 | sorting and deduplicating gives a strictly sorted list of the same ids |
| `Dependencies.SortedIsUnique` | src/operations.rs:1050-1051 | such a list is determined by its elements, so comparing `blocked_by` lists compares blocker sets |
| `Dependencies.ApplyIsExecute` | src/operations.rs:969-1040 | an undisturbed read and commit of an allowed update always commits, keeps the logs chained and keeps dependencies ahead of dependents |
| `Lifecycle.HistoryIsOrderly` | src/operations.rs:1485-1544 | at every moment of a history logs are in lifecycle order, everything past the dependency check has its dependencies committed, and a blocked row names all that blocks it |
| `Lifecycle.LifecycleIsOrdered` | src/operations.rs:1495-1510 | a step leaves a row alone or records one event for it: an error note, which changes only the error, or any other event, which moves it to the next state (only waiting for dependencies may be left out) or blocks it again by strictly fewer of the same blockers |
| `Lifecycle.EventsAreBounded` | src/operations.rs:1630-1657 | with D distinct dependencies an operation records at most D + 6 events that are not error notes |
| `Lifecycle.StuckNeverPass` | src/operations.rs:1042-1053 | operations that each depend on one of themselves, on a missing or on a rejected one never got past the dependency check at any earlier moment |
| `Fixpoint.SettledIsLeastFixpoint` | src/operations.rs:1379-1449 | once every open operation is blocked by exactly its uncommitted dependencies, the committed set is the least one closed under "not rejected by an operator, all dependencies committed and processing succeeds" |
| `Fixpoint.ApplyKeepsJustified` | src/operations.rs:1485-1544 | every update the coordinator or an operator may send keeps each commit traceable from dependency to dependency back to the start, and each rejection an operator's or a failure's, whatever failed before |
| `Drain.BlockersAreSorted` | src/operations.rs:1042-1053 | blockers collected one read at a time, in any order, are after sorting the `blocked_by` list of the uncommitted dependencies |
| `Drain.SentUpdate` | src/operations.rs:969-1040 | a transition sent after interference commits exactly when its row was left alone |
| `Drain.WaveCounts` | src/operations.rs:1379-1442 | a wave that committed something it queued leaves strictly fewer operations open |
| `Drain.HandledKeepsWave` | src/operations.rs:1385-1420 | as long as no commit was noticed, work on one operation keeps every open operation queued, left after an interruption, or exactly blocked, if the operation was handled or stays to be done, whatever operators rejected meanwhile |
| `Drain.FixpointFromBefore` | src/operations.rs:1444-1449 | rejections between the call and the drain change neither the closed sets nor the least one |
| `Drain.OperationService.Send` | src/operations.rs:1004-1029 | the commit half of `transition`: done and answered, done and not answered, or not done; without a failed call it is refused only when an operator's rejection came first |
| `Drain.OperationService.Transition` | src/operations.rs:969-1040 | success means the row is the old one moved by the update; a terminal row is refused; for the operation in flight only a failed call is an error |
| `Drain.OperationService.DependencyBlockers` | src/operations.rs:1042-1053 | the answer is exactly the uncommitted dependencies, sorted, whatever operators do between the reads |
| `Drain.OperationService.FinishOperation` | src/operations.rs:1828-1857 | success means committed with the given result, an error means a failed call, and every other row is left to the operators |
| `Drain.OperationService.Process` | src/operations.rs:1485-1544 | whatever fails it leaves every other row to the operators; success or a permanent failure means that it blocked, rejected or committed exactly as dependencies, payload and work decide, with a permanent failure only for work that cannot succeed; any other error is the one call that failed |
| `Drain.OperationService.RecordProcessingError` | src/operations.rs:1149-1170 | at most the one row gets the message and a new number, and is otherwise as it was; without a failed call an operation that is still open shows the message; every other row is left to the operators |
| `Drain.OperationService.RejectPermanentFailure` | src/operations.rs:1277-1295 | the row is rejected or at most noted and every other row left to the operators; without a failed call the operation ends terminal |
| `Drain.OperationService.ListNonterminal` | src/operations.rs:928-948 | six queries with operators between them list every operation still open at the end and none that was not open at the start |
| `Drain.OperationService.RunWave` | src/operations.rs:1385-1426 | the inner loop ends for any pattern of failures and keeps the queue and the queued set the same ids (each once, if they began so); it re-queues exactly the operations whose processing hit a recovered connection, each once; it asks for a rescan only if something it queued is committed, and otherwise leaves only interrupted operations unhandled, which then carry an error note if nothing else failed |
| `Drain.OperationService.DrainPending` | src/operations.rs:1379-1442 | the drain ends for any pattern of failures, every rescan counts strictly fewer open operations than the one before, and whatever operators reject it ends with the least fixpoint committed and the rest exactly blocked, if every listing was answered and every interrupted operation handled again or found by a later rescan; that is so whenever the only failed calls are recovered interruptions of first tries |
| `Drain.OperationService.ReconcileNonterminal` | src/operations.rs:1444-1449 | the same fixpoint, stated for the ledger as it was at the call, with operators rejecting during the listing as well as during the drain; it is reached from any ledger if the only failed calls are recovered interruptions of first tries |
| `Invariant.UpdateKeepsWorld` | src/operations.rs:969-1040 | an allowed update keeps ledger, part table and memory table consistent |
| `Invariant.TicketApplies` | src/operations.rs:1003-1023 | a transaction issued at any earlier time aborts, or finds its row open and as read |
| `Preservation.ProceedKeeps` | src/operations.rs:1592-1718 | every step of `process`, `process_add_memory`, `process_task_operation` and `finish_operation` keeps the invariant |
| `Preservation.MarkIsOne` | src/operations.rs:1125-1147 | marking a part by its index changes that part of a validated plan and no other, and not the plan |
| `Preservation.OperateKeeps` | src/operations.rs:1317-1377 | a step of `reject` keeps the invariant and touches no row but its own |
| `Preservation.InvAlways` | src/operations.rs:1379-1544 | the invariant holds at every moment of every run with failures at any await, crashes anywhere, operators and submitters |
| `Guarantees.RunIsHistory` | src/operations.rs:969-1040 | the ledgers of every such run form a history in which each step creates a row or moves an open one to the next state of the lifecycle, past the dependency check only with every dependency committed |
| `Guarantees.OnlyValidRequestsPass` | src/operations.rs:1511-1523 | in every run whatever is past the dependency check has a payload that parses and passes its own validation |
| `Guarantees.ReceiptsAreComplete` | src/operations.rs:969-1040 | in every run a receipt shows blockers exactly while blocked, a result exactly once indexed, and an error exactly while paused or rejected, the one its last event tells; and every event tells the step it records |
| `Guarantees.PlanEventsTellThePlan` | src/operations.rs:1630-1657 | in every run a plan summary in the log gives the number of parts and the highest token end of the persisted plan |
| `Guarantees.RejectionExcludesStorage` | src/operations.rs:1317-1377 | a rejected add_memory operation never has its memory stored, then or later, and a committed one always has |
| `Guarantees.FirstPlanStays` | src/operations.rs:1073-1124 | the first plan persisted for an operation is the only one it ever has, and embeddings once stored stay |
| `Guarantees.IndexedIsNotEmbeddedAgain` | src/operations.rs:1659-1680 | the embedder is never called for a part that was indexed at any earlier moment |
| `Guarantees.IndexedMeansAllParts` | src/operations.rs:1682-1690 | an Indexed or Committed add_memory operation has a plan with every part indexed |
| `Guarantees.StoredAsIfUninterrupted` | src/operations.rs:1592-1718 | through any failures and crashes the stored memory is the one an uninterrupted run stores from the first plan ever persisted, and it never changes: the whole content, the embedding of every part in order, and the highest token end |
| `Guarantees.DependenciesPrecede` | src/operations.rs:1495-1534 | in every run whatever is past the dependency check has its dependencies committed by earlier commits |
| `Guarantees.StuckOperationsNeverPass` | src/operations.rs:1042-1053 | in every run operations on a dependency cycle, or with missing or rejected dependencies, never get past Blocked |
| `Guarantees.LifecycleOfRuns` | src/operations.rs:1495-1534 | in every run each step records for a row an error note that changes only its error, or an event that takes it to the next state or to strictly fewer of the same blockers; no state is skipped or gone back to; and all events but the notes number at most D + 6 |
| `Progress.CommitsUndisturbed` | src/operations.rs:1485-1718 | from whatever state failures and crashes left it in, a valid operation with committed dependencies commits once nothing fails, an add_memory operation with the memory of an uninterrupted run |
| `Outcomes.BlockedUndisturbed` | src/operations.rs:1495-1510 | once nothing fails an open operation with uncommitted dependencies ends blocked by exactly these, with nothing planned or stored |
| `Outcomes.RefusedUndisturbed` | src/operations.rs:1511-1523 | once nothing fails an unblocked operation with an invalid payload ends rejected by its contract, with nothing planned or stored and no other operation touched |
| `Outcomes.GivenUpUndisturbed` | src/operations.rs:1277-1295 | once nothing else fails an operation for which there is no plan ends rejected as a permanent failure with the failure's text |
| `Outcomes.FaultIsNoted` | src/operations.rs:1149-1170 | a call that fails anywhere in the processing or the final rejection ends as an error note on the open operation, unless it shows that error already, and nothing else changes |
| `Outcomes.RejectUndisturbed` | src/operations.rs:1317-1377 | an undisturbed operator rejection takes effect exactly on an open operation that is not indexed and has no memory, with the operator's reason; otherwise nothing changes |
| `Outcomes.InFlightNeverAborts` | src/operations.rs:1317-1377 | in every run a transition of the operation in flight never finds it terminal and never aborts |
| `Outcomes.PersistedPlanIsNotReplaced` | src/operations.rs:1073-1124 | a plan is written only where there is none, and a stored one goes on being used exactly if number, hash and token range of each part agree with the new one |
| `Executor.StreamsStayAligned` | src/executor.rs:583-826 | with callers cancelled at any await and children dying or hanging, a free lock means no child or one with nothing unread, no line is taken for another request's, and every answer is of its own command |
| `Executor.AbandonedOutputIsMisread` | src/executor.rs:91-121 | an abandoned child's next line would be taken for a misaligned stream by any other request, which is why the drop guard retires it |
| `Executor.PublishedNamespaceIsOneInterval` | src/executor.rs:911-921 | the published cache namespaces are none, then one fixed value, then none again |
| `Executor.AnswersMatchPublishedNamespace` | src/executor.rs:454-481 | a child that answers while a namespace is published reported exactly the expected identity, field by field, and the namespace is made of that identity and the child's own part, which is not empty |
| `Executor.LiveChildPublishes` | src/executor.rs:911-921 | unless the CPU is forced a namespace is published while there is a child, exactly if the identity is known and the child named one |
| `Executor.MatchingChildrenAreTaken` | src/executor.rs:386-481 | a child that reports ready is taken exactly if it is the one expected and goes with the namespace published before it, unless the CPU is forced |
| `Executor.InvAlways` | executors/mlx/Sources/SurrealMemoryMLXExecutor/main.swift:85-125 | parent and child, with its heartbeat drained before each terminal line, stay in step over every run |
| `Executor.SuccessIsOwnCompletion` | src/executor.rs:615-776 | the read loop succeeds exactly when the first line that is not its own progress is its own completion |
| `Executor.FailuresAreToldApart` | src/executor.rs:615-776 | a request asks for a restart on the CPU and a replay exactly when the first read that is not its own progress is its own Metal fault, fails for good exactly when it is another failure of its own, and counts a mismatch exactly when it is a line of another request |
| `Executor.TriedAgainExactlyWhen` | src/executor.rs:547-581 | a second attempt follows exactly, for operations, an own Metal fault with a restart that worked, and for other callers anything but an answer of the child's own |
| `Executor.CpuIsForcedByMetalFaults` | src/executor.rs:734-747 | over every run the CPU is forced exactly when some request read its own Metal fault |
| `Executor.CallsEndAsDecided` | src/executor.rs:583-826 | in every run of parent and child a call that nobody abandons ends as the loop over its own reads says, with the outcome `exchange` has for the same reads |
| `Executor.Supervisor.RestartChild` | src/executor.rs:778-811 | whatever happens the old child is gone, and there is a new one, of a generation above every earlier one, exactly when stopping and starting worked |
| `Executor.Supervisor.Exchange` | src/executor.rs:615-776 | the loop over lines has the outcome of the first deciding one, and keeps the child or replaces it by one of a later generation accordingly |
| `Executor.Supervisor.RequestOnce` | src/executor.rs:583-613 | one attempt under a fresh request id, with a new child if there was none |
| `Executor.Supervisor.Request` | src/executor.rs:547-581 | a second attempt exactly after a retriable failure, and for operations only after a replayable one |
| `Planner.PlanTokenWindows` | crates/surreal-memory/src/embeddings/candle.rs:543-609 | the Rust loop ends and returns the plan, or an error when there is no plan |
| `Planner.ShrinkRust` | crates/surreal-memory/src/embeddings/candle.rs:573-594 | shrinking finds the longest window that fits, or there is none |
| `Planner.SwiftPlan` | executors/mlx/Sources/SurrealMemoryMLXExecutorCore/Planner.swift:18-69 | the Swift loop meets the same specification |
| `Planner.ShrinkSwift` | executors/mlx/Sources/SurrealMemoryMLXExecutorCore/Planner.swift:43-52 | its inner loop finds the same window |
| `Planner.PlannersAgree` | executors/mlx/Sources/SurrealMemoryMLXExecutorCore/Planner.swift:18-69 | both planners return the same parts or both fail, and agree on a model without room for content |
| `Planner.PlanIsUnique` | crates/surreal-memory/src/embeddings/candle.rs:543-609 | the specification leaves exactly one plan |
| `Planner.PlanCovers` | crates/surreal-memory/src/embeddings/candle.rs:543-609 | windows start at 0, end at the token count, move forward and leave no token out |
| `Planner.PartsAreTheirWindows` | crates/surreal-memory/src/embeddings/candle.rs:596-633 | each part has its number, the digest of the tokens of its window, and as content the decoded text of exactly these tokens; a text of one part is kept as it is |
| `Planner.WindowsFit` | crates/surreal-memory/src/embeddings/candle.rs:573-594 | every part of a windowed plan fits the capacity after re-encoding with special tokens |
| `Planner.PlansFitExactlyWhen` | crates/surreal-memory/src/embeddings/candle.rs:556-562 | all parts of all plans of a text fit, whatever the capacity, if and only if the tokenizer adds its special tokens once |
| `Planner.PlansFitAtCapacity` | crates/surreal-memory/src/embeddings/candle.rs:556-562 | for a given capacity every part of every plan fits if and only if the text is not planned whole or fits whole |
| `Planner.ShortTextMayNotFit` | crates/surreal-memory/src/embeddings/candle.rs:556-562 | a tokenizer and a text whose one-part plan exceeds the capacity |
| `Planner.RegularPlan` | crates/surreal-memory/src/embeddings/candle.rs:567-607 | without shrinking there are exactly 1 + ceil((n - usable) / step) parts, each overlapping the next by min(32, usable - 1) tokens |
| `Planner.MakePart` | crates/surreal-memory/src/embeddings/candle.rs:611-633 | the part's hash is the digest of its tokens in little-endian bytes |
| `Planner.TokenBytesAreInjective` | crates/surreal-memory/src/embeddings/candle.rs:611-633 | different token sequences have different bytes |
| `Planner.ValidateStoredPlan` | src/operations.rs:1981-1995 | the loop accepts exactly stored plans |
| `Planner.StoredPlanIs` | src/operations.rs:1981-1995 | a stored plan has one part or more, numbered from 0, each of which counts its own tokens and has a hash that is not blank |
| `Planner.TokenCount` | src/operations.rs:1692-1704 | the loop finds the largest token end |
| `Planner.PlansAreStorable` | src/operations.rs:1692-1704 | every plan of either planner passes the ledger's check, and its largest token end is the token count of the text |
| `Planner.SamePlanMeansSameTokens` | src/operations.rs:1073-1087 | plans that compare equal in the ledger were cut from the same tokens, window by window |
| `Planner.SameTokensMeanSamePlan` | src/operations.rs:1073-1087 | plans cut from the same tokens at the same places compare equal |
| `Text.SplitSentences` | crates/surreal-memory/src/compression/text.rs:44-59 | the loop over lines and characters computes the sentences |
| `Text.SentencesKeepWords` | crates/surreal-memory/src/compression/text.rs:44-67 | splitting into sentences neither splits, loses, repeats nor reorders a word |
| `Splitting.LineWithoutEnds` | crates/surreal-memory/src/compression/text.rs:44-67 | a line without a `.`, `?` or `!` before white space is one sentence, trimmed, or none if it is blank |
| `Splitting.LineSplitsAtEnds` | crates/surreal-memory/src/compression/text.rs:44-59 | at every such mark the sentences of a line are those of its two halves |
| `Splitting.TextSplitsAtLines` | crates/surreal-memory/src/compression/text.rs:44-59 | at every line break, with or without a carriage return, the sentences of a text are those of its two halves |
| `Splitting.TrimIs` | crates/surreal-memory/src/compression/text.rs:61-67 | trimming takes away all white space at either end and nothing else |
| `Text.SentenceIsQuotable` | crates/surreal-memory/src/compression/text.rs:11-17 | every sentence, normalised, is found in its normalised text |
| `Text.CanonicalIsItsWords` | crates/surreal-memory/src/compression/text.rs:20-26 | the canonical form is its words joined, and splitting it gives them back |
| `Text.CanonicalWordsOfJoined` | crates/surreal-memory/src/compression/text.rs:20-26 | joining two texts with a space joins their canonical words |
| `Text.PaddedWordIsFound` | crates/surreal-memory/src/compression/summarizer.rs:137-161 | searching a padded text for a padded word finds exactly its words |
| `Text.KeptIsAFilter` | crates/surreal-memory/src/compression/text.rs:20-26 | the canonical form deletes just the characters that are neither letters nor digits nor white space, wherever they stand |
| `Text.CaseIsIgnored` | crates/surreal-memory/src/compression/text.rs:11-26 | texts that differ only in case have the same normal and canonical forms |
| `Text.EstimateIsLeast` | crates/surreal-memory/src/compression/text.rs:38-40 | the estimate is the least number of tokens of four bytes that hold the text, and grows with it |
| `Text.Utf8IsShortest` | crates/surreal-memory/src/compression/text.rs:36-40 | a character counts the fewest UTF-8 bytes that hold its code point |
| `Summarizer.NegationIsAWord` | crates/surreal-memory/src/compression/summarizer.rs:148-161 | a text counts as negated exactly when a negation is among its canonical words |
| `Summarizer.RelevanceIsDecidedByCues` | crates/surreal-memory/src/compression/summarizer.rs:163-249 | a sentence is kept exactly if it has a cue or asks a question, as an open question before a constraint before a decision before a lesson, and with a hedge or a failed attempt alone as a fact |
| `Summarizer.QualifiersAreDecidedByCues` | crates/surreal-memory/src/compression/summarizer.rs:148-161 | each qualifier is set exactly by its cues, an instruction only if it is quoted or opens the text |
| `Summarizer.ExtractCandidates` | crates/surreal-memory/src/compression/summarizer.rs:202-249 | the key table and order vector compute the plain list of claims in order of first appearance |
| `Summarizer.ExtractedAreExtracts` | crates/surreal-memory/src/compression/summarizer.rs:202-249 | every claim quotes sentences of the sources it names verbatim, each with the claim's own words, and no two claims share a key |
| `Summarizer.ExtractedAreLabelled` | crates/surreal-memory/src/compression/summarizer.rs:202-249 | every extracted claim has the kind, the qualifiers and the validation of its own text |
| `Summarizer.NothingRelevantIsLost` | crates/surreal-memory/src/compression/summarizer.rs:202-249 | every relevant sentence of every source is represented by a claim that quotes that source |
| `Budget.Render` | crates/surreal-memory/src/compression/gate.rs:282-307 | the rendering loops produce the header and the sections in order |
| `Budget.RenderedShowsAll` | crates/surreal-memory/src/compression/gate.rs:282-307 | a rendering is the header and then every claim, in order, as a bullet under the title of its kind, in six sections |
| `Budget.LowestPriorityDroppable` | crates/surreal-memory/src/compression/gate.rs:271-278 | the claim given up next is the unprotected one of lowest priority, latest among equals; none means all are protected |
| `Budget.DropToFit` | crates/surreal-memory/src/compression/gate.rs:145-171 | the budget loop drops the shortest prefix of that order that fits, and fails if and only if the protected claims alone do not fit |
| `Budget.FirstFitIsUnique` | crates/surreal-memory/src/compression/gate.rs:145-171 | there is only one such prefix |
| `Budget.DroppedAreUnprotected` | crates/surreal-memory/src/compression/contract.rs:43-55 | no protected claim is dropped and every other claim is kept |
| `Budget.GivenUpByKind` | crates/surreal-memory/src/compression/contract.rs:43-55 | facts are given up before lessons and lessons before decisions, the latest of a kind first, and claims of other kinds never |
| `Budget.ProtectedFitsToo` | crates/surreal-memory/src/compression/gate.rs:145-171 | if any prefix fits then so do the protected claims alone |
| `Gate.ValidateCandidate` | crates/surreal-memory/src/compression/gate.rs:181-230 | the loop over evidence and the checks after it give the first fault in order, or the accepted claim |
| `Backing.AcceptedExactlyWhenBacked` | crates/surreal-memory/src/compression/gate.rs:181-247 | a claim is accepted if and only if each quote has eight characters or more and is part of the normalised text of a source at the version read, the quotes have every number of the claim and eight tenths of its words of four characters or more, and the claim has a negation exactly if they do |
| `Backing.RefusedForTheFirstFault` | crates/surreal-memory/src/compression/gate.rs:181-230 | a refusal names the first thing wrong with the claim, in the order of the checks |
| `Backing.AcceptedHidesNothing` | crates/surreal-memory/src/compression/gate.rs:181-230 | acceptance keeps text, kind and evidence, adds every hedge of the text and the quotes, drops none, and believes a validation only if the quotes speak of one |
| `Gate.MergeEquivalent` | crates/surreal-memory/src/compression/gate.rs:249-269 | the search and the evidence loop merge into the first claim of the same key and kind, or append |
| `Gate.MergedIsOk` | crates/surreal-memory/src/compression/gate.rs:249-269 | a backed claim stays backed when an equivalent claim with real evidence of its own negation is merged into it: still supported, and of the same negation as all its quotes together |
| `Gate.Gather` | crates/surreal-memory/src/compression/gate.rs:110-124 | the loop over candidates accepts, merges and names rejections in order, up to the cap |
| `Gate.Run` | crates/surreal-memory/src/compression/gate.rs:94-179 | the gate returns what limits, gathering, budget and reduction decide, in that order |
| `Backing.PublishedClaimsAreBacked` | crates/surreal-memory/src/compression/gate.rs:94-179 | every published claim, merged or not, is backed in this sense by the evidence it is published with; and the output is within budget and reduction |
| `Gate.EveryCandidateIsAccountedFor` | crates/surreal-memory/src/compression/gate.rs:112-159 | a candidate at fault is rejected under its own text for its own first fault; any other survives in a claim of its words and kind that quotes all its sources and counts as validated if it rightly did, or such a claim is named as dropped for the budget |
| `Backing.RejectionsAreEarned` | crates/surreal-memory/src/compression/gate.rs:110-124 | nobody is rejected without a fault of its own |
| `Backing.ClaimsAreMerged` | crates/surreal-memory/src/compression/gate.rs:249-269 | no two accepted claims have the same words and kind |
| `Backing.ResultsTellTheLimits` | crates/surreal-memory/src/compression/gate.rs:94-179 | each result is given for its own reason: input over the limit, protected claims over the budget, or a reduction missed; a summary counts its own rendering and keeps all three limits |
| `Backing.TotalIsOfContents` | crates/surreal-memory/src/compression/gate.rs:94-109 | the input is measured memory by memory, by content |
| `Backing.HeaderTellsAll` | crates/surreal-memory/src/compression/gate.rs:282-291 | the header determines how a summary was made and of how many memories |
| `Extractive.ExtractIsAcceptedExactlyWhen` | crates/surreal-memory/src/compression/gate.rs:181-247 | over distinct source ids an extracted claim is accepted if and only if its quotes normalise to at least 8 characters |
| `Extractive.ShortExtractIsRefused` | crates/surreal-memory/src/compression/gate.rs:199-202 | a concrete memory, "tbd", whose one extracted claim is refused for its quote of three characters |
| `Extractive.ExtractiveOutputPasses` | crates/surreal-memory/src/compression/summarizer.rs:202-249 | the gate keeps the extracted claims in order, merges none, and leaves out only those past the cap or with a short quote |
| `Extractive.LongExtractsArePublished` | crates/surreal-memory/src/compression/gate.rs:145-171 | such a claim is missing from a published summary only if the budget dropped it |

## Left out

- HTTP, MCP and A2A handlers, request parsing, authentication, SSE framing, logging and configuration: plumbing around the modelled core.
- SurrealDB itself, its query texts and the migrations, beyond unique keys and atomic transactions.
- `retry`, the wake channel and the sweep timer: they only decide when the coordinator picks an operation up, and the model lets it pick any at any time.
- `stats`, the executor journal and the executor counters on operation rows: nothing in the modelled behaviour reads them.
- Reconnecting to the database: a connection that was lost shows up as a failed await, recovered or not.
- Other interfaces that edit or delete memories: the memory table of the model holds what operations stored.
- The effects of task operations: a task is one step that may fail.
- Aggregation and normalisation of embeddings: the stored memory holds the part embeddings in order, of which the aggregate is a function; a dimension mismatch is a failed step.
- Trimming and truncation of error and reason texts to 2,000 characters, and the refusal of an empty reason.
- Durations: watchdogs and timeouts fire at any moment.
- Two coordinators on one ledger: `Lifecycle`, `Drain`, `Coordinator` and what follows from them assume one; the event chain in `Ledger` does not.
- Model inference, tokenizers and SHA-256: functions given from outside, the digest collision-free where a lemma says so.
- The kinds of planner errors beyond "no room for content" are not compared between Rust and Swift, which name them differently.
- Unicode normalisation and case folding that changes the number of characters: lower-casing is per character, and the classification of characters is a parameter.
- Qualifiers of merged claims: `merge_equivalent` does not combine them, so nothing is claimed about hedges of a merged claim.
- Gate.Run: compares the reduction against an exact real product where the source rounds in floating point, and leaves out the promotion of claims.
- Promotion, lineage, origins and applicability of claims, and the semantic provider that proposes candidates.
- Executor device choice, model download, and the Swift child's reply to a request it cannot decode.
- Drain.OperationService.Process: leaves out the part and memory tables, which `Coordinator` has; whether the work succeeds is a parameter of the drain.
