# Verified model of the microservice-diagnosis orchestrator

A diagnosis session runs through a state machine stored in Postgres. Any number of
orchestrator processes advance it, driven by HTTP handlers, by observations from Kafka and
by periodic sweeps; agents turn commands into observations and a fix plan; risky fix
actions wait for a human. This project models that system in Dafny and proves what its
parts guarantee together, over every run, every interleaving and every input.

The model follows the code. Database, broker, clock, model server, executor and approval
service are environment: their replies are step labels, scripts or arguments, so each
theorem holds for all of them. Integers are unbounded where the code uses `int` and
`int64` as counters and offsets, times are integers in milliseconds, confidences are reals.

## How it is organised

| files | what they hold |
|---|---|
| `Domain`, `Lifecycle` | statuses, events, the transition table, table rows, and what the table implies about a whole life |
| `Protocol` | the orchestrator as one concurrent step system: every handler call, delivery and sweep item is an actor with a program counter |
| `Locking`, `Effects`, `Execution`, `Consent`, `Approvals`, `Trails`, `Resolution`, `Safety` | the inductive invariant of that system, one concern per file, and its preservation by every step |
| `Theorems`, `Outcomes` | the guarantees, stated about complete runs; and what the statuses a run writes say about it |
| `Agreement`, `Lapses` | when the approvals table and the fix_actions table show the same status, exactly; and for each condition a run from the empty database in which dropping it leaves them disagreeing |
| `Solo`, `Undisturbed`, `Reactions` | one session and one orchestrator: what a stream of observations does, why the step system does the same, and what one observation does for every behaviour of the database |
| `Workflow`, `Handlers` | the engine and the handlers as classes whose methods update the tables |
| `Consume`, `ConsumerChannel`, `Replay`, `Backlog` | delivery: the commit-after-handle loop, the channel between consumer and runner, batched replay, the backlog skip |
| `Network`, `Pipeline` | topics, dispatch, and one message through a runner; and the agents next to the orchestrator's step system, whose dispatches are the only commands, with the reason why messages come to rest |
| `Limiter`, `Observations`, `FixAgent`, `Rca`, `LogPatterns` | rate limit, observation contract, and three agents |
| `Routing` | from the evidence to a plan, and from a plan's rows to the routing of its session |

In `Protocol` two switches describe the surroundings: `strayExecute` lets anybody call
ExecuteFixActions at any time, and `writesLand` says that no UPDATE outside Transition that a
handler goes on after is lost, be it that it fails or that a SELECT it depends on does.
Theorems name the switch they need; without a mention they hold for both settings.

## Where code and documentation differ

The model follows the code in each case.

- The comment on `skipBacklogFast` says a timeout is an error; the code returns nil, so
  `TimedOut` is an ordinary outcome (internal/server/event_loop.go:173-177 and 307-311).
- `skipBacklogFast` recognises a group without an offset by the value -1 only. A partition
  missing from the committed-offset reply reads as 0 and counts as committed, and one missing
  from the list-offsets reply is committed at 0. `Backlog.UnlistedPartitionIsRewound` is such
  an input; `Backlog.SkipMovesBackIff` says exactly when a partition can be moved back.
- `Consume` documents that a message whose handler failed is redelivered. That holds when
  the next run opens a new reader; on the same reader the next commit passes the failed
  offset. `Consume.ReuseLosesARefusedMessage` is such a case from a fresh group, and
  `Consume.ReuseIsSafeIffSettled` says exactly when reuse is safe.
- The commit loop of `skipBacklogFast` takes a reply without an error entry for success, even
  one that leaves partitions out (`Backlog.EmptyReplyCountsAsSuccess`);
  `Backlog.SuccessMeansTargetIff` says exactly when success means that all offsets are at
  their targets.
- The comment on `Subscribe` says Close unblocks a full send; the handler waits on the context
  of Consume, which Close does not cancel. Close is therefore not a step of its own.
- The fix agent falls back on the plan's own rollback text when the rule table has none; the
  table always has one, so the fallback never applies (`FixAgent.RollbackOf`).
- A replay from the first offset reports `From` as -2 on Kafka and as 0 in memory
  (`Replay.ReplayMemory`).
- The gate and DecisionApproval each write the approvals table and the fix_actions table in
  two statements, outside a transaction. `Agreement.OutOfStepIffBroken` says exactly which
  steps can end in disagreement. In plainer terms, row and action agree whenever nobody is
  between two writes, if no handler writes a row while another has begun to write its action,
  nobody dies between its two writes, no write that took effect reports failure, and no second
  write is lost or left out because the SELECT of the action before it failed
  (`Agreement.OrderlyRunsStayInStep`). None of the four can be dropped (`Lapses`);
  an overlap need not be of two decisions, a decision can also overtake the gate.

## Model

| member | source | states |
|---|---|---|
| Lifecycle.LookupIsListed | internal/workflow/engine.go:69-124 | read event by event or status by status it is the same table, entry by entry |
| Lifecycle.NoEventTwice | internal/workflow/engine.go:69-124 | no event leads to a status that lies at or before one that still accepts the event |
| Lifecycle.PathAt | internal/workflow/engine.go:69-124 | every move of a committed history starts where the moves before it end and is a row of the table |
| Lifecycle.AtMostEightMoves | internal/workflow/engine.go:69-124 | a path of the table from CREATED has at most eight moves |
| Lifecycle.EachEventOnce | internal/workflow/engine.go:69-124 | a path of the table never uses one event twice |
| Lifecycle.AbsorbingIffTerminal | internal/workflow/engine.go:368-372 | the terminal statuses are exactly those without any outgoing move |
| Lifecycle.AwaitingIsPastProposal | internal/workflow/engine.go:90-102 | a session that has been AWAITING_APPROVAL can never be in FIX_PROPOSED again |
| Locking.LocksKept | internal/workflow/engine.go:170-227 | every step keeps: a transaction past its SELECT owns the row and what it read still stands, and every lock has a live owner |
| Locking.PathsKept | internal/workflow/engine.go:170-227 | every step keeps each session's committed history a table path ending in its stored status |
| Effects.EffectsKept | internal/server/event_loop.go:503-617 | every step keeps: one commit per event, one call per side effect, and each pending side effect belongs to the actor that committed its cause |
| Execution.ExecKept | internal/server/orchestrator.go:732-807 | every step keeps: no action was executed twice, and what a loop still has to run has not been run |
| Consent.ConsentKept | internal/server/orchestrator.go:743-764 | every step keeps: whatever is APPROVED or about to run at HIGH risk has an approve decision on record |
| Approvals.ApprovalsKept | internal/server/orchestrator.go:651-710 | every step keeps: approval rows exist only behind a gate call of a session that was AWAITING_APPROVAL, one per action |
| Resolution.ResKept | internal/workflow/engine.go:317-357 | without lost writes and stray calls every step keeps: a session past execution has drained its snapshot, and a good verdict is only formed without FAILED rows |
| Trails.TrailKept | internal/workflow/engine.go:170-227 | every step keeps: behind every commit of a routing stands its own count, behind every EXECUTE_COMPLETE the call and the snapshot of its author, and every move of a history is on record |
| Safety.InvKept | internal/server/event_loop.go:503-617 | the whole invariant is inductive for every step of the composed system |
| Safety.Reachable | internal/server/event_loop.go:503-617 | every state of every run satisfies the whole invariant |
| Theorems.EventsCommitOnce | internal/workflow/engine.go:155-227 | over any run, with redelivery, crashes and commits that report failure, no event is committed twice for a session |
| Theorems.EffectsRunOnce | internal/server/event_loop.go:503-617 | DispatchCollect, DispatchAnalyze, TriggerApprovalGate and, without stray callers, ExecuteFixActions are each called at most once per session |
| Theorems.EffectsFollowTheirCommit | internal/server/event_loop.go:519-610 | whoever makes one of these calls has itself committed the move that causes it |
| Theorems.ActionsExecuteOnce | internal/server/orchestrator.go:743-771 | no fix action is handed to Executor.Execute twice |
| Theorems.StepsRefineTheTable | internal/workflow/engine.go:170-227 | every fine-grained step is one row of the table, a new session, or invisible; attempts that do not commit write no table |
| Theorems.HistoryIsATablePath | internal/workflow/engine.go:170-227 | a session's commits form a table path of at most eight moves from CREATED to its current status, each starting where the last ended |
| Theorems.NoUpdateIsLost | internal/workflow/engine.go:177-219 | between any two moments of a run a history only grows, and a terminal status stays |
| Theorems.ApprovalRowsAreGated | internal/server/orchestrator.go:651-710 | an approvals row belongs to a HIGH-risk action of its own session, which has been AWAITING_APPROVAL, and is the action's only one |
| Theorems.ProposedIsNeverApproved | internal/workflow/engine.go:90-92 | the table's APPROVE entry in FIX_PROPOSED never fires in any run |
| Theorems.MarkMoment | internal/workflow/engine.go:170-227 | every entry of the log was written by one step of the run, at which the log held exactly what stands before it |
| Theorems.RoutingIsTruthful | internal/workflow/engine.go:231-244 | every routing on record, high or low, tells whether in the very state in which it was taken some action of the session had HIGH risk and was NOT_STARTED |
| Theorems.SnapshotIsTruthful | internal/server/orchestrator.go:732-750 | every snapshot on record lists, in seq order, exactly the actions of the session that needed no approval or had it in the state in which it was taken |
| Theorems.HowExecutingIsEntered | internal/server/event_loop.go:594-610 | FIX_EXECUTING is entered by EXECUTE after a commit of FIX_SUGGESTED whose author, by its last count before that commit, found no pending HIGH-risk action, and none was pending then; or by APPROVE after the same handler recorded an approve decision for the session |
| Theorems.HighRiskNeedsApproval | internal/server/orchestrator.go:743-764 | however often execution is called, a HIGH-risk action is executed only after an approve decision for it was recorded |
| Theorems.ResolvedMeansSucceeded | internal/workflow/engine.go:332-349 | without lost writes and stray calls a RESOLVED session has actions, none FAILED; somebody called the executor for it, read exactly the actions then cleared, and afterwards committed EXECUTE_COMPLETE; and everything so read SUCCEEDED |
| Theorems.AwaitingIsNeverExecuted | internal/server/orchestrator.go:355-391 | without stray callers a session that has been AWAITING_APPROVAL is never handed to the executor and is never VERIFYING or RESOLVED, whatever is decided |
| Outcomes.WhereJobsLead | internal/workflow/engine.go:170-227 | every commit of a run takes its session from and to the statuses its handler or sweep is for |
| Outcomes.WhenTheVerdictIsGood | internal/workflow/engine.go:332-349 | the sweep votes for success exactly when it read the actions, there are some, and none is FAILED |
| Outcomes.AttemptsAreThree | internal/workflow/engine.go:155-168 | in no state of a run is anybody in a fourth attempt |
| Outcomes.FailuresAreRetried | internal/workflow/engine.go:155-168 | an attempt that fails or commits unreported frees the row and is followed by the next, the third by the error |
| Outcomes.StatusesAreReported | internal/server/orchestrator.go:752-777 | in every state of a run an action is SUCCEEDED or FAILED only if the executor was handed it before and said so |
| Agreement.TidyIffUnbroken | internal/server/orchestrator.go:372-388 | a step keeps row and action bound to agree, however the writes begun complete, if and only if it is not a breaking one |
| Agreement.UnbrokenStaysInStep | internal/server/orchestrator.go:691-704 | as long as no step breaks it, every row agrees with its action whenever nobody has begun to write the action |
| Agreement.UntidyDiverges | internal/server/orchestrator.go:372-388 | from a state that is not bound to agree, completing what has begun can leave a row and its action disagreeing with nobody left to write |
| Agreement.OutOfStepIffBroken | internal/server/orchestrator.go:372-388 | after an unbroken run, completing what has begun can end in disagreement with nobody left to write if and only if the last step is a breaking one |
| Agreement.OrderlyStepsDoNotBreak | internal/server/orchestrator.go:372-388 | a step without overlap, false alarm, death between two writes and lost second write is not a breaking one |
| Agreement.OrderlyRunsStayInStep | internal/server/orchestrator.go:372-388 | a run of such steps has every row agree with its action whenever nobody is between two writes |
| Lapses.OverlappingDecisions | internal/server/orchestrator.go:372-388 | from the empty database two overlapping decisions, and nothing else irregular, leave the row REJECTED and the action APPROVED |
| Lapses.DecisionOvertakesTheGate | internal/server/orchestrator.go:691-704 | a decision between the two writes of the gate leaves the row APPROVED and the action PENDING |
| Lapses.FalseAlarmAtTheGate | internal/server/orchestrator.go:691-704 | an INSERT that takes effect and reports failure leaves a PENDING row over an action at NONE |
| Lapses.HalfDeathAtTheGate | internal/server/orchestrator.go:691-704 | so does a gate that dies between the row and the action |
| Lapses.FalseAlarmAtTheDecision | internal/server/orchestrator.go:377-380 | an UPDATE of the row that takes effect and reports failure leaves the decided row over a PENDING action |
| Lapses.HalfDeathAtTheDecision | internal/server/orchestrator.go:377-386 | so does a handler that dies between its two UPDATEs |
| Lapses.LostWriteAtTheDecision | internal/server/orchestrator.go:382-386 | so does an UPDATE of the action that fails, or that a failing SELECT before it leaves out, both errors being ignored |
| Solo.ObserveAdvances | internal/server/event_loop.go:511-614 | what one observation does at each stage of the pipeline, status and side effects, and that any other observation does nothing |
| Solo.FinalStatusIsLongestPrefix | internal/server/event_loop.go:503-617 | from COLLECTING the final status is the one of the longest prefix of evidence, RCA_RESULT, FIX_ACTION that is a subsequence of the observations, and of no other |
| Solo.DuplicatesAreHarmless | internal/server/event_loop.go:503-617 | repeating, anywhere later, an observation that advanced the session changes neither status nor side effects |
| Undisturbed.HandlesAsObserved | internal/server/event_loop.go:503-617 | an observing actor of the step system that nothing fails and nobody disturbs ends, whatever steps it takes, in the status and with the calls of the big-step run |
| Undisturbed.CanBeHandled | internal/server/event_loop.go:503-617 | from any state of the step system in which the session's row is free an observation can be handled to its end |
| Undisturbed.DeliversAsFed | internal/server/event_loop.go:503-617 | such actors one after the other leave the status and the calls of the whole stream of observations |
| Workflow.RetryMovesOnce | internal/workflow/engine.go:155-168 | the three attempts apply the event at most once, and success is reported only for a move that was made |
| Workflow.WhenRetryMoves | internal/workflow/engine.go:155-168 | the row moves exactly when it accepts the event and the first attempt to leave a trace commits; success is reported exactly when that commit reports |
| Workflow.RetryAnswers | internal/workflow/engine.go:155-168 | the answer of the three attempts for every row and every fate of each: not found, invalid, moved or the last error |
| Workflow.FirstTraceIs | internal/workflow/engine.go:155-168 | the first trace is the fate of the first of three attempts that does not fail without effect |
| Workflow.RefusedForGood | internal/workflow/engine.go:161-166 | a row that does not accept the event is never changed, whatever the replies |
| Workflow.Engine.TryTransition | internal/workflow/engine.go:170-244 | one attempt for every fate: not found, invalid and transient exactly when; a commit takes the row to the table's entry, and the routing in FIX_PROPOSED to AWAITING_APPROVAL exactly when some action of the session has HIGH risk and is NOT_STARTED |
| Workflow.Engine.Transition | internal/workflow/engine.go:155-168 | the retry loop leaves the table and reports as the retried attempts do |
| Workflow.Engine.GetBySessionID | internal/store/fix_action.go:107-127 | exactly the session's rows, each once, in seq order |
| Workflow.Engine.Judge | internal/workflow/engine.go:332-349 | the flag loop votes success exactly when the read worked, there are actions, and none is FAILED; and failure otherwise |
| Workflow.Engine.SweepVerifying | internal/workflow/engine.go:317-357 | every VERIFYING session gets one Transition with its verdict; no other row changes |
| Workflow.Engine.SweepFixProposed | internal/workflow/engine.go:289-313 | every FIX_PROPOSED session gets one routing Transition; no other row changes |
| Workflow.Engine.Sweep | internal/workflow/engine.go:261-284 | every stale COLLECTING session gets one FAIL Transition; no other row changes |
| Workflow.VerifyingSwept | internal/workflow/engine.go:317-357 | after the sweep a VERIFYING session is where it was or at its verdict, RESOLVED or ROLLED_BACK, and at the verdict if the transaction lands |
| Workflow.ProposedSwept | internal/workflow/engine.go:289-313 | after the sweep a FIX_PROPOSED session is where it was, or AWAITING_APPROVAL when some action of it has HIGH risk and is NOT_STARTED and FIX_SUGGESTED otherwise; and routed if the transaction lands |
| Workflow.StaleSwept | internal/workflow/engine.go:261-284 | after the sweep a stale COLLECTING session is where it was or FAILED, and FAILED if the transaction lands; any other is where it was |
| Handlers.OpenedInStep | internal/server/orchestrator.go:691-704 | opening a request for an ungated HIGH-risk action keeps the two tables in step |
| Handlers.DecidedInStep | internal/server/orchestrator.go:372-388 | recording a decision in both tables keeps them in step |
| Handlers.ExecutedInStep | internal/server/orchestrator.go:752-777 | execution updates keep them in step |
| Handlers.Orchestrator.InsertFix | internal/store/fix_action.go:73-93 | an INSERT succeeds exactly when the id is free and no row has its session and seq, and tables in step stay so |
| Handlers.Orchestrator.TriggerApprovalGate | internal/server/orchestrator.go:651-726 | a failing read of actions or, with HIGH-risk ones at NONE, of the session changes nothing and is an error; otherwise exactly one PENDING row of the session for each HIGH-risk action at NONE whose request and INSERT take effect, and PENDING exactly for those whose second write does too; tables stay in step if no request is left half open |
| Handlers.Orchestrator.DecisionApproval | internal/server/orchestrator.go:355-391 | a failing read, an unknown row, the wrong session and a failing UPDATE of the row each have their answer; which of row, action and session take the decision for every fate of the two UPDATEs and of the SELECT between them, FIX_EXECUTING or REJECTED from AWAITING_APPROVAL; tables stay in step unless the first lands unreported or the second is lost |
| Handlers.Orchestrator.RunActions | internal/server/orchestrator.go:743-801 | exactly the session's actions that are NOT_STARTED and need no approval or have it are executed, once each, in seq order, and end SUCCEEDED, FAILED, RUNNING or NOT_STARTED as the executor says and the two UPDATEs land; no other row changes |
| Handlers.Orchestrator.ExecuteFixActions | internal/server/orchestrator.go:732-807 | a failing read executes and changes nothing; otherwise the same, followed by one EXECUTE_COMPLETE Transition |
| Handlers.Orchestrator.StartSession | internal/server/orchestrator.go:202-258 | each way the transition and the read can go has its answer; CREATED becomes COLLECTING when the transition reports success, and collection is dispatched exactly when the session can then also be read |
| Handlers.Orchestrator.HandleObservation | internal/server/event_loop.go:503-617 | for every behaviour of the database: answer, status and calls are the reaction's, no other session moves, requests are opened and actions executed exactly as the call made says, everything else stays as it was |
| Reactions.NeverBackwards | internal/server/event_loop.go:503-617 | an observation leaves the session where it is or moves it forward |
| Reactions.ErrorsHaveNoEffect | internal/server/event_loop.go:519-604 | an observation whose handling fails has had no side effect; any other has at most one |
| Reactions.WhenAnalysisIsDispatched | internal/server/event_loop.go:519-530 | the analysis is dispatched exactly for evidence in COLLECTING whose first transaction to leave a trace committed and said so |
| Reactions.WhenTheProposalIsDriven | internal/server/event_loop.go:557-612 | exactly when the gate is called and exactly when execution is, in terms of the transactions' fates and the pending HIGH-risk actions |
| Reactions.WhereItEnds | internal/server/event_loop.go:503-617 | where an observation leaves the session, for every way its up to four transactions can go |
| Reactions.WhenHandlingFails | internal/server/event_loop.go:503-617 | exactly when handling an observation fails |
| Reactions.CooperatingMeansUndisturbed | internal/server/event_loop.go:503-617 | with a cooperating database the handler does what the undisturbed actor of the step system does |
| Reactions.LostCommitStrandsTheSession | internal/server/event_loop.go:519-530 | a commit that takes effect and reports failure leaves ANALYZING without a dispatched analysis, for any of the three kinds of evidence, and no sequence of later observations dispatches it |
| Consume.RunKeeps | internal/bus/consumer.go:87-111 | one run never moves the commit back, delivers a contiguous stretch of offsets, and leaves everything below the commit handled |
| Consume.RerunsCover | internal/bus/consumer.go:87-111 | after any sequence of restarted runs, however each ended, every offset below the commit was handled successfully |
| Consume.RerunsAdvance | internal/bus/consumer.go:87-111 | each restarted run delivers contiguous offsets from the committed one, and the commit never moves back |
| Consume.ReuseIsSafeIffSettled | internal/bus/consumer.go:101-106 | running the same reader again is safe for every script if and only if nothing behind it is unhandled |
| Consume.ReuseLosesARefusedMessage | internal/bus/consumer.go:101-106 | a fresh reader whose handler refuses message 0 and which runs again commits message 1, and no later reader is given message 0 |
| Consume.OnlyHandlerErrorsUnsettle | internal/bus/consumer.go:101-106 | a run without a failing handler leaves the reader safe to reuse |
| Consume.RefinesInMemory | internal/bus/fake_test.go:59-98 | every run makes the handler calls of the in-memory consumer and commits what it consumed, up to a last commit that did not take effect |
| Consume.RunLeaves | internal/bus/consumer.go:87-111 | what a run leaves, from the turn that ends it: position, deliveries, what was handled, and the commit |
| Consume.KafkaConsumer.Consume | internal/bus/consumer.go:87-111 | the loop changes the group as the run function does; it commits up to the first turn that is not a commit, and ends with a shutdown, fetch, handler or commit error or a crash exactly as that turn says |
| Consume.KafkaConsumer.ConsumeAll | internal/bus/consumer.go:87-111 | process after process, each with a reader of its own, changes the group as the sequence of restarted runs does |
| ConsumerChannel.InvKept | internal/bus/consumer_channel.go:58-130 | every step of forwarder, runner and shutdown keeps conservation, order and the loss bound |
| ConsumerChannel.NothingIsDropped | internal/bus/consumer_channel.go:82-88 | at every interleaving sent is processed, then in hand, then buffered, in offset order without gaps |
| ConsumerChannel.AtMost101Ahead | internal/bus/consumer_channel.go:60-60 | at most 101 committed messages of a process are unprocessed |
| ConsumerChannel.LossIsBounded | internal/bus/consumer_channel.go:58-130 | over any number of restarts at most 101 committed messages per process are never processed |
| ConsumerChannel.NoSendOnClosed | internal/bus/consumer_channel.go:119-127 | no send ever meets a closed channel, and the handler never finds the subscription gone |
| ConsumerChannel.CommitsAdvance | internal/bus/consumer_channel.go:93-114 | no step moves the committed offset back |
| ConsumerChannel.BoundIsReached | internal/bus/consumer_channel.go:60-60 | a run with 101 committed, unprocessed messages exists, so the bound is tight |
| ConsumerChannel.WhenTheForwarderLeaves | internal/bus/consumer_channel.go:93-130 | the forwarder leaves its loop only when the context has ended or the subscription is gone, and backs off after any other failure |
| ConsumerChannel.BufferedIsLost | internal/bus/consumer_channel.go:119-130 | once the subscription is gone, a reader between two messages processes nothing that is still buffered |
| Replay.SuffixIsExact | internal/bus/replay.go:134-145 | the replayed suffix is exactly the records at or after From |
| Replay.ReadBatch | internal/bus/replay.go:151-172 | one batch: the handler is called on its records once each and in order, up to the first it refuses; count and last offset cover those it accepted |
| Replay.ReadPartition | internal/bus/replay.go:147-184 | for every way to cut batches the handler calls are a prefix of the suffix, once each and in order, count and last offset are theirs; it ends at the first batch that does not go through, with the handler's error, the read error, success for an empty batch that ended well, or the close error, each exactly then |
| Replay.ReplayPartition | internal/bus/replay.go:116-184 | the same behind dial and seek, whose failures are told apart and make no handler call |
| Replay.OneEnding | internal/bus/replay.go:116-184 | broker, connection and handler leave exactly one way to end |
| Replay.ReplayMemory | internal/bus/fake_test.go:104-132 | the in-memory replayer makes the same handler calls on the same suffix and reports the same, except that From -2 reads as 0 |
| Replay.SortedSorts | internal/bus/replay.go:72-72 | partitions are visited in ascending order, each as often as listed |
| Replay.Replay | internal/bus/replay.go:57-83 | partitions in sorted order, a result for each up to the first that fails, and each of these met an empty batch that ended well; the handler calls are the beginnings of their suffixes one after the other, and all suffixes without error exactly when nothing goes wrong; a bad start or failing metadata makes none |
| Replay.CountsAddUp | internal/bus/replay.go:57-83 | the counts of the results are the handler calls of the partitions that went through |
| Backlog.Group.MeasureLag | internal/server/event_loop.go:222-238 | the fold finds the largest lag, whether a listed partition has no offset, and the last listed end of each partition |
| Backlog.Group.SkipBacklogFast | internal/server/event_loop.go:183-316 | each outcome exactly when: request failed, no partition, a failed entry, all lags within the threshold, 0 meaning 10000, some partition at -1, and else the skip, reported when some reply has no error entry; only the skip changes offsets |
| Backlog.RetriesEnd | internal/server/event_loop.go:273-315 | whatever partial replies come, a partition ends at its own target if some reply tried stored it, and else at its old offset |
| Backlog.RetriesLeave | internal/server/event_loop.go:273-315 | the same in terms of the replies: tried until one has no error entry, stored if named or not, the target being the partition's last listed end or 0 |
| Backlog.SuccessMeansTargetIff | internal/server/event_loop.go:291-304 | success leaves all partitions at their target if and only if each was there already or was stored by the successful reply or one before it |
| Backlog.FullReplyMeansTarget | internal/server/event_loop.go:291-304 | it does when the successful reply names every partition |
| Backlog.EmptyReplyCountsAsSuccess | internal/server/event_loop.go:291-304 | an empty reply is success and moves nothing |
| Backlog.NeverBackIff | internal/server/event_loop.go:273-315 | the commit loop can move no partition back if and only if no target lies behind its old offset |
| Backlog.SkipMovesBackIff | internal/server/event_loop.go:183-316 | some replies make the whole skip move a partition back if and only if the guards let it through and some target lies behind its old offset |
| Backlog.SoundMeansForward | internal/server/event_loop.go:203-316 | with all partitions listed and no offset beyond its log end, nothing moves back, and a partition ends without lag exactly when it had none or a reply tried stored it |
| Backlog.UnlistedPartitionsRewind | internal/server/event_loop.go:283-288 | the commit loop can rewind any partition missing from the listing to 0 |
| Backlog.UnlistedPartitionIsRewound | internal/server/event_loop.go:203-288 | an input that passes the guards and on which the skip puts a partition from 500 to 0 |
| Network.EachHasItsTopics | internal/bus/topic.go:11-23 | which topic each agent reads and which it writes |
| Network.WhoHearsWhom | internal/server/event_loop.go:326-337 | what an agent writes is read by the orchestrator, and by the fix agent if it is the RCA agent's, and by nobody else |
| Network.AgentsPublishForward | internal/bus/topic.go:11-23 | every agent publishes on a strictly later stage than it reads |
| Network.PublishedShape | internal/agent/runner.go:157-173 | the publishes of one message are on the output topic under the session's key, and come in the order of the outputs they are copies of |
| Network.CopiesPerOutput | internal/agent/runner.go:238-260 | each output leaves as many copies as of its attempts were stored, at most three |
| Network.CopiesAreStored | internal/agent/runner.go:238-260 | an output leaves as many copies as there are attempts of the three that are made and stored |
| Network.Runner.PublishWithRetry | internal/agent/runner.go:238-260 | as many copies reach the topic as attempts that were made and stored, and success means exactly that one of them was reported |
| Network.Runner.ProcessMessage | internal/agent/runner.go:104-230 | every message is marked exactly once; a command with session and command, made out to the agent or to nobody, publishes the outputs under its session, and one made out to another nothing; anything else falls to the observation, and an absent one, an own one, one without a session, and a failed handler publish nothing |
| Network.Dispatcher.DispatchCollect | internal/server/event_loop.go:73-117 | one collect command for each of the three base agents whose message the broker keeps, on its topic and made out to it |
| Network.Dispatcher.DispatchAnalyze | internal/server/event_loop.go:119-149 | one analyze command for the RCA agent, and success exactly when the broker says so |
| Network.CommandsAreWorked | internal/agent/runner.go:104-174 | a dispatched command is read by exactly the agent it is made out to, which works it |
| Pipeline.AgentDescends | internal/agent/runner.go:104-230 | an agent that takes a message leaves nothing new at its stage or before it |
| Pipeline.DispatchSpends | internal/server/event_loop.go:519-530 | a dispatch of the step system, the only source of commands, uses up one of the finitely many left, because each session's is made at most once |
| Pipeline.MessagesComeToRest | internal/agent/runner.go:104-260 | agents and orchestrator together, restarts that redeliver included: there is a moment after which no message is taken or published if and only if there is one after which none is redelivered |
| Pipeline.NetworkDrains | internal/agent/runner.go:104-260 | if redeliveries end and messages keep being taken while any is waiting, the network is empty from some moment on |
| Pipeline.TakeableIffPending | internal/agent/runner.go:66-96 | at every moment of a run that began routed, redeliveries included, a message can be taken exactly when one is waiting |
| Pipeline.RunnerMakesAStep | internal/agent/runner.go:157-174 | what a runner publishes for a message of a session is one step of that network, on its output topic and under the session's key |
| Limiter.SlotsKeepDistance | internal/llm/client.go:108-113 | reserved slots are at least the minimum interval apart and never in the past of their reservation |
| Limiter.SlotExactly | internal/llm/client.go:108-113 | the first slot is its own moment; a later one too if the last lies the interval back, and else that moment plus exactly what is missing |
| Limiter.SlotIsEarliest | internal/llm/client.go:108-113 | with one clock reading a slot is the later of now and the last slot plus the interval |
| Limiter.NoneBeforeItsSlot | internal/llm/client.go:109-118 | a caller that only sleeps out its own wait after leaving the mutex never sends before its slot |
| Limiter.RateIsBounded | internal/llm/client.go:97-128 | by time t at most floor((t - first slot) / interval) + 1 requests have left, for any number of callers and retries |
| Limiter.Client.Reserve | internal/llm/client.go:108-118 | the critical section appends a reservation and moves the last request by exactly what is missing from the interval; the caller sleeps that long, and not at all when nothing is missing, and only a cancelled wait leaves the request unsent |
| Limiter.Client.ChatWithRetry | internal/llm/client.go:97-128 | at most three requests per call, each in a slot of its own, until one is answered or the context ends in a backoff or a wait; it gives up after three that were sent in vain; earlier reservations untouched |
| Observations.ConformsMeans | internal/observation/observation.go:67-95 | an observation conforms exactly when its names are set, type and severity are specified, its confidence is a probability and its schema version is 1, and each breach is an error of its own |
| Observations.Validate | internal/observation/observation.go:67-95 | every violated field rule is reported, once, and nothing else |
| Observations.New | internal/observation/observation.go:48-63 | New succeeds exactly on the caller's fields being in order, sets the schema version and a missing id, keeps the rest, and its result conforms |
| FixAgent.RiskIsByTypeAlone | internal/agent/fix.go:261-286 | risk and rollback follow from the action type alone; HIGH exactly for three types and every unknown one, LOW exactly for a restart and scaling up |
| FixAgent.RollbackFits | internal/agent/fix.go:261-286 | which rollback plan goes with which action types |
| FixAgent.DefaultsNeedNoApproval | internal/agent/fix.go:230-257 | no default plan contains a HIGH-risk step |
| FixAgent.PersistKeeps | internal/agent/fix.go:121-131 | under any failures (session, seq) stays unique and the first writer of a number wins |
| FixAgent.RedeliveryWritesNothing | migrations/001_initial_schema.sql:40 | a delivery over numbers that are all taken changes no row |
| FixAgent.LandedStepsAreTaken | internal/agent/fix.go:121-131 | an INSERT that gets through leaves the step's number taken |
| FixAgent.Planned | internal/agent/fix.go:103-120 | the row of a step is fresh, NONE and NOT_STARTED, numbered from one, with the step's type and target, and needs approval exactly for three types and every unknown one |
| FixAgent.OneOutputPerStep | internal/agent/fix.go:133-160 | one conforming FIX_ACTION per step, in order, with confidence, severity and service of the RCA result, the assessment and id of its row, and whether that row was written |
| FixAgent.RcaResultsSpeak | internal/agent/rca.go:78-101 | a conforming RCA_RESULT always gets the whole plan emitted |
| FixAgent.WhosePlan | internal/agent/fix.go:78-101 | the first decodable entry of the knowledge base gives the plan, else the model, else the default |
| FixAgent.Agent.SearchKnowledgeBase | internal/agent/fix.go:166-192 | the steps of the first decodable entry |
| FixAgent.Agent.Handle | internal/agent/fix.go:57-163 | all outputs or none, decided by the RCA result alone, whatever persists; the table afterwards; and every error path writes nothing |
| Rca.CountGrows | internal/agent/rca.go:182-200 | more evidence in any order never counts less |
| Rca.ConfidenceGrows | internal/agent/rca.go:177-240 | adding observations anywhere, and reordering the rest, never lowers the confidence |
| Rca.InsertedAnywhere | internal/agent/rca.go:177-240 | putting observations in at one place is the special case |
| Rca.OrderDoesNotMatter | internal/agent/rca.go:177-240 | cause, pattern and confidence are invariant under permutation of the evidence |
| Rca.HeuristicRCA | internal/agent/rca.go:177-240 | each of the five answers, cause, pattern and confidence, exactly when its rule fires and no rule above it does, in the numbers of ERROR or FATAL, of WARN and of traces above five seconds |
| Rca.PeakSeverity | internal/agent/rca.go:78-84 | the severity is the highest reported, FATAL before ERROR before WARN, and at least INFO |
| Rca.PeakIsUnique | internal/agent/rca.go:78-84 | that severity does not depend on the order of the evidence |
| Rca.RunRCA | internal/agent/rca.go:108-137 | which of model answer, heuristic and fallback is used, and the model's confidence brought into [0, 1] |
| Rca.Handle | internal/agent/rca.go:39-102 | any evidence yields exactly one conforming RCA_RESULT of this agent with that confidence and severity; a single ALERT that decodes to an analyze command is answered for its own service |
| LogPatterns.KeyIsInjective | internal/agent/log.go:131-132 | the group key tells service and severity apart even when service names contain colons |
| LogPatterns.GroupLogs | internal/agent/log.go:127-133 | the map holds, for every pair that occurs, its logs in order, and nothing else |
| LogPatterns.DetectLogPatterns | internal/agent/log.go:127-186 | one pattern for each service and severity with ERROR or FATAL logs in any map order, with the number of these logs, FATAL exactly above five, and the first trace among them; the counts add up to the ERROR and FATAL logs |
| LogPatterns.OrderIsImmaterial | internal/agent/log.go:135-186 | two visits of the same groups in different orders yield the same patterns |
| Routing.WaitsIffTheGateAsks | internal/workflow/engine.go:231-244 | over rows as the fix agent writes them a session is routed to AWAITING_APPROVAL exactly when the gate has a request to open |
| Routing.WaitsIffDrastic | internal/agent/fix.go:103-131 | once all rows of a plan are written, its session is routed to AWAITING_APPROVAL if and only if some step is of a drastic or unknown type, and else to FIX_SUGGESTED |
| Routing.HarmlessPlansGoOn | internal/agent/fix.go:103-131 | whatever INSERTs fail, a plan without such a step is routed to FIX_SUGGESTED |
| Routing.DefaultPlansGoOn | internal/agent/fix.go:228-257 | so is every default plan |
| Routing.EvidenceDecidesThePlan | internal/agent/fix.go:228-257 | without model and knowledge base the numbers of errors, warnings and slow spans decide what is done to what, step by step |

## Left out

- Kafka, Postgres, HTTP, the model server, the executor, the approval service and tickets are environment replies; rebalances within a consumer group are not modelled.
- JSON and protobuf encoding: a payload is what it decodes to, or a failure to decode.
- Webhooks, incident tickets, logging, timelines, reports, the dashboard, configuration and process start-up have no effect on the tables and messages modelled here.
- The row lock that Sweep's own SELECT holds is covered by attempts that find no row.
- Stored statuses outside the table (an error branch of the engine) and the statuses EXPIRED and ROLLED_BACK of single actions, which nothing modelled here writes.
- Upsert and UpdateStatus of the data access objects have no callers outside tests.
- The retry counter; the RETRY event itself is modelled and no status accepts it.
- That a sweep's routing is ever followed by execution: nothing in the code calls the executor after it (for approvals see Theorems.AwaitingIsNeverExecuted).
- Redelivery of observations whose handling failed in the event loop: a later commit passes them, so they are only modelled as further deliveries.
- The agent runner and the consumer channel are one step system on values, since they run concurrently; what the methods of the Go types do in isolation is part of its steps.
- Two subscriptions on one topic, and Close while a send blocks.
- The text of root causes, descriptions and evidence summaries; the summary alone depends on the order of evidence, through its first slow span.
- First and last timestamps, labels and text of log patterns, and the metric and trace agents' thresholds.
- Not-a-number confidences and clock saturation around the zero time.
- Solo.FinalStatusIsLongestPrefix: takes the count of pending HIGH-risk actions as fixed while the observations arrive.
- Theorems.ActionsExecuteOnce: assumes that only the event loop calls ExecuteFixActions; with other callers two snapshots may overlap.
- Pipeline.MessagesComeToRest: speaks about runs in which only finitely many sessions are ever created; endless new sessions bring endless messages.
- ConsumerChannel.LossIsBounded: speaks about one partition.
