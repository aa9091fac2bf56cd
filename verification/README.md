# OriginAgent: proofs about its stateful cores

This project models the parts of OriginAgent whose promises are about whole runs: the gated executor with its
confirmation store and motor queue, the MCP connection lifecycle, the prompt budget, crash recovery and turn movement,
and the long-run throttles and logs. Code that changes objects step by step is a class or a method with loops, proved
against functions; what concurrent parties do to shared state is a state machine whose steps are the locked sections and
awaits, and the statements about it hold for every interleaving.

## The parts

- `Actions`, `ActionProtocol`, `ActionSafety`, `Idempotency`: any number of executors submitting, resuming and
  dispatching over one store and one queue. Every backend call is mediated; a confirmation is carried out at most once; a
  key succeeds at most once where it should.
- `Consent`: every backend call for a confirmation has a reply behind it that confirmed it.
- `ActionExecutor`, `ActionGuarantees`: `SafeActionExecutor` with its fields, calling the store for its locked sections.
  Each call is a run of that machine with the answers it was given, so the theorems about all runs apply to the class.
- `MotorQueue`: the queue scan and its deletion in place, against a description of a tick without an algorithm.
- `Confirmations`, `ConfirmationStore`: what each locked section does to the table of confirmations, and the file-backed
  stores with signature caches that do it.
- `IntentSnapshot`: what survives from a submitted intent to the intent that resume rebuilds.
- `McpLifecycle`: connectors, closers and runtime tasks, with cancellation at every await.
- `ContextBudget`: trimming a prompt on clones of the caller's messages.
- `TurnPersist`, `TurnPipeline`: checkpoint and pending-turn recovery; splitting turns and spilling them to the warm
  buffer.
- `CognitiveRuntime`: the circuit breaker and the self-loop brake.
- `ReviewLog`: review proposals, their event log and the curator's deduplication.
- `AuxiliaryRouter`: candidate order, cooldowns and results of auxiliary model calls.

## What the code does not promise

Some statements one might expect are false of the code. Each has a lemma with an input that shows it, and the exact
condition under which the statement holds, for all inputs, where there is one.

- A rejected confirmation is not closed for good: it stays rejected exactly until some operation looks at it after its
  expiry, and can be retried exactly from then on, if its record is complete and below the limit (`RejectedMayBeRetried`;
  `RejectedThenRetried` is an input).
- A root may be carried out twice, but only if some confirmation was retried twice (`OncePerRoot`); two retries of any
  retryable confirmation can both be carried out (`SiblingsBothConsumed`).
- With a motor queue, or with submissions that overlap, a key may succeed twice. From the moment it is remembered, a
  second success can follow exactly when some action is past its replay check with the key and may yet call the backend,
  or is queued with it (`SecondSuccess`). Two submissions queued before the first dispatch are an input
  (`QueuedTwiceRunsTwice`).
- Resume remembers the trimmed key while submit checks the key as given, so a resubmission is refused exactly when the
  key has no blanks around it (`ResubmittedAfterResume`).
- Fact references come back from a confirmation exactly when none contains a comma (`RoundTrip`).
- After one failed read of an existing file a store takes it for empty, and its next write drops the other records
  (`FailedReadDropsRecords`).
- An MCP runtime task can end with connections open: exactly when a handler cleared its dictionary after it had served, or
  its loop over the stacks was left early (`EndedTaskLeaks`). Cancelling a serving task is an input
  (`CancelledWhileServingLeaks`).
- A close that arrives while MCP servers are being connected is followed by `connected` exactly when some server answers
  (`ConnectedAfterClose`), for no longer than that task lives (`PartingLasts`).
- A runtime task that ended while it is recorded blocks every later connect exactly when the state is not `disconnected`
  (`EndedRecordBlocks`). A task cancelled before its first step is an input (`DroppedBeforeStartSticks`).
- The later budget stages write the last message, so a message after the current user message loses its content exactly
  when they have something to drop and drop it (`TrailingMessageKept`).
- A checkpoint that is not a dictionary is never cleared (`RecoveryClears`), and an early-persisted user message can stay
  unanswered (`DanglingUserMessage` says exactly when).
- A cut by turns can fall inside a turn: a delivery kept in front of the hot part leaves the turn it followed
  (`WholeTurnsMove` says exactly which cuts keep turns whole), and the next spill drops it. Over any run of saves and
  spills these deliveries, and what precedes the first user message, are exactly what is lost (`Converse`,
  `MissingDeliveries`; `DeliveryIsDropped` is an input).
- The self-loop bound needs at most one message per pass (`FourWithinAMoment` covers every greater limit).
- A curator service refuses to run twice at once, but two services on one log can overlap, and then the log repeats itself
  exactly when some append adds a pick that is no longer novel (`HistoryRepeats`; `OverlappingRunsRepeat` is an input on any
  log). An update that changes a state hash may repeat a decided proposal (`UpdateMayRepeat` says exactly when).
- A model answer comes back exactly when one of its texts is not blank; its tool calls count for nothing
  (`ToolCallsAloneAreDropped`).

## Model

| member | source | states |
|---|---|---|
| Actions.EvaluateComposite | OriginAgent/agent/action_safety.py:42-49 | the composite decision allows if and only if every gate allows; otherwise it is the first refusal |
| ActionSafety.CompleteMediation | OriginAgent/agent/action_runtime.py:246-334 | in every run of any number of executors each backend call has behind it either a submission that passed simulation, every gate and the execute permission (and was queued, with a motor queue), or a resumption allowed, permitted twice and holding the won claim, for the intent its confirmation describes |
| ActionSafety.AtMostOncePerConfirmation | OriginAgent/agent/action_runtime.py:530-629 | over every interleaving of resuming, resolving, expiring, retrying, crashing and restarting, the backend is entered at most once per confirmation, by the process whose claim set `consumed_at` |
| Consent.NoCallWithoutConsent | OriginAgent/agent/action_runtime.py:411-629 | in every run, once the backend was entered for a confirmation, a reply classified as confirming has come before, with a resumption or from another party, before its expiry and by its owner where both are known |
| Consent.StepIsReal | OriginAgent/agent/action_runtime.py:411-629 | every step of any process keeps it that each approved or consumed confirmation was confirmed by a reply, and that replies being passed on came with their resumption |
| ActionSafety.AtMostOncePerAction | OriginAgent/agent/epic_motor.py:169-202 | no action id, submitted, resumed or dispatched, enters the backend twice |
| ActionSafety.ClaimKeeps | OriginAgent/agent/confirmation.py:377-405 | the claim is the linearization point: taking it keeps the whole invariant, in particular that no confirmation has two winners |
| ActionSafety.StepKeeps | OriginAgent/agent/action_runtime.py:246-629 | every atomic section of submit, resume, dispatch and the confirmation manager, by any process, keeps the invariant |
| ActionProtocol.Keep | OriginAgent/agent/action_runtime.py:207-238 | a restart of one executor drops its own queued commands and keeps those of every other |
| ActionExecutor.SafeActionExecutor.constructor | OriginAgent/agent/action_runtime.py:207-238 | a new executor knows exactly the non-empty keys among the last lines it loads; to the machine it is a restart |
| ActionProtocol.LoadedAre | OriginAgent/agent/action_runtime.py:169-189 | the keys loaded are the non-empty lines among the last `max_loaded`, or among all where that is zero |
| ActionExecutor.SafeActionExecutor.Submit | OriginAgent/agent/action_runtime.py:246-409 | submit is one run of the machine with the given simulation, gates, permission and backend answer; from these alone, in the order of the checks, it follows which outcome is returned and recorded: remembered key, blocking simulation, first refusing gate, permission, asking, motor queue, backend; exactly a queued outcome adds one ticket, exactly a pending one adds one pending record, and exactly a success adds the key |
| ActionExecutor.SafeActionExecutor.SubmitAllowed | OriginAgent/agent/action_runtime.py:301-334 | an allowed submission ends as permission, motor queue and backend answer say, in that order, and leaves exactly the ticket or the key that goes with it |
| ActionExecutor.SafeActionExecutor.AskConfirmation | OriginAgent/agent/action_runtime.py:336-387 | with the confirm permission a pending record of the intent is added under the new id, with its texts, times and no owner; without it nothing is |
| ActionExecutor.SafeActionExecutor.ResumeConfirmed | OriginAgent/agent/action_runtime.py:411-629 | resume is one run of the machine over the locked sections of the real store; from the record on file, the reply, the remembered keys, the decision, both permissions and the backend answer it follows which outcome is returned, that the record is expired, answered or consumed accordingly and no other changes, that the queue stays, and that exactly a success remembers the key |
| ActionExecutor.SafeActionExecutor.ClaimAndExecute | OriginAgent/agent/action_runtime.py:605-629 | the backend is entered only after this process's own claim was won in the store, and exactly when the record there is confirmed, in time, for an action and not consumed |
| ActionExecutor.SafeActionExecutor.ExecuteAllowed | OriginAgent/agent/action_runtime.py:631-671 | one backend call; its key is remembered and saved only if it succeeded and was new |
| ActionExecutor.SafeActionExecutor.DispatchCommand | OriginAgent/agent/epic_motor.py:178-192 | dispatching a queued command is one machine dispatch followed by the call, with the key remembered only on success |
| ActionExecutor.NothingLeft | OriginAgent/agent/action_runtime.py:246-629 | a call that has returned moves nothing more, so one list of steps describes every way it may end |
| ActionGuarantees.ResumeAfterExecution | OriginAgent/agent/action_runtime.py:411-629 | however the executor came to its state, once the backend was entered for a confirmation every resumption of it ends as already executed or denied |
| Idempotency.AtMostOneSuccessPerKey | OriginAgent/agent/action_runtime.py:787-800 | without a motor queue, in every sequential run of submissions, resumptions, crashes outside calls and restarts that load all saved keys, a non-empty key has at most one successful backend call |
| Idempotency.SecondSuccess | OriginAgent/agent/action_runtime.py:787-800 | from a state in which the key is remembered, some continuation that does not forget it succeeds with it again if and only if some action is past its replay check with the key and may yet call the backend, or is queued with it |
| Idempotency.OnlyBearersGoOn | OriginAgent/agent/epic_motor.py:178-193 | in every interleaving that follows, only those actions can still queue or call the backend with the key, until a restart that no longer loads it |
| Idempotency.SuccessBlocksLaterActions | OriginAgent/agent/action_runtime.py:631-671 | the same right after a success was remembered, and remembering it adds or removes no such action |
| Idempotency.QueuedTwiceRunsTwice | OriginAgent/agent/epic_motor.py:178-193 | an input: with a motor queue any intent submitted twice before the first dispatch is carried out twice |
| Idempotency.ResubmittedAfterResume | OriginAgent/agent/action_runtime.py:1014-1037 | after a resumed success the same intent submitted again is refused if and only if its key has no surrounding blanks |
| Idempotency.StepPlain | OriginAgent/agent/action_runtime.py:246-629 | a step that neither calls, queues nor remembers leaves memory, saved keys and queue alone and lets a process carry only keys it carried or that just passed the replay check |
| IntentSnapshot.RoundTrip | OriginAgent/agent/action_runtime.py:1014-1063 | after any number of reads of the file, the rebuilt intent is the submitted one, trimmed and without scheduling hints, if and only if no fact reference contains a comma; none is rebuilt if and only if a descriptive field is blank |
| IntentSnapshot.FactsSurvive | OriginAgent/agent/confirmation.py:1427-1437 | a fact is among the rebuilt intent's used facts if and only if it is a used fact of the submitted one, stripped and not blank; without commas the references come back stripped, in order, without the blank ones |
| IntentSnapshot.FactsRoundTrip | OriginAgent/agent/action_runtime.py:1049-1063 | a joined list of fact references splits back to itself if and only if it is free of commas |
| IntentSnapshot.PayloadSurvives | OriginAgent/agent/confirmation.py:1285-1303 | a payload stays the same under any number of store and read passes if and only if cleaning leaves each value alone |
| IntentSnapshot.PayloadPasses | OriginAgent/agent/action_runtime.py:1014-1037 | whatever redaction does, the rebuilt payload has been through two layers when the confirmation was made, two at each read and one at the rebuilding |
| IntentSnapshot.SanitizePayload | OriginAgent/agent/action_runtime.py:993-1011 | the payload loop computes the sanitized dictionary, whose keys are stripped, non-empty and not forbidden |
| IntentSnapshot.SanitizeIsLayer | OriginAgent/agent/confirmation.py:1285-1303 | on a dictionary with normal keys another pass only cleans the values again, in whatever order its entries come |
| IntentSnapshot.SettledStays | OriginAgent/agent/confirmation.py:206-237 | a record that one read settles is the same after every further read |
| Actions.Strip | OriginAgent/agent/confirmation.py:1397-1403 | the result has no blank at either end, and a text without them is left alone |
| Actions.StripOnlyBlanks | OriginAgent/agent/confirmation.py:1397-1403 | what is taken away is blanks at both ends and nothing else |
| MotorQueue.EpicActionQueue.DequeueReady | OriginAgent/agent/epic_motor.py:98-133 | the scan with its deletion in place returns the selected commands and keeps the others, both in queue order, for every `max_parallel` |
| MotorQueue.EpicActionQueue.SelectReady | OriginAgent/agent/epic_motor.py:112-129 | the scan loop gives the selected commands in queue order and the list of their positions |
| MotorQueue.TickIsTheGreedyChoice | OriginAgent/agent/epic_motor.py:98-133 | a selection satisfies the greedy description (ready, at most `max_parallel`, at most one exclusive, nobody passed over without cause) if and only if it is the one the scan makes |
| MotorQueue.ScanIsGreedy | OriginAgent/agent/epic_motor.py:98-133 | the scan's own selection satisfies that description |
| MotorQueue.FifoWithinKind | OriginAgent/agent/epic_motor.py:98-133 | of two commands that must both run alone, or neither, the earlier one is taken whenever the later one is and it was ready no later |
| MotorQueue.PartsAddUp | OriginAgent/agent/epic_motor.py:98-133 | what is taken and what remains are together exactly the queue |
| MotorQueue.RunConserves | OriginAgent/agent/epic_motor.py:93-133 | over any run of enqueues and ticks no command is lost, duplicated or invented |
| MotorQueue.FateIsReal | OriginAgent/agent/epic_motor.py:93-133 | following one queue position through a run tells truly whether and when that command is dispatched |
| MotorQueue.PassedOverMovesUp | OriginAgent/agent/epic_motor.py:98-133 | a ready command that a tick leaves behind has fewer commands ahead of it afterwards |
| MotorQueue.StarvationFree | OriginAgent/agent/epic_motor.py:169-176 | under a monotone clock and at least one slot, a ready command with k commands ahead is dispatched within k+1 ticks, whatever is enqueued meanwhile |
| Confirmations.RunEvolves | OriginAgent/agent/confirmation.py:377-423 | over every run `expired` is absorbing, only pending records are answered, `consumed_at` is set at most once and never cleared, and nothing else about a record changes |
| Confirmations.PendingStep | OriginAgent/agent/confirmation.py:613-775 | a pending confirmation becomes confirmed, rejected or persistently confirmed if and only if the operation is a reply of that class to it, in time and by its owner where both are known, and expired if and only if the operation finds it after its time |
| Confirmations.AnsweredByReply | OriginAgent/agent/confirmation.py:613-775 | over every run a confirmation that was pending is confirmed, rejected or persistently confirmed only if such a reply was among the operations |
| Confirmations.FirstReplyCounts | OriginAgent/agent/confirmation.py:613-775 | over every run the first heard reply that is not unclear, if nothing finds the confirmation lapsed before it, is its answer for good; later it can only expire |
| Confirmations.ReplyMeans | OriginAgent/agent/confirmation.py:613-775 | which decision a reply is given back, from the record, the time and the caller, in the order of the checks |
| Confirmations.ReplyChanges | OriginAgent/agent/confirmation.py:689-775 | what a heard reply to a pending confirmation makes of the table, reply by reply |
| Confirmations.ConfirmedStep | OriginAgent/agent/confirmation.py:377-423 | a confirmed confirmation is consumed if and only if the operation is a claim in time for its kind, stamped with the time of the claim, and expired if and only if a claim, an expiry check or a reply finds it after its time |
| Confirmations.ClaimMeans | OriginAgent/agent/confirmation.py:377-405 | a claim is won if and only if the record is confirmed once, unconsumed, in time and of an allowed kind; then it alone changes, by its stamp |
| Confirmations.NotifiedStep | OriginAgent/agent/confirmation.py:777-800 | a notification that was given out is expired by exactly the operations that find it after its time, the sweep among them, and nothing else changes it |
| Confirmations.ChainFacts | OriginAgent/agent/confirmation.py:830-911 | a retry's count is its true depth and at most 3, its root id is the end of its chain of parents, and everything behind it is expired and unconsumed |
| Confirmations.RunLinked | OriginAgent/agent/confirmation.py:830-911 | every run keeps each retry linked to an expired, unconsumed parent with the count and root that follow from it |
| Confirmations.AncestorsStayUnconsumed | OriginAgent/agent/confirmation.py:830-911 | whatever happens next, nothing behind the newest confirmation of a chain is ever consumed |
| Confirmations.OneConsumedPerChain | OriginAgent/agent/confirmation.py:830-911 | in every reachable table at most one confirmation of any retry chain is consumed |
| Confirmations.RejectedUntilExpired | OriginAgent/agent/confirmation.py:377-423 | over every run a rejected confirmation changes only to expired, and has done so if and only if a claim, an expiry check or a reply looked at it after its expiry |
| Confirmations.RejectedMayBeRetried | OriginAgent/agent/confirmation.py:830-911 | after any run a rejected confirmation can be retried if and only if it was looked at so and is unconsumed, complete, of a retryable kind and below the limit |
| Confirmations.RetryCopies | OriginAgent/agent/confirmation.py:830-911 | a retry has the kind, texts, action, payload, facts and continuity of the record it retries, a new id and time to live, its link and count, and neither its key nor its owner; an empty or missing requester keeps the old one |
| Confirmations.RetryRules | OriginAgent/agent/confirmation.py:830-911 | a retry is made if and only if the record is there, expired, unconsumed, complete, of a retryable kind and below three retries, and which refusal is given otherwise |
| Confirmations.OncePerRoot | OriginAgent/agent/confirmation.py:830-911 | in every reachable table, two consumed confirmations of one root stem from some confirmation retried twice; where none is, each root is carried out at most once |
| Confirmations.Diverge | OriginAgent/agent/confirmation.py:830-911 | two retry chains to one root, neither within the other, part at a confirmation retried twice |
| Confirmations.SiblingsBothConsumed | OriginAgent/agent/confirmation.py:830-911 | an input: two retries of any retryable confirmation can both be claimed, under one root |
| ConfirmationStore.RunSchedule | OriginAgent/agent/confirmation.py:320-459 | for any schedule of locked sections by any number of stores on one file, every cache agrees with the file whenever it is used, the file ends as the functions on the table say, ids stay unique, a sorted file stays sorted, and every record evolves lawfully |
| ConfirmationStore.Turn | OriginAgent/agent/confirmation.py:425-459 | a step of one store leaves every store's cache in agreement with the file |
| ConfirmationStore.PendingConfirmationStore.Load | OriginAgent/agent/confirmation.py:425-450 | a load that does not fail returns what a fresh parse would; a failed one returns nothing and leaves the cache in agreement if and only if there was nothing |
| ConfirmationStore.PendingConfirmationStore.ReadAll | OriginAgent/agent/confirmation.py:324-332 | exactly the records that parse, in file order |
| ConfirmationStore.RecordsAre | OriginAgent/agent/confirmation.py:324-332 | the records of a readable file are all its record entries, in order, whatever else stands between them |
| ConfirmationStore.PendingConfirmationStore.WriteAll | OriginAgent/agent/confirmation.py:338-351 | the file then holds the same records sorted by creation time and id, and the cache is that file |
| ConfirmationStore.PendingConfirmationStore.Upsert | OriginAgent/agent/confirmation.py:353-365 | the record under its id is replaced or added and no other changes |
| ConfirmationStore.PendingConfirmationStore.Get | OriginAgent/agent/confirmation.py:367-375 | the record on file under the id, or none |
| ConfirmationStore.PendingConfirmationStore.ClaimConsumption | OriginAgent/agent/confirmation.py:377-405 | the list scan claims exactly the unexpired, confirmed-once, unconsumed record of an allowed kind, and expires a lapsed one instead |
| ConfirmationStore.PendingConfirmationStore.ExpireConfirmationIfNeeded | OriginAgent/agent/confirmation.py:407-423 | the record as it stands, expired on file if its time is up |
| ConfirmationStore.PendingConfirmationStore.ResolveUserReply | OriginAgent/agent/confirmation.py:613-775 | the loop over the records computes the locked section: its answer and the file are those of `Resolve`, of which `ReplyMeans`, `ReplyChanges` and `PendingStep` say what they are |
| ConfirmationStore.PendingConfirmationStore.ExpireOldRecords | OriginAgent/agent/confirmation.py:777-800 | exactly the lapsed pending and notified records expire, and the count returned is their number |
| ConfirmationStore.PendingConfirmationStore.RetryConfirmation | OriginAgent/agent/confirmation.py:830-911 | a retry is added under a new id only for an expired, unconsumed, complete record below the limit, with the refusals in the source's order |
| ConfirmationStore.SortKeepsTable | OriginAgent/agent/confirmation.py:338-345 | sorting before a write neither adds, drops nor duplicates an id |
| ConfirmationStore.SortSorts | OriginAgent/agent/confirmation.py:338-345 | the written list is in order of creation time and id |
| ConfirmationStore.FailedReadDropsRecords | OriginAgent/agent/confirmation.py:425-450 | after one failed read of an existing file the next write keeps the new record alone |
| McpLifecycle.OnlyTheRecordedTaskWrites | OriginAgent/agent/agent_host.py:270-349 | in every interleaving the flags mirror the state, and only the task in `_mcp_runtime_task` changes the host's fields or the content of `_mcp_stacks` |
| McpLifecycle.OneUnsettledTask | OriginAgent/agent/agent_host.py:234-349 | at any moment at most one task has its status write before it or is serving, and it is the recorded one |
| McpLifecycle.ReadyIsResolved | OriginAgent/agent/agent_host.py:270-349 | an ended task has left its ready future unresolved if and only if it was cancelled before its first step or in a handler without having served |
| McpLifecycle.StuckForGood | OriginAgent/agent/agent_host.py:234-268 | if the recorded task ended without its last section and the state is not `disconnected`, no run ever starts another |
| McpLifecycle.EndedRecordBlocks | OriginAgent/agent/agent_host.py:234-268 | a recorded task that has ended keeps every later run from starting another if and only if the state is not `disconnected` |
| McpLifecycle.DroppedBeforeStartSticks | OriginAgent/agent/agent_host.py:253-262 | an input: in any run, a connect whose task is cancelled before its first step leads to such a state |
| McpLifecycle.OnlySkippingSticks | OriginAgent/agent/agent_host.py:333-349 | a task that ended and is still recorded skipped its last section |
| McpLifecycle.OneHolder | OriginAgent/agent/agent_host.py:270-349 | without cancellation only the recorded task holds connections, and an ended task has closed all it opened |
| McpLifecycle.EndedTaskLeaks | OriginAgent/agent/agent_host.py:308-344 | in every run, cancelled anywhere, an ended task has a connection open if and only if a handler cleared its dictionary after it had served or its loop over the stacks was left early |
| McpLifecycle.AbandonedForGood | OriginAgent/agent/agent_host.py:333-349 | a connection that a task left behind stays open in every later run |
| McpLifecycle.CancelledWhileServingLeaks | OriginAgent/agent/agent_host.py:308-344 | an input: every connection of a task cancelled while serving stays open in every later run |
| McpLifecycle.ConnectedAfterClose | OriginAgent/agent/agent_host.py:351-370 | in every run, a close that arrives while the servers are being connected is followed by `connected` if and only if some server answers |
| McpLifecycle.PartingLasts | OriginAgent/agent/agent_host.py:303-349 | from there, unless it is cancelled, the task stays recorded with its shutdown event set and nothing starts another until it has ended |
| McpLifecycle.CloseCompletes | OriginAgent/agent/agent_host.py:270-349 | from every reachable closing state whose recorded task has not ended, the task's own steps, a number of them that is computed from its place, end in `disconnected` with nothing recorded, with its connections closed unless a handler has taken its dictionary away or is about to, and the next connect starts a new task |
| McpLifecycle.PartingEnds | OriginAgent/agent/agent_host.py:270-349 | the same among all others: in any interleaving without a failure of that task in which it has taken that many of its own steps, it has ended and closed its connections |
| McpLifecycle.WakeDrains | OriginAgent/agent/agent_host.py:306-336 | waking on the shutdown event, a task turns to closing exactly the connections it holds |
| McpLifecycle.CloseTells | OriginAgent/agent/agent_host.py:351-370 | a close sets the shutdown event of the recorded task and the state to closing, or clears what is left when none is recorded |
| McpLifecycle.ConnectCompletes | OriginAgent/agent/agent_host.py:234-306 | from every reachable disconnected state a connect starts a task whose own steps end with exactly the answering servers open and the state and the future saying whether there are any |
| McpLifecycle.CancelTells | OriginAgent/agent/agent_host.py:308-349 | a cancellation takes a task that waits for its servers, the lock with their answer or its shutdown event into the handler and ends any other at once, but for one in a handler, which goes on to close what it has; host and connections stay |
| McpLifecycle.FailTells | OriginAgent/agent/agent_host.py:308-332 | the handler reports `disconnected`, resolves a future still waiting to no, and empties the dictionary the host refers to, so that a task which served has nothing left to close |
| McpLifecycle.LeaveTells | OriginAgent/agent/agent_host.py:339-349 | the last section of the recorded task forgets it, reports `disconnected` and empties the dictionary; that of any other only ends it |
| McpLifecycle.RunKeeps | OriginAgent/agent/agent_host.py:234-370 | the invariant over flags, record, futures, events, dictionaries and open connections holds in every run, cancellation included |
| ContextBudget.Apply | OriginAgent/agent/context_budget.py:45-120 | the caller's messages keep their content, the result is made of new messages, and the audit says what each stage removed |
| ContextBudget.AuditMeans | OriginAgent/agent/context_budget.py:45-121 | when apply trims, its audit gives the estimate of what it returns, how many messages went, whether the estimate went down, and for each tier how many of its blocks the current user message lost |
| ContextBudget.NothingToTrim | OriginAgent/agent/context_budget.py:45-88 | when it does not, it returns what it was given, and the audit says why |
| ContextBudget.TierMeans | OriginAgent/agent/context_budget.py:174-241 | which source and kind of a block make it one of the three tiers |
| ContextBudget.RoomIsTheRest | OriginAgent/agent/context_budget.py:141-172 | the share of history is what the budget leaves beside every other message |
| ContextBudget.ApplyKeepsTierOrder | OriginAgent/agent/context_budget.py:45-120 | when the last user message is last, its blocks are dropped in strict tier order, other blocks survive, and the estimate fits or nothing removable is left |
| ContextBudget.TierOrder | OriginAgent/agent/context_budget.py:174-241 | the same about the three stages alone, and nothing is dropped when the estimate fits at once |
| ContextBudget.StageFacts | OriginAgent/agent/context_budget.py:195-241 | a stage drops the fewest blocks of its tier, last ones first, that make the estimate fit, or all of them, and none of another tier |
| ContextBudget.StagesLast | OriginAgent/agent/context_budget.py:195-241 | a message after the current user message, whatever its content, keeps it if the first stage suffices or no other block is removable, and otherwise ends with the blocks left of the current user message |
| ContextBudget.TrailingMessageKept | OriginAgent/agent/context_budget.py:45-120 | so apply as a whole keeps the last message if and only if the stages stop short of writing it or write what it said |
| ContextBudget.DropBlocks | OriginAgent/agent/context_budget.py:195-241 | the popping loop, writing the last message after each pop, computes the stage and counts what it removed |
| ContextBudget.DropRecentHistoryBlocks | OriginAgent/agent/context_budget.py:174-193 | all recent-history blocks go or none, as the estimate on entry says |
| ContextBudget.TrimHistory | OriginAgent/agent/context_budget.py:141-172 | system messages, a suffix of the other history and everything from the current message on remain, each message once |
| ContextBudget.HistoryFits | OriginAgent/agent/context_budget.py:156-172 | the kept history is a suffix whose tool results have their calls, it fits its share unless it is at most one message, and apart from the cut to a legal start no longer suffix fits |
| ContextBudget.LastUserStays | OriginAgent/agent/context_budget.py:89-101 | after history trimming the current user message is still the last one, so that step is never exhausted |
| ContextBudget.FindLegalMessageStart | OriginAgent/utils/helpers.py:210-225 | the least start from which every tool result answers a call made since |
| TurnPersist.ShortestExtension | OriginAgent/agent/agent_turn_persist.py:210-221 | the restored session ends, key by key, with the restored messages, and no shorter extension does |
| TurnPersist.RestoringTwice | OriginAgent/agent/agent_turn_persist.py:175-225 | restoring the same checkpoint again, at any later time, adds nothing |
| TurnPersist.RestoreCheckpoint | OriginAgent/agent/agent_turn_persist.py:175-225 | a dictionary checkpoint extends the session by what `CheckpointContent` says, without what it has already, and clears both entries; anything else changes nothing |
| TurnPersist.CheckpointContent | OriginAgent/agent/agent_turn_persist.py:175-208 | what is restored is the assistant message if there is one, then every dictionary among the results with its key unchanged, in order, then for every pending-call dictionary, in order, one Tool message with its id, its name or "tool" and the interruption text |
| TurnPersist.CallsAnswered | OriginAgent/agent/agent_turn_persist.py:175-225 | after recovery every call with a tool result or a pending call in the checkpoint is answered in the session |
| TurnPersist.ClosingAnswers | OriginAgent/agent/agent_turn_persist.py:227-243 | closing a turn adds the answer for an interrupted turn if and only if the flag is on and the user spoke last, and changes nothing else but the flag |
| TurnPersist.FindOverlap | OriginAgent/agent/agent_turn_persist.py:210-220 | the downward search finds the largest overlap |
| TurnPersist.RestorePendingUserTurn | OriginAgent/agent/agent_turn_persist.py:227-243 | a truthy pending flag is cleared, and a last user message gets exactly one closing answer |
| TurnPersist.StateRestore | OriginAgent/agent/agent_turn_pipeline.py:444-447 | after the restore sequence the session is recovered and saved, or was untouched |
| TurnPersist.RecoveryClears | OriginAgent/agent/agent_turn_pipeline.py:444-447 | recovery ends with the pending flag off, clears the checkpoint if and only if it was absent or a dictionary, keeps the history as a prefix and is idempotent |
| TurnPersist.DanglingUserMessage | OriginAgent/agent/agent_turn_persist.py:175-243 | an early-persisted user message stays unanswered if and only if a dictionary checkpoint restores nothing or ends in a user message |
| TurnPersist.PersistUserMessageEarly | OriginAgent/agent/agent_turn_persist.py:26-44 | a message with text or media and no pending question is saved last in the session with the flag set; any other changes nothing |
| TurnPersist.InterruptedTurn | OriginAgent/agent/agent_turn_persist.py:26-243 | a turn that dies after saving its message and any checkpoints, and dies again in recovery, loses neither the history nor the message |
| TurnPipeline.SplitMessagesByTurn | OriginAgent/agent/agent_turn_pipeline.py:265-294 | the loop computes the split into turns |
| TurnPipeline.FlattenSplit | OriginAgent/agent/agent_turn_pipeline.py:265-294 | flattening the split gives the input from its first user message on |
| TurnPipeline.SplitFlatten | OriginAgent/agent/agent_turn_pipeline.py:265-294 | splitting a flattened list of well-formed turns gives the turns back |
| TurnPipeline.FindHotStartIdx | OriginAgent/session/manager.py:719-775 | with few enough turns everything is hot; otherwise the cut is the latest of the wished place and the user messages before it from which every tool result has its call, or the first such place from the first user message on |
| TurnPipeline.HotPart | OriginAgent/session/manager.py:719-775 | every tool result of the hot part has its call in it, and if that is so from the first user message of the history on, the cut is at a user message or a delivery right before one and keeps at least the last `max_turns` turns |
| TurnPipeline.UsersBefore | OriginAgent/session/manager.py:736-744 | the user message at index j of the list has exactly j user messages before it |
| TurnPipeline.UsersListed | OriginAgent/session/manager.py:736-744 | the list has the index of every user message, in increasing order |
| TurnPipeline.Session.Append | OriginAgent/agent/warm_store.py:51-97 | one turn is added to the warm buffer, user message first, and counted; it fails exactly when the stored buffer cannot be read, and then changes nothing |
| TurnPipeline.Session.Spill | OriginAgent/agent/agent_turn_pipeline.py:297-338 | a spill moves the turns before the cut and shifts `last_consolidated`, or fails at its first append and leaves everything as it was |
| TurnPipeline.SpillConserves | OriginAgent/agent/agent_turn_pipeline.py:297-338 | after one spill, what was spilled and what stays are the history in order, but for the messages before the first user message of the spilled part |
| TurnPipeline.WholeTurnsMove | OriginAgent/agent/agent_turn_pipeline.py:265-338 | the turns before and after a cut are the turns of the history if and only if the cut is at the end, at a user message, or before the first one |
| TurnPipeline.Converse | OriginAgent/agent/agent_turn_pipeline.py:297-338 | over any run of saves and spills the hot part is what follows the last cut, the warm buffer gains in order exactly what is not missing, and when tool results answer calls of their own turn only deliveries at earlier cuts, and what precedes the first user message, are missing |
| TurnPipeline.MissingDeliveries | OriginAgent/agent/agent_turn_pipeline.py:265-338 | on aligned cuts a spilled message is in neither place if and only if no user message precedes it or it is a delivery at which an earlier spill cut |
| TurnPipeline.TurnLocalLegal | OriginAgent/session/manager.py:746-775 | if tool results answer calls of their own turn, every later part of the history is legal from its first user message on |
| TurnPipeline.DeliveryIsDropped | OriginAgent/agent/agent_turn_pipeline.py:297-338 | an input: a delivery between two turns is in neither place after two spills |
| TurnPipeline.TailUnchanged | OriginAgent/agent/agent_turn_pipeline.py:328-335 | the unconsolidated tail is unchanged if and only if `last_consolidated` is at or past the cut |
| CognitiveRuntime.AgentCognitiveRuntime.RunCognitivePass | OriginAgent/agent/agent_cognitive_runtime.py:235-450 | a pass, with its checks in the source's order, does to its own session what the function says and nothing to any other |
| CognitiveRuntime.AgentCognitiveRuntime.UpdateFailureState | OriginAgent/agent/agent_cognitive_runtime.py:195-219 | a judged nudge counts one failure or resets the count, and the third failure starts the cooldown, for this session alone |
| CognitiveRuntime.AgentCognitiveRuntime.UpdateLoopDetection | OriginAgent/agent/agent_cognitive_runtime.py:111-136 | a repeat is counted, another content starts over, and the third repeat starts the silent period, for this session alone |
| CognitiveRuntime.NoNudgeInCooldown | OriginAgent/agent/agent_cognitive_runtime.py:327-380 | from the pass that records the third consecutive failure on, nothing is sent for 1800 seconds in any run; no later success closes the breaker early |
| CognitiveRuntime.BreakerHolds | OriginAgent/agent/agent_cognitive_runtime.py:195-219 | in every run the counter is at most 3, a cooldown is set exactly when it is 3, and then no nudge is pending |
| CognitiveRuntime.JudgedOnce | OriginAgent/agent/agent_cognitive_runtime.py:195-219 | a nudge is judged once: a success clears the count and any cooldown, a failure adds one, and from the third in a row on starts 1800 seconds |
| CognitiveRuntime.RepeatsCounted | OriginAgent/agent/agent_cognitive_runtime.py:111-136 | a nudge is counted with those of the same content directly before it, and from the third on each starts a silent period of 3600 seconds |
| CognitiveRuntime.BrakesLetGo | OriginAgent/agent/agent_cognitive_runtime.py:74-109 | a pass sends nothing before the end of a cooldown or a silent period and, from that time on, what it may; what ran out is forgotten |
| CognitiveRuntime.WhenAPassSends | OriginAgent/agent/agent_cognitive_runtime.py:235-450 | a pass sends the first allowed candidates, in order, up to its limit, if and only if runtime and session are on, the user was not active for 300 seconds and neither brake holds |
| CognitiveRuntime.SelfLoopBound | OriginAgent/agent/agent_cognitive_runtime.py:111-136 | with at most one message per pass any four consecutive nudges of the same content span at least 3600 seconds, in every run |
| CognitiveRuntime.FourWithinAMoment | OriginAgent/agent/agent_cognitive_runtime.py:382-450 | with any greater limit four equal nudges can go out within a moment |
| CognitiveRuntime.Politeness | OriginAgent/agent/agent_cognitive_runtime.py:138-168 | a pass sends at most its limit, and nothing within 300 seconds of the session's last update |
| ReviewLog.HistoryRepeats | OriginAgent/agent/curator.py:245-277 | in any history of runs of any number of curator services on one log, mixed with decisions, updates and other proposals, the log repeats a pending topic or a state at some moment if and only if some append adds a pick that is no longer novel |
| ReviewLog.AppendRepeats | OriginAgent/agent/curator.py:276-277 | an append to a log without repeats makes one if and only if some pick repeats a pending topic or a state of the log at that moment |
| ReviewLog.CuratorNeverRepeats | OriginAgent/agent/curator.py:1401-1439 | in any such history in which no run starts while another has not appended yet, no proposal has two events, no two curated proposals on a topic are pending together, and none share topic and state |
| ReviewLog.DecidedForGood | OriginAgent/agent/background_review.py:584-636 | the status and the payload of a decided proposal never change again |
| ReviewLog.BuildProposals | OriginAgent/agent/curator.py:376-425 | over its groups of items, stopping at the limit, a run picks exactly the items that are complete and repeat neither the log nor an earlier pick |
| ReviewLog.PickedExactly | OriginAgent/agent/curator.py:376-425 | the next item is picked if and only if the limit (12 by default, at least 1) is not reached, it has a type, a key and a hash, and it repeats neither the log nor the topic of an earlier pick |
| ReviewLog.ProposalDeduper.constructor | OriginAgent/agent/curator.py:1404-1419 | the sets hold exactly the topics pending and the states decided among the curator's records, with types stripped and in lower case and keys and hashes stripped |
| ReviewLog.WantedIsNovel | OriginAgent/agent/curator.py:1421-1432 | the deduper lets a complete proposal through if and only if no pending curated proposal has its topic and no curated one its topic and state |
| ReviewLog.TopicsCompare | OriginAgent/agent/curator.py:1401-1439 | two proposals are on one topic if and only if their types are the same but for case and surrounding blanks and their keys but for surrounding blanks; and about one state if their hashes are too |
| ReviewLog.ReviewProposalStore.LatestEvents | OriginAgent/agent/background_review.py:297-305 | folding the log gives each proposal its last event |
| ReviewLog.LastEventCounts | OriginAgent/agent/background_review.py:297-305 | a proposal has the status of the last event about it, and is pending while there is none |
| ReviewLog.FirstPendingIsEdited | OriginAgent/agent/background_review.py:235-256 | a payload is replaced, or a decision recorded, if and only if some proposal has the id and is pending: in the first one, or by one event; nothing else of the log changes |
| ReviewLog.ReviewProposalStore.MergedRecords | OriginAgent/agent/background_review.py:307-349 | every proposal once, in order, with the status of its last event |
| ReviewLog.ReviewProposalStore.Apply | OriginAgent/agent/background_review.py:441-545 | one event is added exactly for a known, undecided, applicable proposal, and the result says which refusal applied otherwise |
| ReviewLog.ReviewProposalStore.RecordTerminalDecision | OriginAgent/agent/background_review.py:584-636 | a rejection or deferral adds one event exactly for a known, undecided proposal |
| ReviewLog.ReviewProposalStore.UpdatePayload | OriginAgent/agent/background_review.py:235-256 | only the payload of the first proposal with the id changes, and only while it is undecided |
| ReviewLog.OverlappingRunsRepeat | OriginAgent/agent/curator.py:245-277 | an input: two services on one log that both read it before either appends propose the same twice, on any log without repeats |
| ReviewLog.UpdateMayRepeat | OriginAgent/agent/background_review.py:235-256 | an update that changes the state hash keeps the curator's proposals apart if and only if no other has that topic and state |
| AuxiliaryRouter.CooldownsAreRespected | OriginAgent/agent/auxiliary_llm.py:138-161 | over any sequence of calls and changes of the primary, no candidate is invoked before an earlier mark of it has run out, except the primary after it was changed |
| AuxiliaryRouter.DistinctKeysTried | OriginAgent/agent/auxiliary_llm.py:467-475 | a call tries distinct keys in list order |
| AuxiliaryRouter.NoCandidatePassedOver | OriginAgent/agent/auxiliary_llm.py:468-537 | a call passes over a candidate only when it has its answer or the candidate rests, and goes on after one only when it failed |
| AuxiliaryRouter.AuxiliaryLLMRouter.CallLlm | OriginAgent/agent/auxiliary_llm.py:446-551 | the loop computes the call, and never returns a non-error answer with both content fields blank |
| AuxiliaryRouter.AuxiliaryLLMRouter.SetPrimary | OriginAgent/agent/auxiliary_llm.py:113-126 | only a changed provider or model ends the primary's cooldown |
| AuxiliaryRouter.Candidates | OriginAgent/agent/auxiliary_llm.py:259-309 | primary first, then the creatable presets in order, each key at its first preset only, so all keys differ |
| AuxiliaryRouter.CandidatesAre | OriginAgent/agent/auxiliary_llm.py:259-309 | the candidates are the primary and then, in order, exactly the presets that can be made and are the first of their key |
| AuxiliaryRouter.ReasonMeans | OriginAgent/agent/auxiliary_llm.py:317-370 | which errors go over to the next candidate, as payment or transient, and which end the call |
| AuxiliaryRouter.CooldownsAfterCall | OriginAgent/agent/auxiliary_llm.py:143-161 | after a call over different keys, each tried candidate that failed rests from its answer on for the time its failure gives, if any, each other tried one has no cooldown, and each one passed over keeps its own |
| AuxiliaryRouter.ResultMeans | OriginAgent/agent/auxiliary_llm.py:446-551 | a call gives back the response of the last candidate tried, or an error of its own when none could be tried or that response was blank without ending the call |
| AuxiliaryRouter.ToolCallsAloneAreDropped | OriginAgent/agent/auxiliary_llm.py:353-361 | in any call a tried answer that is no error comes back if and only if one of its texts is not blank, whatever its tool calls |

## Left out

- Redaction and truncation of texts are one cleaning function given from outside; nothing is assumed of it but where a
  statement says so. Blanks are ASCII whitespace and lower-casing is of ASCII letters.
- Token estimates are an arbitrary function to the naturals, new ids are unused numbers, times are integers or reals, and
  ids and timestamps are ordered as numbers, as their fixed-width texts are.
- Gate, permission, simulation, backend, server and provider answers are arbitrary inputs of the step that receives them;
  a hook that raises is the same as its failure answer.
- JSON, fsync, temporary files and file locks: a locked section is one atomic step on the content of the file.
- ActionProtocol.Step: a motor tick is some number of dispatches of any queue positions; which positions is the subject of
  `MotorQueue`. Action records, audit events and simulation feedback are not part of its state.
- ActionExecutor.SafeActionExecutor.Submit: a confirmation that cannot be created, which the source answers with `failed`, is
  not modelled: creation under a new id succeeds.
- Idempotency.AtMostOneSuccessPerKey: requires that a success is saved and that the process does not die between the
  backend call and the saving, since the source keeps the key nowhere else.
- IntentSnapshot.SanitizePayload: values are texts; nested dictionaries and lists, other values and the dropping of None
  values are not modelled.
- IntentSnapshot.RoundTrip: concerns intents whose texts cleaning leaves alone; blanks are ASCII whitespace.
- Confirmations.Legal: new ids are unused; `create_tool_approval` is a creation, and its reuse of a pending approval with
  the same key is not modelled, nor are the list views.
- Confirmation texts, reply phrases and times to live: a reply arrives classified and a time to live is a given number.
- ConfirmationStore.ConfirmationFile: each write gives a signature never seen before; edits by other programs are not
  modelled.
- McpLifecycle.Step: the snapshot, the startup error and connections opened by a connect that fails are not modelled. A
  server whose closing raises or is cancelled counts as still open.
  Acquiring the lock is a switch point, which allows more interleavings than an event loop does.
- ContextBudget.Apply: the list of trimmed blocks in the audit and the block counts are left out; the counts of removed
  blocks are not.
- TurnPersist.RestoreCheckpoint: message keys are compared as values, and the continuity checkpoint is not modelled.
- TurnPipeline.Session.Spill: episode indices are not modelled; the source clamps them to the new length. A stored buffer
  whose messages are an iterable other than a list is not modelled.
- CognitiveRuntime.Pass: the checks of one pass read one time; decisions, audit events and working memory are left out, and
  a content hash stands for its content.
- ReviewLog.ReviewProposalStore.MergedRecords: the status field of a proposal's own record is taken to be `pending`, with
  which every proposal is created.
- ReviewLog.Take: the auto-verify append of the curator, which writes an event without looking at the status, is excluded;
  what applying a proposal does outside the log is an arbitrary outcome.
- AuxiliaryRouter.Do: calls are sequential; which presets a task has and what error texts contain are inputs.
- The audit hash chain, the active-intent ledger, prompt assembly, tool registration, provider wiring, network calls and
  user interfaces.
