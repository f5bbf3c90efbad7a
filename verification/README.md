# Verified model of a distributed agent runtime

A Dafny model of the stateful protocol code of a distributed actor runtime for agents, with proofs of
what that code keeps over every run. JavaScript runs each turn to completion, so the stretch between two
`await`s is one atomic event; a run is any sequence of enabled events, and the theorems quantify over
all runs. Where the code is an object that changes step by step, a Dafny class with the same fields takes
the same steps and is proved against the specification functions the theorems are about.

| file | what it models |
|---|---|
| `Budget.dfy` | spend amounts, their cleaning, workflow ceilings |
| `Orchestrator.dfy`, `OrchestratorLedger.dfy`, `OrchestratorBarrier.dfy`, `OrchestratorBudget.dfy`, `OrchestratorOvershoot.dfy` | the crash-safe workflow orchestrator: exactly-once accounting, the clear barrier, resume, the budget stop |
| `OrchestratorFloor.dfy`, `OrchestratorConservation.dfy`, `OrchestratorNumbers.dfy`, `OrchestratorExact.dfy`, `OrchestratorDiscipline.dfy` | spend and stop in plain numbers, the least the totals can be, the totals event by event, when the accounting is exact, and a way of calling under which it always is |
| `OrchestratorCalls.dfy`, `OrchestratorResume.dfy`, `OrchestratorOrigin.dfy`, `OrchestratorReset.dfy` | how calls end and saves are ordered, results that stay, where the steps of a cleared store come from, and who can outrun a clear |
| `WorkflowOrchestrator.dfy` | the orchestrator as an object, with its checkpoint objects on the heap |
| `Actor.dfy`, `ActorTheorems.dfy`, `ActorOutcomes.dfy`, `AgentActor.dfy` | the life of an actor's tasks: guards, attempts, timeouts, back-off, node stop, emergency stop |
| `StopProtocol.dfy`, `ControlChannel.dfy` | the emergency STOP ALL protocol between issuers, the saved key, a lossy channel and nodes |
| `Utf8.dfy`, `JsonCaps.dfy`, `JsonText.dfy`, `DeadLetters.dfy` | byte caps, the JSON text they measure, dead letters and their replay |
| `Snapshot.dfy`, `SnapshotFields.dfy`, `SnapshotObjects.dfy` | the gateway snapshot against the fold on a board |
| `CompletionRouter.dfy`, `CompletionRouterObject.dfy`, `FanIn.dfy` | the completion router and its fan-in |
| `TokenLedger.dfy`, `TokenLedgerNumbers.dfy`, `AgentStatePublisher.dfy`, `InsertionOrder.dfy` | the token ledger of one agent; the key order of a Map |
| `Window.dfy`, `RateLimiter.dfy`, `SlidingWindowBreaker.dfy` | sliding windows against full logs |
| `ModelRouter.dfy`, `AuditLog.dfy` | model routing, the audit chain |

USD, scores and token counts are reals (a JavaScript value that is not a finite number is modelled as
such); milliseconds and bytes are integers. The store, the channel, the queue, clocks, hash functions and
what handlers do are the environment: parameters or nondeterministic events. Strings are sequences of
code points in which a surrogate stands for a lone one.

Where the code does something other than its documentation says, the model follows the code:

- The documentation of the orchestrator (`src/shared/orchestrator.ts:15-17`) promises that of two steps that
  dispatch one task id the second reuses the result of the first. That holds once the first has completed.
  The orchestrator takes any router: with one that lets both waits go on, the id is charged twice
  (`OverlappingWaitsChargeTwice`); the completion router refuses the second wait while the first is pending
  (`DuplicateWaitRefused`), so that this step fails. When the totals stay exact is `CountedOnceExactlyWhen`,
  and a way of calling under which they always do is `AlwaysExact`.
- The documentation of the load (`src/shared/orchestrator.ts:310-314`) says that a step waiting for it when
  `clear()` ran throws instead of dispatching after the reset. A step whose load has settled and which has
  passed the check, but has not yet gone on, still dispatches (`ReadyOutrunsReset`); no other one does
  (`LetThroughOnlyIfReady`, `ReadyLetThroughExactly`).
- `src/shared/agent-node.ts:126-127` says that a task sent before an emergency stop is never run by a node
  that starts after it. What must come after the stop is the read of the saved key, not the start of the
  actor (`NoLostStop`, `StopAfterReadCanBeOutrun`), and the key must not hold a value that nodes refuse
  with a later moment (`KeyHoldsMaximum`, `RefusedValueHidesStop`).
- The router's abort listener looks the task id up when it fires, so one left by an earlier wait can drop a
  later wait on the same id (`AbortAnswersExactly`, `StaleListenerDropsWaiter`).
- The comment on `src/adapters/state/agent-state-publisher.ts:447` says that the error is published once; a
  result that reaches a cap publishes it twice, before and inside the catch block. `EndAttempt` states
  exactly when.

## Model

| member | source | states |
|---|---|---|
| `OrchestratorLedger.SpendCountedOnce` | src/shared/orchestrator.ts:413-475 | for every run over any crashes, failed loads, failed saves and restarts, at every await point the totals in memory and in the saved record are at least the spend of the distinct task ids of the steps beside them plus the recorded deltas, whatever completions overlapped, and exactly that as long as none did |
| `OrchestratorLedger.LedgerRun` | src/shared/orchestrator.ts:326-388 | the accounting invariant behind it holds in every reachable world, for the instance, the store and the save under way |
| `OrchestratorLedger.AccountsMeansSteps` | src/shared/orchestrator.ts:499-507 | without overlaps, the ledger is the spend of the distinct task ids, each read off the result the checkpoint keeps for it, plus the deltas |
| `OrchestratorFloor.WriteAddsAtMost` | src/shared/orchestrator.ts:436-441 | however the results kept under one task id differ, writing a step raises what any choice of one result for each id is worth by at most the charge of that step, and by nothing when its result was kept already |
| `OrchestratorConservation.TotalsAreEvents` | src/shared/orchestrator.ts:250-266 | since the instance started or was last reset, the totals are the cleaned charges of the completions plus the cleaned recordSpend amounts plus the saved spend of the loaded record, and the recorded deltas are those amounts plus the deltas of that record |
| `OrchestratorConservation.RestoredOnce` | src/shared/orchestrator.ts:343-351 | an instance restores the saved spend at most once |
| `OrchestratorConservation.RecordIsSnapshot` | src/shared/orchestrator.ts:362-371 | in every run the saved record, spend and deltas included, is what the run held at one earlier moment |
| `OrchestratorNumbers.SpendInNumbers` | src/shared/orchestrator.ts:261-301 | in every run a completion, a recordSpend and a load add the finite, non-negative amounts handed in, tokens to tokens and USD to USD; what is missing, negative or not finite adds nothing, nor does any other event |
| `OrchestratorNumbers.StartsAtZero` | src/shared/orchestrator.ts:525-537 | a new instance and the reset of clear begin with zero totals, no stop and nothing reported |
| `OrchestratorExact.CountedOnceExactlyWhen` | src/shared/orchestrator.ts:425-443 | exactly when the totals stay the spend of the steps plus the deltas: a completion keeps them so if and only if its call belongs to the current run and its task id is new to the steps, or it is free, and it does not overwrite the last step of a task id that was paid for |
| `OrchestratorExact.ReuseCountedOnceExactlyWhen` | src/shared/orchestrator.ts:425-443 | reusing the result of a completed step keeps them so if and only if it does not overwrite such a step |
| `OrchestratorExact.ExactInRuns` | src/shared/orchestrator.ts:425-443 | the same over every run: the next completion after none overlapped stays exact exactly under that condition |
| `OrchestratorExact.SpendOfWrite` | src/shared/orchestrator.ts:441 | what writing one step does to the spend of the steps: a new task id adds its charge, one no longer shown takes its own away |
| `OrchestratorExact.OverlappingWaitsChargeTwice` | src/shared/orchestrator.ts:425-438 | a run of the machine, with a router that lets two steps wait for one task id at the same time: the totals hold the charge twice, the steps show the id once, and the totals are explained only if the charge is zero |
| `OrchestratorDiscipline.AlwaysExact` | src/shared/orchestrator.ts:413-475 | over every run in which the caller calls no step of a name in flight, waits for no task id twice at a time, takes no synthetic id, and clears with no step in flight, the totals in memory and in the saved record are always the spend of the steps plus the deltas |
| `OrchestratorBarrier.ClearBarrier` | src/shared/orchestrator.ts:525-540 | after the wipe of a clear has landed, for every interleaving of queued saves, loads, steps and recordSpend, the store holds no record until a step called after the reset completes, and only such steps are in it |
| `OrchestratorOrigin.NoEarlierStepReappears` | src/shared/orchestrator.ts:525-540 | once the wipe of a clear has landed, every step the store ever holds again, over any later crashes and clears, was completed with that task id and result by a call made after the reset |
| `OrchestratorBarrier.StaleLoaderNeverStarts` | src/shared/orchestrator.ts:315-324 | a call still waiting for the load when clear resets the run never dispatches and never writes a step: it can only throw |
| `OrchestratorReset.LetThroughOnlyIfReady` | src/shared/orchestrator.ts:315-324 | in every run, a call not yet dispatching at the reset is let through afterwards only if it had passed the generation check before |
| `OrchestratorReset.ReadyLetThroughExactly` | src/shared/orchestrator.ts:413-422 | a call past the check, before or after a reset, is let through if and only if its step is not in the checkpoint object it holds, no ceiling is reached and the stop signal has not aborted |
| `OrchestratorReset.ReadyOutrunsReset` | src/shared/orchestrator.ts:525-537 | a run of the machine in which such a call dispatches for a run already cleared |
| `OrchestratorResume.WriteOnceResume` | src/shared/orchestrator.ts:413-422 | over every crash schedule a step held by the saved record is replayed, never dispatched or produced again, and returns the saved result when no step was called while an earlier call of its name had not returned or thrown |
| `OrchestratorResume.RecordOnlyGrows` | src/shared/orchestrator.ts:379-388 | until a clear, over crashes, failed loads and failed saves, the saved record keeps every step it held, and under the same discipline of the caller also its task id and result |
| `OrchestratorResume.TwoCallsOverwrite` | src/shared/orchestrator.ts:413-443 | a run of the machine that shows the discipline is needed: with two calls of one step in flight, a third call returns a result other than the saved one |
| `OrchestratorResume.SavedResultChanges` | src/shared/orchestrator.ts:441-442 | and a run in which the saved result of a step changes |
| `OrchestratorCalls.CallGoesOn` | src/shared/orchestrator.ts:413-443 | in every run an event of a call takes that call on and no other: replayed, let through or refused for its very reason, written with its result |
| `OrchestratorCalls.CallBegins` | src/shared/orchestrator.ts:303-340 | a new call waits for the load under the generation of its time; the reserved step name starts nothing |
| `OrchestratorCalls.SaveSettles` | src/shared/orchestrator.ts:379-388 | when its save settles a step returns its result, or throws if the save failed; no other call moves |
| `OrchestratorCalls.SaveSkipped` | src/shared/orchestrator.ts:380-384 | a save that is skipped after clear returns its step as one that landed does |
| `OrchestratorCalls.LoadFailureThrows` | src/shared/orchestrator.ts:326-341 | a failed load throws in every call that waits for it and in no other, and the next call loads again |
| `OrchestratorCalls.ChainInOrder` | src/shared/orchestrator.ts:379-388 | saves and wipes are done in the order in which they were asked for |
| `OrchestratorCalls.ResumingLoads` | src/shared/orchestrator.ts:396-399 | asking whether a run is resumed starts the load unless it is under way or done, and nothing else |
| `OrchestratorCalls.AbortLasts` | src/shared/orchestrator.ts:286-290 | the emergency stop is in force exactly from its moment to the end of the process; clear does not lift it |
| `OrchestratorCalls.AtAnyTime` | src/shared/orchestrator.ts:250-259 | calls, recordSpend, clear, the emergency stop and a crash may come at any moment of a run, and a load may always succeed or fail |
| `OrchestratorCalls.WorkGoesOn` | src/shared/orchestrator.ts:413-443 | a ready call can proceed, a dispatch may return a new id or one a step shows, work may complete or fail |
| `OrchestratorCalls.JobsGoOn` | src/shared/orchestrator.ts:379-388 | no job of the save chain is stuck: it starts, waits for the load only, and its store call lands or fails |
| `OrchestratorBudget.BudgetStopExact` | src/shared/orchestrator.ts:268-285 | whatever record a run starts from, its stop flag included, at every await point the stop is the one the current budget asks for, it was set at totals not above the present ones, and it was reported at most once |
| `OrchestratorNumbers.StopInNumbers` | src/shared/budget.ts:185-197 | in every run the workflow is stopped if and only if a finite, positive ceiling is at most the totals, tokens or USD, and the stop names the tokens exactly when they had reached theirs as it was set |
| `OrchestratorNumbers.ReportedWhenSet` | src/shared/orchestrator.ts:268-284 | a stop is reported exactly when an event sets it, unless it was saved: that one was reported before |
| `OrchestratorBudget.TotalsOnlyGrow` | src/shared/orchestrator.ts:261-266 | the totals never decrease except by a crash or the reset of a clear |
| `OrchestratorBudget.NoDispatchWhileStopped` | src/shared/orchestrator.ts:287-296 | nothing is dispatched or produced while a ceiling is reached or the emergency stop is set; exactly the checkpointed steps are still replayed |
| `OrchestratorOvershoot.OvershootBounded` | src/shared/orchestrator.ts:268-301 | over any crashes and resumes under one budget, with at most n steps in flight and none charged more than u, the totals stay below a ceiling plus n times u plus what recordSpend added |
| `OrchestratorOvershoot.SequentialOvershoot` | src/shared/orchestrator.ts:268-301 | with steps called one after the other they stay below a ceiling plus the charge of one step |
| `WorkflowOrchestratorObject.WorkflowOrchestrator.Add` | src/shared/orchestrator.ts:261-284 | the amounts are added, and the stop is set if and only if a finite, positive ceiling is at most the totals; it is reported exactly when this amount crosses one, with the totals of that moment |
| `WorkflowOrchestratorObject.WorkflowOrchestrator.RecordSpend` | src/shared/orchestrator.ts:250-258 | the finite, non-negative amounts of the delta are added and nothing for a bad one, the steps stay, a save is queued; the stop is exact and reported exactly when this delta crosses a ceiling |
| `WorkflowOrchestratorObject.WorkflowOrchestrator.FinishLoad` | src/shared/orchestrator.ts:343-359 | an answer that arrives after clear changes nothing; else the saved steps are installed on a new checkpoint object and the saved spend counted once, the stop is exact for the current budget whatever the saved flag says, and a stop that was saved is not reported again |
| `WorkflowOrchestratorObject.WorkflowOrchestrator.LoadFailed` | src/shared/orchestrator.ts:326-341 | a failed load is retried by the next call and counts nothing; after clear its failure is dropped |
| `WorkflowOrchestratorObject.WorkflowOrchestrator.Decide` | src/shared/orchestrator.ts:413-422 | a step is replayed if and only if the checkpoint it loaded holds it, with the saved result, and let through if and only if it does not, no ceiling is reached and the signal has not aborted |
| `WorkflowOrchestratorObject.WorkflowOrchestrator.FindByTaskId` | src/shared/orchestrator.ts:499-507 | found if and only if some completed step has the task id, and then with the result of such a step |
| `WorkflowOrchestratorObject.WorkflowOrchestrator.CompleteStep` | src/shared/orchestrator.ts:425-443 | what was waited for is charged once and what was reused not at all; the step goes to the checkpoint object the call holds, so a call of a cleared run leaves the current steps alone; the stop is exact and reported exactly when this charge crosses a ceiling |
| `WorkflowOrchestratorObject.WorkflowOrchestrator.Persist` | src/shared/orchestrator.ts:362-388 | nothing is saved if and only if the run was cleared and no step has completed since; else the record holds the current steps, restores to exactly the totals and carries the exact stop flag |
| `WorkflowOrchestratorObject.WorkflowOrchestrator.ResetForClear` | src/shared/orchestrator.ts:525-537 | an empty run on a new checkpoint object with zero totals and no stop; the objects that earlier steps hold are kept as they are |
| `Budget.CleanAmount` | src/shared/budget.ts:55-63 | an amount counts as v if and only if it is the finite, non-negative number v, or v is zero and it is anything else |
| `Budget.CleanTotals` | src/shared/budget.ts:66-71 | each field is cleaned by itself: tokens to tokens, USD to USD |
| `Budget.SumOverAdd` | src/shared/budget.ts:66-71 | paying for one more task id adds exactly its cleaned spend to the sum over the ledger |
| `ActorTheorems.OneTerminalRecord` | src/application/actor/AgentActor.ts:326-404 | in every run a task delivered to its own actor has at most one record on both channels together, exactly one once it has ended unless a publish failed, and a task addressed to another agent has none; at most three handler calls (none when refused), and while no publish failed the breaker is told of a success exactly for a completion and of a failure exactly for a final timeout or exhausted retries |
| `ActorTheorems.IgnoredExactlyWhen` | src/application/actor/AgentActor.ts:216-223 | over every run a task is ignored exactly when it was addressed to another agent |
| `ActorOutcomes.Arrival` | src/application/actor/AgentActor.ts:216-242 | how a delivery leaves a task: ignored when addressed to another, dead-lettered by the stop that covers it or by the drain, else with the guards; nothing called or recorded yet |
| `ActorOutcomes.AtAnyTime` | src/application/actor/AgentActor.ts:544-567 | an actor begins with nothing stopped, and stops, drains and new tasks can come at any time |
| `ActorOutcomes.GuardRefuses` | src/application/actor/AgentActor.ts:253-321 | over every run a task that a guard blocks is never run: it ends as one record of that guard unless its publish fails |
| `ActorOutcomes.GuardsPass` | src/application/actor/AgentActor.ts:242-244 | a task that no guard blocks is run at once, unless a stop or a drain got there first |
| `ActorOutcomes.NextAttempt` | src/application/actor/AgentActor.ts:326-345 | after its back-off the next attempt is made, up to the third, unless a stop or a drain got there first |
| `ActorOutcomes.RaisedAttempt` | src/application/actor/AgentActor.ts:363-404 | over every run an attempt that raises an error never completes the task: until another attempt is made it is on its way to one dead letter, of that error or, for an ordinary error, of the stop or drain in between |
| `ActorOutcomes.TimedOutAttempt` | src/application/actor/AgentActor.ts:345-404 | the same for an attempt that times out, which ends as task_timeout |
| `ActorOutcomes.RetriedExactlyWhen` | src/application/actor/AgentActor.ts:363-404 | another attempt is made if and only if the error is ordinary or a timeout that is retried, it was the first or second attempt, and neither a stop covers the task nor the actor drains |
| `ActorOutcomes.ReturnedAttempt` | src/application/actor/AgentActor.ts:345-362 | over every run an attempt that returns completes the task, whatever stops and timeouts come later, unless its publish fails |
| `ActorOutcomes.FailedAnnouncement` | src/application/actor/AgentActor.ts:345-404 | a completion that cannot be published counts as an ordinary error of the attempt |
| `ActorOutcomes.SuccessesReported` | src/application/actor/AgentActor.ts:345-362 | the breaker is told of a success exactly when an attempt that returned is taken up |
| `ActorOutcomes.Buried` | src/application/actor/AgentActor.ts:449-480 | a published dead letter ends the task with that one record; one that cannot be published leaves none |
| `ActorOutcomes.DrainEndsRunningAttempt` | src/application/actor/AgentActor.ts:557-567 | a drain ends a running attempt as one actor_stopped dead letter |
| `ActorOutcomes.NoAttemptAfterDrain` | src/application/actor/AgentActor.ts:326-336 | over every run no handler is called once the actor drains |
| `ActorTheorems.TaskEnds` | src/application/actor/AgentActor.ts:326-378 | every task ends within 50 turns of its own, and until then one of its turns is enabled |
| `ActorTheorems.CutoffIsMaximum` | src/application/actor/AgentActor.ts:544-546 | the cutoff is the maximum of all moments received |
| `ActorTheorems.CutoffIgnoresOrder` | src/application/actor/AgentActor.ts:544-546 | two runs that received the same moments, in any order and repetition, end with the same cutoff |
| `ActorTheorems.NoAttemptAfterStop` | src/application/actor/AgentActor.ts:326-336 | once a task was sent at or before the cutoff its handler is not called again, be it in guards, back-off or not yet received |
| `ActorTheorems.RefusedOnArrival` | src/application/actor/AgentActor.ts:225-234 | a task delivered after a stop it was sent before is never run |
| `ActorTheorems.StopEndsRunningAttempt` | src/application/actor/AgentActor.ts:510-555 | a running attempt covered by a stop ends as one emergency_stop dead letter with no further attempt, whatever its handler does later |
| `ActorTheorems.LaterTasksUntouched` | src/application/actor/AgentActor.ts:547-552 | a stop leaves a task with a later timestamp exactly as it was |
| `Actor.Run` | src/application/actor/AgentActor.ts:216-268 | bookkeeping of every task in every reachable state: attempts, records, breaker reports and obedience to stops |
| `AgentActorObject.AgentActor.ProcessTask` | src/application/actor/AgentActor.ts:216-244 | a delivery goes to the guards if and only if it is addressed to the actor and nothing keeps an attempt of it from starting now; else it is refused for that very reason without a handler call; no other task is touched |
| `AgentActorObject.AgentActor.EmergencyStop` | src/application/actor/AgentActor.ts:544-555 | walking the in-flight table aborts exactly the running attempts the stop covers, returns their number, and is a no-op for a stop that is not later |
| `AgentActorObject.AgentActor.Stop` | src/application/actor/AgentActor.ts:557-567 | a graceful stop aborts every running attempt and lets none start |
| `AgentActorObject.AgentActor.LeaveAttempt` | src/application/actor/AgentActor.ts:529-535 | leaving an attempt clears its entry and takes the success or the catch turn of the state machine |
| `AgentActorObject.ExecuteWithRetries` | src/application/actor/AgentActor.ts:326-378 | the attempt loop ends the task exactly as the turns of the state machine do, record, handler calls and breaker reports alike, within three timeouts and the back-off |
| `AgentActorObject.LoopMeans` | src/application/actor/AgentActor.ts:326-378 | what any such end means: at most three calls, a completion only by the last call, no retry after an error that ends the task at once, the breaker told of a failure exactly for a final timeout or exhausted retries |
| `AgentActorObject.TaskWaitMs` | src/application/actor/retry-policy.ts:23-33 | the wait is all attempts plus back-off plus the margin, clamped to the longest timer |
| `AgentActorObject.WaitCoversWorker` | src/application/actor/retry-policy.ts:23-33 | with retry on timeout and no clamp, every run of the attempt loop lasts at most the wait minus the 5,000 ms margin |
| `StopProtocol.KeyHoldsMaximum` | src/infrastructure/control/control-channel.ts:130-141 | in every interleaving of issuers the saved key holds the maximum issued moment, if and only if no value that nodes refuse sits there with a moment no stop has exceeded |
| `StopProtocol.NoLostStop` | src/infrastructure/control/control-channel.ts:206-228 | whatever the channel loses, repeats or reorders, a node never runs a task sent at or before a stop that was saved before the node read the key on start |
| `StopProtocol.ReadBeforeRun` | src/shared/agent-node.ts:126-136 | a node that has started has read the key |
| `StopProtocol.RunsExactlyWhatItMay` | src/application/actor/AgentActor.ts:413-418 | a started node takes a task exactly when it was sent after every moment the node has heard, and one without a usable timestamp only while it has heard none |
| `StopProtocol.ConnectedNodeEndsAtMaximum` | src/infrastructure/control/control-channel.ts:284-306 | a connected node that obeyed a read made since it subscribed, the read on start included, and has no message left ends at the maximum issued moment, unless an issuer stands between saving and publishing |
| `StopProtocol.StartCatchesUp` | src/shared/agent-node.ts:126-136 | a node that has started and was never disconnected is connected and has obeyed such a read |
| `StopProtocol.FailedNodeNeverRuns` | src/shared/agent-node.ts:126-136 | over every run a node whose read on start failed takes no task |
| `StopProtocol.LostConnection` | src/infrastructure/control/control-channel.ts:265-306 | a connection can be lost at any time, with whatever is on its way; what is published then does not arrive |
| `StopProtocol.Delivered` | src/infrastructure/control/control-channel.ts:265-306 | what is published reaches every connected node and is obeyed when received |
| `StopProtocol.CanCatchUp` | src/infrastructure/control/control-channel.ts:284-306 | from every reachable state a node that lost its connection can resubscribe, read the key and so be caught up |
| `StopProtocol.StopAfterReadCanBeOutrun` | src/shared/agent-node.ts:126-136 | a run in which a stop saved after the read and before the actor starts is outrun by a task sent before it |
| `StopProtocol.RefusedValueHidesStop` | src/infrastructure/control/control-channel.ts:130-141 | a run in which a refused value with a later moment keeps a stop from being saved |
| `ControlChannel.ControlKey.IssueStopAll` | src/infrastructure/control/control-channel.ts:147-162 | the key is replaced exactly by a later moment; the message is published in any case |
| `ControlChannel.CatchUpUntilRead` | src/infrastructure/control/control-channel.ts:292-306 | the value of the first read that succeeds is obeyed, and none after it |
| `ControlChannel.FirstAtOrAfter` | src/shared/emergency-stop.ts:107-120 | a moment aborts the run if and only if one at or after its start was heard, and the cause is such a moment |
| `ControlChannel.EmergencyStopSignal.OnStop` | src/shared/emergency-stop.ts:107-120 | the signal keeps its first cause and follows the moments heard |
| `ControlChannel.SignalIgnoresOrder` | src/shared/emergency-stop.ts:107-120 | whether a run is stopped depends on the latest moment heard, not on order or repetition |
| `Utf8.DecodeEncode` | src/application/actor/AgentActor.ts:62-69 | UTF-8 round trip (section 3 of RFC 3629), lone surrogates repaired |
| `Utf8.EncodeDecode` | src/application/actor/AgentActor.ts:62-69 | bytes that decode are the encoding of what they decode to |
| `Utf8.ScalarRoundTrip` | src/application/actor/AgentActor.ts:62-69 | every code point outside D800 to DFFF has its own bytes, those inside are written as U+FFFD (section 3 of RFC 3629) |
| `Utf8.BackUpFindsBoundary` | src/application/actor/AgentActor.ts:67-68 | backing up over continuation bytes ends exactly behind the code points that fit |
| `Utf8.TruncateToBytes` | src/application/actor/AgentActor.ts:61-70 | the loop computes the text cut to the code points that fit |
| `Utf8.TruncatedMeetsCap` | src/application/actor/AgentActor.ts:61-70 | the result is within the bound, a prefix in whole code points, unchanged when it fits, and otherwise the longest one, less than four bytes short of the bound |
| `JsonCaps.MeasureJson` | src/application/actor/AgentActor.ts:72-75 | the size measured field by field is the size of the object as JSON |
| `JsonCaps.EscapedBounds` | src/application/actor/AgentActor.ts:72-75 | escaping (section 7 of RFC 8259) costs at least one and at most six bytes per byte |
| `JsonText.UnescapeEscape` | src/application/actor/AgentActor.ts:72-75 | reading back a string escaped as JSON.stringify does (section 7 of RFC 8259) gives the string, lone surrogates included |
| `JsonText.EscapedIsLength` | src/application/actor/AgentActor.ts:72-75 | the size computed for a string is the length in bytes of its escaped form |
| `JsonText.ObjectIsLength` | src/application/actor/AgentActor.ts:72-75 | the size computed for an object is the length in bytes of its JSON text (section 4 of RFC 8259), whatever the order of its fields |
| `JsonText.ShownAsText` | src/application/actor/AgentActor.ts:82-96 | what String() makes of a boolean or null is its JSON text, and of a string the string |
| `JsonCaps.ShrinkResult` | src/application/actor/AgentActor.ts:88-95 | the loop ends, its raw limit strictly decreasing, with a result that fits a budget that is not negative; what fits is kept whole and plain text loses fewer than four bytes |
| `JsonCaps.CapDataSize` | src/application/actor/AgentActor.ts:82-96 | data within 65,536 bytes passes unchanged; else only the result is cut and the whole fits whenever the other fields with an empty result do |
| `DeadLetters.BuildDeadLetter` | src/application/actor/AgentActor.ts:449-480 | the record published for any error, reason and inputs, within 65,536 bytes |
| `DeadLetters.DeadLetterWithinCap` | src/application/actor/AgentActor.ts:449-480 | every dead letter is within 65,536 bytes, and one of a task without inputs is never marked as omitted |
| `DeadLetters.LetterSays` | src/application/actor/AgentActor.ts:449-480 | the letter says failed, with its error and any reason cut to 4,096 bytes over the inputs, or marked as without them |
| `DeadLetters.RoundTrip` | src/resilience/dlq-replay.ts:100-108 | publishing and replaying restores exactly the original data if and only if the inputs were kept and none has the name of an envelope field |
| `DeadLetters.RestoreOriginalData` | src/resilience/dlq-replay.ts:100-108 | the loop keeps exactly the fields outside the envelope |
| `DeadLetters.ReplayDlq` | src/resilience/dlq-replay.ts:115-158 | every record is replayed or skipped as its own data says, in order, with replayed plus skipped equal to their number; the first publish that fails ends the replay with exactly the records before it handled |
| `DeadLetters.RepublishedFrom` | src/resilience/dlq-replay.ts:119-158 | every republished message comes from a replayable record: its ids and trace headers, the queue of its agent, the time of the replay, and its fields apart from the five of the envelope, at least one of them |
| `DeadLetters.SkippedBecause` | src/resilience/dlq-replay.ts:123-145 | every skip is of a record of the list, for its own error text when that is poison and as inputs_missing otherwise |
| `DeadLetters.CutKeepsPoison` | src/resilience/dlq-replay.ts:47-57 | cutting the error text never makes or hides a poison reason |
| `DeadLetters.ReplayedExactlyWhen` | src/resilience/dlq-replay.ts:123-145 | a dead letter is replayed if and only if its error, as cut, is no poison, its inputs were kept and do not carry the mark of omitted ones, and there are inputs; for poison reasons within the cut, the cut error is poison exactly when the error is |
| `DeadLetters.CyclesAreLossless` | src/resilience/dlq-replay.ts:100-158 | any number of fail and replay cycles gives back the original data |
| `DeadLetters.StoppedTaskCanBeReplayed` | src/application/actor/AgentActor.ts:413-418 | a task dead-lettered by a stop is not poison, and replayed after the stop it is not refused as sent before it |
| `Snapshot.LateBoardShowsTheSame` | src/adapters/gateway/SocketGateway.ts:232-253 | for every sequence of well-formed events and every connection point, a board that resets, applies the snapshot (its lists in any order) and then the rest shows the same as a board connected from the start |
| `Snapshot.BoardKeepsUp` | board/src/store/boardStore.ts:92-143 | one event on the gateway is one delta on a connected board, which then shows the new state, and every map value still carries its own key as id |
| `Snapshot.SnapshotShowsView` | src/adapters/gateway/SocketGateway.ts:232-253 | reset and snapshot give the view of the gateway, however the lists are ordered |
| `Snapshot.MergesAgree` | src/adapters/gateway/SocketGateway.ts:183-196 | gateway and board merge a list alike, the empty id apart |
| `Snapshot.MergeRebuilds` | src/adapters/gateway/SocketGateway.ts:237-242 | merging the listed values rebuilds the map, because each value carries its own key |
| `Snapshot.EmptyStatusMatters` | board/src/store/boardStore.ts:97-107 | an empty status makes a late board differ if and only if the board showed a status |
| `Snapshot.EmptyTopicMatters` | board/src/store/boardStore.ts:110-112 | an empty topic makes a late board differ if and only if the board showed a topic |
| `Snapshot.EmptyReasonMatters` | board/src/store/boardStore.ts:43-51 | an empty reason makes a late board differ if and only if the stop is a newer one |
| `Snapshot.ForeignPlaneMatters` | board/src/store/boardStore.ts:139-140 | a controlPlane from the channel makes a late board differ if and only if it is not the one of the gateway |
| `Snapshot.ForeignIdMatters` | board/src/store/boardStore.ts:115-122 | an id that is truthy and no string makes a late board differ |
| `SnapshotFields.GatewayAgentItem` | src/adapters/gateway/SocketGateway.ts:183-196 | an agent item is laid over the record of its id, field by field, keeping every other field; no other key and nothing else changes |
| `SnapshotFields.GatewayTaskItem` | src/adapters/gateway/SocketGateway.ts:183-196 | the same for a task item |
| `SnapshotFields.GatewaySkips` | src/adapters/gateway/SocketGateway.ts:190-192 | an item without a string id changes nothing |
| `SnapshotFields.GatewayListsInTurn` | src/adapters/gateway/SocketGateway.ts:189-195 | a list is its items one after the other |
| `SnapshotFields.GatewayRecords` | src/adapters/gateway/SocketGateway.ts:218-229 | metadata and inputs are laid over what was there, field by field |
| `SnapshotFields.GatewayStatus` | src/adapters/gateway/SocketGateway.ts:165-181 | RUNNING after FINISHED, STOPPED or ERRORED drops tasks, metadata and inputs; any other status is just noted |
| `SnapshotFields.GatewayControl` | src/adapters/gateway/SocketGateway.ts:198-211 | a later stop replaces the last one and its acks start from zero; acks of nodes for the last stop are counted |
| `SnapshotFields.GatewayNotesFirstStop` | src/adapters/gateway/SocketGateway.ts:330-343 | a gateway that watches the control channel notes stops from the first one on |
| `SnapshotFields.StopForwarded` | src/adapters/gateway/SocketGateway.ts:330-343 | connected boards are told of a stop exactly when it is newer than the last one |
| `SnapshotFields.GatewayPartByPart` | src/adapters/gateway/SocketGateway.ts:213-230 | a delta with several parts is those parts one after the other, the status first |
| `SnapshotFields.BoardAgentItem` | board/src/store/boardStore.ts:115-122 | an agent item with a truthy id is laid over what the board shows under it, field by field; nothing else changes |
| `SnapshotFields.BoardTaskItem` | board/src/store/boardStore.ts:125-132 | the same for a task item |
| `SnapshotFields.BoardListsInTurn` | board/src/store/boardStore.ts:115-132 | a list is its items one after the other |
| `SnapshotFields.BoardRecords` | board/src/store/boardStore.ts:109-137 | metadata is laid over what is shown; a topic is shown as its text, an empty one not at all |
| `SnapshotFields.BoardStatus` | board/src/store/boardStore.ts:96-107 | RUNNING after FINISHED, STOPPED or ERRORED clears tasks, metadata and topic; an empty status is ignored |
| `SnapshotFields.BoardControl` | board/src/store/boardStore.ts:138-142 | a controlPlane is taken over; a later stop replaces the last one without an empty reason, acks are counted |
| `SnapshotFields.BoardPartByPart` | board/src/store/boardStore.ts:92-143 | a delta with several parts is those parts one after the other |
| `SnapshotObjects.SocketGateway.ApplyToSnapshot` | src/adapters/gateway/SocketGateway.ts:213-230 | a board that showed the state of the gateway shows the new one after the same well-formed delta |
| `SnapshotObjects.SocketGateway.NoteStop` | src/adapters/gateway/SocketGateway.ts:330-343 | a board that showed the state of the gateway shows the new one after the forwarded delta; only a newer stop is noted, and its acks start from zero |
| `SnapshotObjects.SocketGateway.BuildSnapshot` | src/adapters/gateway/SocketGateway.ts:232-253 | the snapshot lists every value of each map once |
| `SnapshotObjects.BoardStore.ApplyDelta` | board/src/store/boardStore.ts:92-143 | the store applies a delta as the specification does |
| `SnapshotObjects.Connect` | board/src/store/boardStore.ts:242-256 | reset and snapshot make a board show the view of the gateway |
| `CompletionRouter.SettlesAtMostOnce` | src/shared/completion-router.ts:161-170 | over every run the three maps have the same entries, what is pending is unsettled with its timer running, and a settled promise never changes |
| `CompletionRouter.SettlesExactlyOnce` | src/shared/completion-router.ts:181-225 | as long as no task id is waited on again while an earlier listener for it can still fire, every promise is either pending or settled |
| `CompletionRouter.AbortAnswersExactly` | src/shared/completion-router.ts:193-208 | an abort answers a pending wait if and only if the first listener for its task id on that signal is its own; otherwise the wait is dropped without an answer and without a timer |
| `CompletionRouter.StaleListenerDropsWaiter` | src/shared/completion-router.ts:193-208 | a run in which a wait is dropped that way |
| `CompletionRouter.AnswersExactly` | src/shared/completion-router.ts:111-159 | what each other event makes of a pending wait: a completion, failure or timeout of its own task id answers it; a failed subscribe, or another wait that is accepted and whose subscribe throws, rejects it; nothing else touches it |
| `CompletionRouter.OwnAnswer` | src/shared/completion-router.ts:181-230 | what becomes of a wait as it is made: a duplicate, refused because its signal has aborted, rejected because a subscribe call throws, or pending with both queues subscribed |
| `CompletionRouter.AbortReachesWait` | src/shared/completion-router.ts:193-208 | a wait under a signal, on an id with no earlier listener, is answered by the abort of that signal |
| `CompletionRouter.Subscriptions` | src/shared/completion-router.ts:84-103 | a failed subscription is forgotten, so that the next accepted wait subscribes again; nothing else touches the subscriptions |
| `CompletionRouter.DuplicateWaitRefused` | src/shared/completion-router.ts:188-191 | a second wait on a task id in flight is refused and leaves the first alone |
| `CompletionRouterObject.CompletionRouter.Wait` | src/shared/completion-router.ts:181-230 | the object refuses or registers a wait and subscribes as the state machine does |
| `CompletionRouterObject.CompletionRouter.RejectAllPending` | src/shared/completion-router.ts:104-109 | the loop rejects and forgets every waiter |
| `CompletionRouterObject.CompletionRouter.OnAbort` | src/shared/completion-router.ts:200-207 | the listeners run in order, as in the state machine |
| `FanIn.OneEntryEach` | src/shared/completion-router.ts:244-267 | over every run of the router with a waitAll in it, repeated ids included, the entries belong to distinct requests, each with the outcome its own wait settled with; the call ends if and only if every request has its entry, and throws only when the signal has aborted |
| `FanIn.EveryRequestCanFinish` | src/shared/completion-router.ts:244-267 | as long as no id is waited on again while an earlier listener for it can still fire, a request without an entry can push it next or is pending with its timer running |
| `TokenLedger.Conservation` | src/adapters/state/agent-state-publisher.ts:188-201 | over every run the agent tally is the cleaned usage of all ended attempts, normal, late and failed, each counted once; the tracked tallies never sum to more and are at most 1,000 |
| `TokenLedgerNumbers.UsageInNumbers` | src/adapters/state/agent-state-publisher.ts:188-221 | in every run an attempt that ends, in time, late or failed, adds its finite, non-negative input and output counts to the tallies of the agent and of its task, and a bad count nothing; no other tally changes unless it is forgotten |
| `TokenLedgerNumbers.OnlyEndingsCount` | src/adapters/state/agent-state-publisher.ts:188-221 | no other event changes a tally |
| `TokenLedger.TaskTallies` | src/adapters/state/agent-state-publisher.ts:196-205 | a task tally never exceeds what its attempts spent and equals it while no more than 1,000 tasks were counted |
| `TokenLedgerNumbers.RecentTasksRemembered` | src/adapters/state/agent-state-publisher.ts:196-205 | over every run the tallies forgotten past 1,000 are those not counted for longest: a task keeps its tally while fewer than 1,000 other tasks have been counted since |
| `TokenLedger.CalledUnderCaps` | src/adapters/state/agent-state-publisher.ts:159-181 | a handler is called if and only if both tallies are under their finite, positive caps |
| `TokenLedger.OvershootBounded` | src/adapters/state/agent-state-publisher.ts:365-408 | with at most n attempts at once the agent tally stays below the cap plus n times the largest usage; with sequential attempts, plus one |
| `AgentStatePublisherObject.AgentStatePublisher.AccountTokens` | src/adapters/state/agent-state-publisher.ts:188-221 | the tallies after counting and the breach raised, task cap first |
| `AgentStatePublisherObject.AgentStatePublisher.EndAttempt` | src/adapters/state/agent-state-publisher.ts:368-474 | whatever the ending, its input and output counts are added once; the result is returned and shown as done if and only if it came in time and neither tally reaches its cap, and the cap raised is the one of the task first; the error is shown twice if and only if the result in time reached a cap and the attempt is the current one |
| `AgentStatePublisherObject.AgentStatePublisher.BeginAttempt` | src/adapters/state/agent-state-publisher.ts:320-367 | the handler is reached exactly when neither tally is at a finite, positive cap; the refusal names the cap of the agent first |
| `AgentStatePublisherObject.AgentStatePublisher.Catch` | src/adapters/state/agent-state-publisher.ts:430-473 | a stop shows only STOPPED, a superseded attempt leaves the agent row alone, and at most one message is shown |
| `AgentStatePublisherObject.AgentStatePublisher.MarkStopped` | src/adapters/state/agent-state-publisher.ts:505-513 | a stop is reported once, and at most 1,000 are remembered |
| `RateLimiter.SlidingWindowRateLimiter.IsAllowed` | src/adapters/gateway/rate-limiter.ts:23-36 | allowed if and only if fewer than the limit of the admissions since the last eviction lie in the window; for a key never evicted that is the full log; a denial always means the full log is at the limit |
| `RateLimiter.SlidingWindowRateLimiter.Sweep` | src/adapters/gateway/rate-limiter.ts:39-46 | sweeping is invisible: every key still stands for its admissions |
| `RateLimiter.SlidingWindowRateLimiter.EvictOldest` | src/adapters/gateway/rate-limiter.ts:49-54 | the map is within its limit, and only keys no longer stored are forgotten |
| `RateLimiter.TracksSwept` | src/adapters/gateway/rate-limiter.ts:43-45 | dropping a key whose newest time left the window loses nothing |
| `RateLimiter.CountOfSuffix` | src/adapters/gateway/rate-limiter.ts:27-31 | what is kept never counts more than the full log |
| `Window.TailCounts` | src/adapters/gateway/rate-limiter.ts:26-29 | a pruned list counts the full log |
| `Window.CountIsSize` | src/adapters/gateway/rate-limiter.ts:26-31 | the count is the number of times of the log in the window |
| `Window.Prune` | src/adapters/gateway/rate-limiter.ts:26-29 | the shifting loop leaves exactly the entries of the log in the window |
| `Window.ConnectionWindow.Admit` | src/adapters/gateway/SocketGateway.ts:54-60 | admitted if and only if fewer than the maximum of all earlier admissions are younger than the window |
| `SlidingWindowBreakerObject.SlidingWindowBreaker.IsOpen` | src/infrastructure/security/sliding-window-breaker.ts:58-64 | open if and only if at least the threshold of all failures ever recorded are newer than the window, whatever successes and queries came in between |
| `SlidingWindowBreakerObject.SlidingWindowBreaker.RecordFailure` | src/infrastructure/security/sliding-window-breaker.ts:47-56 | the failure is recorded and the breaker trips when the threshold is reached |
| `SlidingWindowBreakerObject.AfterFollows` | src/infrastructure/security/sliding-window-breaker.ts:66-69 | filtering keeps the list in step with the log |
| `ModelRouter.PreferredIsStrictTotalOrder` | src/economics/model-router.ts:49-62 | a strict order at every pressure, total for distinct ids |
| `ModelRouter.PickIsMaximum` | src/economics/model-router.ts:65-72 | the reduction ends with a candidate that none beats |
| `ModelRouter.WinnerIsBest` | src/economics/model-router.ts:81-99 | the winner is eligible and preferred to every other eligible candidate, and there is one if and only if any is eligible |
| `ModelRouter.WinnerInNumbers` | src/economics/model-router.ts:32-99 | the winner has the capability and the context asked for and no such candidate scores higher, capability weighted against combined price by the pressure held between 0 and 1; ties go to the more capable, then the cheaper, then the first id |
| `ModelRouter.IdOrder` | src/economics/model-router.ts:49-62 | ids are compared as texts: the first difference decides, and a shorter one comes before what it begins |
| `ModelRouter.RouteIgnoresOrder` | src/economics/model-router.ts:81-99 | the decision is the same for every order and repetition of the candidates |
| `ModelRouter.PressureRightSizes` | src/economics/model-router.ts:32-34 | raising the budget pressure raises neither the price nor the capability of the chosen model |
| `AuditLog.HeadFixesChain` | src/governance/audit-log.ts:46-62 | two chains of one length that verify and share the last hash are identical record by record, or two different hashed inputs taken from them collide |
| `AuditLog.TamperingIsNoticed` | src/governance/audit-log.ts:46-62 | without a collision, a changed chain of the same length and head does not verify |
| `AuditLog.VerifiesPrefix` | src/governance/audit-log.ts:46-62 | a truncated chain still verifies, which the roadmap names as a gap (docs/roadmap/V2.1-ROADMAP.md:290): only the head tells |
| `AuditLog.AuditLog.Append` | src/governance/audit-log.ts:29-37 | a chain that verifies still does with the new record |
| `AuditLog.AuditLog.Verify` | src/governance/audit-log.ts:46-62 | none if every link and hash holds, else the first index where one does not |

## Left out

- Redis, BullMQ, Kafka, Socket.io, Express, KaibanJS, LangChain and the MCP and A2A kits: an abstract store, a lossy channel and a queue with nondeterministic delivery stand for them.
- Signatures and tokens: a value either verifies or not; no security property is stated.
- Floating-point rounding: reals are used for money, tokens and scores.
- The text of log lines, error messages, board log entries and truncated previews.
- Policy engine, action gates, agent registry, memory store, cache pricing, environment parsing, health probes, process drain: they would only add easy members.
- `RateCostLimiter` and `CostReservation`: what their library consumes on a rejection is not part of this model.
- `KaibanAgentExecutor`: its terminal states depend on a request handler that is not part of this model.
- OrchestratorBarrier.StaleLoaderNeverStarts: speaks of calls that still wait for the load; for one that has passed the generation check see `OrchestratorReset`, its result is then written to the dropped checkpoint object.
- OrchestratorExact.CountedOnceExactlyWhen: speaks of results that carry one charge per task id; a task id that answers with two different charges is not covered.
- OrchestratorDiscipline.AlwaysExact: the discipline is sufficient, and it is the caller who has to keep to it; the completion router enforces the clause about task ids only while a wait is pending, not between its settling and the turn in which the step goes on.
- OrchestratorLedger.SpendCountedOnce: the extractor is applied to the saved result text, also for memoized values, whose JSON text is taken as the value.
- OrchestratorBarrier.ClearBarrier: a store command takes effect before its promise settles; a command that a store applies after it was reported as failed is not modelled.
- ActorTheorems.OneTerminalRecord: a publish that fails is a failed publish; a driver that publishes and then reports an error could add a record.
- AgentActorObject.WaitCoversWorker: the time spent publishing and in guards is not part of the bound.
- StopProtocol.ConnectedNodeEndsAtMaximum: resubscription precedes the read that is obeyed, as assumed of the client after a reconnect.
- Snapshot.LateBoardShowsTheSame: one gateway and typed deltas; malformed control acks, which the gateway ignores, and the board's log are not modelled. Field order of objects is not captured.
- JsonCaps.CapDataSize: values without a JSON form (functions, symbols, cycles) are not modelled, and objects are maps, so key order is not captured.
- TokenLedger.Conservation: the reason of an abort never carries usage of its own (the actor aborts only with its own errors).
- FanIn.EveryRequestCanFinish: that a running timer fires and a settled promise runs its callback is a fact of the runtime.
- ModelRouter.PreferredIsStrictTotalOrder: prices and capabilities are reals, so NaN is not modelled.
- AuditLog.HeadFixesChain: assumes that all digests have one length and that different contents are serialized differently.
- Windows take a clock that does not run backwards; map keys of the rate limiter and of the token ledger are opaque ids.
- React components, static viewers, HITL prompt, CLI, telemetry and example pipelines.
