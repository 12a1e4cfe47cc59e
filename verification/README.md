# Verified model of the run controller

This project models, in Dafny, how Virgo Agentic Dag runs a dependency graph of agent nodes, and
proves what its steps keep over whole runs. It also models the transcript window of the web console,
the watermarks of a pull request, the host job files and a few codecs the controller rests on.

Check everything with `dafny verify dfyconfig.toml`.

## What is modelled

- `Options`, `Graphs`, `GraphServices`: dependency graphs as sets of edges; walks, reachability, skip
  contraction; the worklists of the graph queries and the cycle check as loops.
- `Runs`: the persisted run. `Run` is its value: node rows, agents with their sessions and worktrees,
  the audit trail in write order, the recovery verdicts, and the order in which the store finds rows.
  `RunStore` is the mutable store; every handler writes through it one statement at a time.
- `StartTimes`, `PendingNodes`, `InProgressNodes`, `RestingNodes`, `DependentReleases`,
  `NodeOperators`, `NodeRecoveries`, `RecoveryScans`, `ControlPasses`: the handlers and services, each
  a class whose methods are proved equal to a function on `Run`. What git, the platform, the agents,
  the process table and the clock answer is a parameter.
- `RunInvariants`, `StartSafety`, `RunHistories`, `WakeBudgets`, `NodeOutcomes`: what one step, one
  sweep and a whole history of passes and commands keep.
- `StepOutcomes`, `CommandOutcomes`: the whole of what one step or one command leaves, row by row and session
  by session.
- `RunCompletions`, `HistoryCompletions`: how a run comes to its end, pass by pass and command by command.
- `StopPropagation`, `SkipUndoing`, `Counterexamples`: how a stop spreads, how a skip takes it back,
  and runs that show which conditions are needed.
- `AbortOrders`: the writes of sessions killed at the same time, in any order.
- `Signals`, `Watermarks`, `MarkHistories`: the four signals, check signatures, and what a node hears, visit by
  visit and over whole runs.
- `TranscriptPaging`, `ConversationFeeds`, `ConversationCaches`, `ConversationPages`,
  `TranscriptWindows`, `ViewProgress`: from the bytes of a transcript file to the window in the browser, and
  what it gains from each answer.
- `HostJobs`, `UnitNames`, `EventStreams`, `UsageLimitResets`: the host job protocol, the unit name
  escaping, server-sent events and the usage-limit reset.

## Assumptions

- Ids of a graph are unique and a row exists for each graph node, as validation and the row creation
  before each pass provide; lemmas that need either say so. Acyclicity is needed only where a lemma
  names it: both worklists and the stop propagation are proved on every graph.
- A pass or a command is one step, as the run lock makes it; registration, retirement and cleanup of a
  host job are one step each, as the unit lock makes them.
- A recovery verdict can break the session invariant and the start safety. The theorems over histories
  admit every refused verdict and the orderly accepted ones, and `RunHistories` proves for all verdicts,
  from the state before them, when each invariant survives.
- The theorems over histories of a window take all pages of one poll from one session;
  `MixedMergeIff` says for any other poll when its merge still leaves a window.
- From two days before the end of a session on, a zone's offset goes ahead by at most a day from one day to
  the next, so that no day comes earlier than the day before it; `ResetIsEarliestIff` asks just that.
- Messages of a transcript line depend on that line only as far as their number and ids go; their
  bodies may change with later lines.

## Where the code and its documentation differ

- `README.md:59-61` says that skipping returns every node that stopped waiting to `PENDING`. The code
  returns those that never had an agent and whose latest note names an upstream stop.
  `SkipUndoesPropagationInEveryRun` shows that this is the same in every run whose accepted verdicts are orderly.
- The cycle check reports as cycle members also nodes that merely depend on a cycle.
- `recover --wake` together with `--unrecoverable` leaves a session open on a node that needs a human,
  and a verdict with a future time takes its node out of `MERGED` or `SKIPPED`.
- `README.md:389-392` says that a run ends itself once every node has settled. A settled run with both a
  merged and a stopped node counts as active, and no pass ever ends it (`MixedRunNeverEnds`).
- A usage-limit reset is the next time the clock shows the time named, except when the clock is set back
  over midnight: the code never looks at the day before the one on which the session ended.

## Model

| member | source | states |
|---|---|---|
| `GraphServices.GetEffectiveDependencies` | `src/virgo_agentic_dag/domain/service/graph_service.py:50-72` | The worklist returns exactly the non-skipped nodes reached by a non-empty walk with only skipped nodes inside, in graph order, and ends on every graph, cycles included |
| `GraphServices.GetDescendants` | `src/virgo_agentic_dag/domain/service/graph_service.py:74-91` | The worklist returns exactly the transitive dependents of a node, in graph order, on every graph |
| `GraphServices.VisitDependents` | `src/virgo_agentic_dag/domain/service/graph_service.py:80-89` | One turn of the worklist finds exactly the direct dependents not found before and queues each once |
| `GraphServices.EffectiveMakesDescendant` | `src/virgo_agentic_dag/domain/service/graph_service.py:50-91` | Whatever a node effectively waits for counts that node among its descendants, however much is skipped |
| `Graphs.SkipOneMore` | `src/virgo_agentic_dag/domain/service/graph_service.py:50-72` | Skipping one more node replaces it by its own effective dependencies, on every graph |
| `Graphs.ContractionLaw` | `src/virgo_agentic_dag/domain/service/graph_service.py:50-72` | Taking nodes out one at a time, in any order, leaves the effective dependencies of skipping the whole set at once |
| `Graphs.ContractionIsOrderIndependent` | `README.md:63-65` | The order in which nodes are skipped does not matter |
| `Graphs.ContractionKeepsAncestors` | `src/virgo_agentic_dag/domain/service/graph_service.py:50-72` | Between nodes that are not skipped the contracted graph has exactly the ancestor relation of the original |
| `Graphs.ContractionKeepsAcyclicity` | `src/virgo_agentic_dag/domain/service/graph_service.py:50-72` | Skipping nodes never closes a cycle |
| `GraphServices.FindCycleMembers` | `src/virgo_agentic_dag/domain/service/validators/cycle_validator.py:30-47` | Topological elimination leaves exactly the nodes on a cycle or depending on one, so the check passes exactly the acyclic graphs |
| `Runs.RunStore.UpdateState` | `src/virgo_agentic_dag/infra/persistence/sqlite/sqlite_node_repo.py:74-89` | A state write sets state, time and resume time of the one row, clearing a resume time that is not given; a missing row is left missing |
| `Runs.RunStore.Record` | `src/virgo_agentic_dag/domain/node/node_state_handler.py:44-58` | A recorded move writes the row and appends one audit entry |
| `Runs.RunStore.Wait` | `src/virgo_agentic_dag/services/run/node_wait_service.py:18-37` | A wait puts the node to PENDING with its resume time and appends one audit entry |
| `StartTimes.GetStartTime` | `src/virgo_agentic_dag/domain/service/node_start_time_service.py:20-67` | The start time is the latest of the recorded waits and of the cooldown after the last declared or effective dependency that merged or was skipped |
| `StartTimes.StartTimeReached` | `src/virgo_agentic_dag/domain/service/node_start_time_service.py:20-67` | That time has passed exactly when every recorded wait and every cooldown has |
| `PendingNodes.PendingNodeHandler.Handle` | `src/virgo_agentic_dag/services/node_state_handlers/pending_node_handler.py:86-97` | A sweep advances the listed nodes in turn, each against the rows its predecessors left, and adds up their responses |
| `PendingNodes.PendingNodeHandler.Advance` | `src/virgo_agentic_dag/services/node_state_handlers/pending_node_handler.py:99-195` | One pending node: stop propagation, merged guard, start time, worker cap, unknown executor, launch, with the whole new state and response |
| `PendingNodes.PendingNodeHandler.FindStopped` | `src/virgo_agentic_dag/services/node_state_handlers/pending_node_handler.py:114-133` | The upstream named in a stop is the first stopped effective dependency in store order |
| `PendingNodes.PendingNodeHandler.RecordWait` | `src/virgo_agentic_dag/services/node_state_handlers/pending_node_handler.py:197-224` | The wait of a cooldown is noted once, and not while a resume time is set |
| `PendingNodes.PendingNodeHandler.Start` | `src/virgo_agentic_dag/services/node_state_handlers/pending_node_handler.py:240-288` | A start launches a new conversation or resumes the recorded one, with the trigger and note that fits |
| `PendingNodes.PendingNodeHandler.Adopt` | `src/virgo_agentic_dag/services/run/adopted_node_importer.py:99-166` | A takeover keeps the recorded worktree, takes over the pull request number and opens one session |
| `StepOutcomes.StartOutcome` | `src/virgo_agentic_dag/services/node_state_handlers/pending_node_handler.py:240-288` | A node that starts keeps its sessions and opens one more at the launch: a launch without a conversation to go on from, a recovery if it was given a time to resume, a retry otherwise; its worktree is kept, new, or has the pull request taken over; row and note fit |
| `StepOutcomes.HeldBackOutcome` | `src/virgo_agentic_dag/services/node_state_handlers/pending_node_handler.py:105-224` | Every other turn of a pending node, exactly when: stopped by a stopped dependency it names, noted at the start of its cooldown, without an executor, blocked, or left as it was; and its event is counted just if its state changed |
| `StepOutcomes.CooldownNotedOnce` | `src/virgo_agentic_dag/services/node_state_handlers/pending_node_handler.py:197-224` | A cooldown noted since it began is not noted again while the node still waits for it |
| `StepOutcomes.PendingSweepCounts` | `src/virgo_agentic_dag/services/node_state_handlers/pending_node_handler.py:86-97` | The events of a sweep over the pending nodes are exactly the nodes whose state it changed |
| `StepOutcomes.StartRenewsWakes` | `src/virgo_agentic_dag/domain/persistence/entities/node_agent.py:52-65` | A start gives a node all its review wakes back, unless it goes on with its conversation after a wait, which leaves the count as it was |
| `StartSafety.PendingNodeStartsIff` | `src/virgo_agentic_dag/services/node_state_handlers/pending_node_handler.py:105-170` | A pending node starts exactly when everything it waits for is merged, its wait and cooldown are over, a worker is free, a launcher exists and the launch succeeds |
| `StartSafety.PendingSweepIsSound` | `src/virgo_agentic_dag/services/node_state_handlers/pending_node_handler.py:86-195` | A sweep starts only nodes whose effective dependencies are merged, still so after the sweep, and keeps every session and ending |
| `StartSafety.ForwardKeepsCleared` | `src/virgo_agentic_dag/services/run/node_skip_service.py:47-106` | What a started node waits for never changes again: later skips and merges leave it cleared |
| `StartSafety.PendingSweepKeepsCap` | `src/virgo_agentic_dag/services/node_state_handlers/pending_node_handler.py:151-156` | A pending sweep leaves at most the greater of the nodes in progress before it and the cap, and counts exactly the nodes it moved there |
| `StartSafety.RestingSweepKeepsCap` | `src/virgo_agentic_dag/services/node_state_handlers/resting_node_handler.py:364-399` | The same for a resting sweep |
| `InProgressNodes.InProgressNodeHandler.Handle` | `src/virgo_agentic_dag/services/node_state_handlers/in_progress_node_handler.py:82-93` | A sweep supervises the listed nodes in turn |
| `InProgressNodes.InProgressNodeHandler.Advance` | `src/virgo_agentic_dag/services/node_state_handlers/in_progress_node_handler.py:95-142` | Whole new state and response of one working node: never started, alive, stopped when overdue, settled |
| `InProgressNodes.InProgressNodeHandler.Settle` | `src/virgo_agentic_dag/services/node_state_handlers/in_progress_node_handler.py:144-182` | The readings come before the writes; a reading that fails leaves everything as it was |
| `InProgressNodes.InProgressNodeHandler.CloseSession` | `src/virgo_agentic_dag/services/node_state_handlers/in_progress_node_handler.py:264-293` | The latest session is closed with the end state its own record, the supervision or the usage limit gives it |
| `NodeOutcomes.WorkingNodeOutcome` | `src/virgo_agentic_dag/services/node_state_handlers/in_progress_node_handler.py:95-374` | Every state a working node can be left in, and exactly when: PENDING until the limit resets, RESTING on its pull request, ERRORED, NEEDS_HUMAN, or still IN_PROGRESS |
| `StepOutcomes.WorkingSessionOutcome` | `src/virgo_agentic_dag/services/node_state_handlers/in_progress_node_handler.py:95-293` | The latest session is closed exactly when it is over and can be settled, or was overdue and stopped: by the usage limit, in the state on record, or else as overdue or finished as the supervision found it; the others stay |
| `StepOutcomes.WorkingRowOutcome` | `src/virgo_agentic_dag/services/node_state_handlers/in_progress_node_handler.py:95-374` | Row, note and worktree of a working node for each state it can be left in: the reset time to wait for, the pull request and head it rests on with its marks kept |
| `StepOutcomes.InProgressSweepCounts` | `src/virgo_agentic_dag/services/node_state_handlers/in_progress_node_handler.py:82-93` | The events of a sweep over the working nodes are exactly the nodes whose state it changed |
| `RestingNodes.RestingNodeHandler.Handle` | `src/virgo_agentic_dag/services/node_state_handlers/resting_node_handler.py:97-108` | A sweep observes the listed nodes in turn |
| `RestingNodes.RestingNodeHandler.Observe` | `src/virgo_agentic_dag/services/node_state_handlers/resting_node_handler.py:155-229` | Whole new state of one resting node for each reading of its pull request |
| `RestingNodes.RestingNodeHandler.HandleNews` | `src/virgo_agentic_dag/services/node_state_handlers/resting_node_handler.py:193-229` | News that wakes is handed to a wake before any mark moves; news that does not only moves the marks |
| `RestingNodes.RestingNodeHandler.DetectChanges` | `src/virgo_agentic_dag/services/node_state_handlers/resting_node_handler.py:193-197` | Each signal is asked in turn against its own mark |
| `RestingNodes.RestingNodeHandler.WakeNode` | `src/virgo_agentic_dag/services/node_state_handlers/resting_node_handler.py:340-416` | A wake is refused when the wakes are spent, the workers busy or the launch fails, and otherwise opens one session and records the head |
| `NodeOutcomes.RestingNodeOutcome` | `src/virgo_agentic_dag/services/node_state_handlers/resting_node_handler.py:110-399` | Every state a resting node can be left in, and exactly when |
| `StepOutcomes.RestingRowOutcome` | `src/virgo_agentic_dag/services/node_state_handlers/resting_node_handler.py:110-416` | Row, note, sessions and worktree of a resting node for each reading: the end time recorded once, a wake that remembers the marks before it, or only the marks moved |
| `StepOutcomes.RestingEvents` | `src/virgo_agentic_dag/services/node_state_handlers/resting_node_handler.py:110-339` | A turn over a resting node counts one event exactly when it changes the state or moves marks past news that needs no wake |
| `RestingNodes.CountWakesSinceStart` | `src/virgo_agentic_dag/domain/persistence/entities/node_agent.py:52-65` | The loop back over the sessions counts what the budget is judged by |
| `WakeBudgets.WakesAreWakingSessions` | `src/virgo_agentic_dag/domain/persistence/entities/node_agent.py:52-65` | The wakes counted are exactly the sessions a review opened with no launch or human retry after them |
| `StepOutcomes.WakeIsCounted` | `src/virgo_agentic_dag/services/node_state_handlers/resting_node_handler.py:340-416` | Each review wake adds one to the wakes of its node, and one that finds the conversation gone starts the count anew |
| `DependentReleases.DependentReleaseService.Release` | `src/virgo_agentic_dag/services/run/dependent_release_service.py:34-86` | Exactly the agentless dependents whose latest note names an upstream stop return to PENDING, in store order |
| `DependentReleases.DependentReleaseService.GetStoppedNodes` | `src/virgo_agentic_dag/services/run/dependent_release_service.py:47-63` | The nodes to release, in store order |
| `NodeOperators.NodeSkipService.Skip` | `src/virgo_agentic_dag/services/run/node_skip_service.py:47-106` | Whole new state of a skip, its refusals, the released nodes and whether the host job is ensured |
| `CommandOutcomes.SkipOutcome` | `src/virgo_agentic_dag/services/run/node_skip_service.py:47-106` | A skip is refused exactly for a missing, working or merged node; done, it leaves the row and note of its node, returns exactly the dependents held back, with nothing to wait out and noted as returned, names them, and asks for the host job exactly when some state changed |
| `CommandOutcomes.SkippedPastStarts` | `src/virgo_agentic_dag/services/run/dependent_release_service.py:65-86` | A dependent that a skip returns starts in the next pass exactly when its dependencies are merged, its cooldown over, a worker free, a launcher there and the launch answered |
| `NodeOperators.RetryCommandHandler.Retry` | `src/virgo_agentic_dag/api/cli/handlers/retry_command_handler.py:71-159` | A retry renews the attempts, may drop the conversation, returns the node to PENDING and releases its dependents; any other state is refused |
| `NodeOutcomes.RetryOutcome` | `src/virgo_agentic_dag/api/cli/handlers/retry_command_handler.py:71-159` | A retry is done exactly for a stopped, declared node: its whole new row, exactly which dependents return, and agents that lose their conversation only on reset |
| `CommandOutcomes.RetryReturns` | `src/virgo_agentic_dag/services/run/dependent_release_service.py:34-86` | A retry returns exactly the dependents held back, as a skip does, and notes its own node as sent back |
| `CommandOutcomes.RetryRenewsWakes` | `src/virgo_agentic_dag/domain/persistence/entities/node_agent.py:52-65` | After a human retry the node starts with none of its review wakes used |
| `NodeOutcomes.StopThenRetry` | `src/virgo_agentic_dag/api/cli/handlers/retry_command_handler.py:71-159` | A stop and then a retry put the node back to PENDING with nothing to wait for, keep its conversation with no session open, and change no other node but the dependents an upstream stop held back |
| `NodeOperators.NodeStopService.Stop` | `src/virgo_agentic_dag/services/stop/node_stop_service.py:52-148` | A stop closes the session of a working node and parks it; every refusal changes nothing |
| `CommandOutcomes.StopRow` | `src/virgo_agentic_dag/services/stop/node_stop_service.py:52-148` | A stop is done exactly for a working node with a live session, a worktree and a launcher that can stop it; its session ends as stopped, and row and note say so |
| `NodeOperators.AgentSessionKiller.KillAll` | `src/virgo_agentic_dag/api/cli/handlers/abort_command_handler.py:82-88` | Abort kills every listed session; taken one after the other, which `AbortOrders` proves is no restriction |
| `AbortOrders.InterleavingDoesNotMatter` | `src/virgo_agentic_dag/api/cli/handlers/abort_command_handler.py:82-88` | However the writes of the concurrent kills interleave, the rows and sessions are those of killing one session after the other, and the audit entries the same in some order |
| `NodeOperators.AgentSessionKiller.Kill` | `src/virgo_agentic_dag/infra/agent/agent_session_killer.py:39-79` | A kill closes that session as aborted and parks its node |
| `RunInvariants.AbortClosesEverySession` | `src/virgo_agentic_dag/api/cli/handlers/abort_command_handler.py:59-88` | After an abort that lists every open session no session of the run is open |
| `AbortOrders.AbortOutcome` | `src/virgo_agentic_dag/infra/agent/agent_session_killer.py:39-79` | Abort ends exactly the listed sessions, as aborted, and parks exactly their nodes with no time to resume |
| `NodeRecoveries.NodeRecoveryService.Recover` | `src/virgo_agentic_dag/services/recovery/node_recovery_service.py:83-191` | Whole new state of a verdict and its refusals: marks, wake, verdict row, attempts, wait or hand-over, in the order of the writes |
| `CommandOutcomes.RecoveryIsDoneIff` | `src/virgo_agentic_dag/services/recovery/node_recovery_service.py:83-168` | A verdict is carried out exactly when nothing read speaks against it, and a refused one writes no row, note or verdict |
| `CommandOutcomes.RecoveryOutcome` | `src/virgo_agentic_dag/services/recovery/node_recovery_service.py:156-191` | A verdict carried out spends one attempt, is recorded, moves its node to wait, to a human or to work with the fitting time and note, and returns exactly the dependents held back where the node wakes or waits |
| `CommandOutcomes.RecoverySession` | `src/virgo_agentic_dag/services/recovery/node_recovery_service.py:96-154` | A wake by verdict opens a session that remembers the marks before the command and uses up no review wake |
| `CommandOutcomes.RecoveryRestoresMarks` | `src/virgo_agentic_dag/services/recovery/node_recovery_service.py:208-231` | A verdict that restores marks gives the worktree exactly those its latest session began with, also where the wake is then refused; any other leaves them |
| `CommandOutcomes.RestoredCommentIsHeard` | `src/virgo_agentic_dag/services/recovery/node_recovery_service.py:208-231` | A comment later than the restored mark is reported again by the next visit that can wake the node |
| `RunHistories.RecoveryKeepsSessionsIff` | `src/virgo_agentic_dag/services/recovery/node_recovery_service.py:156-191` | For every verdict: it breaks the session invariant exactly when it is accepted and moves its node away from an open session |
| `RunHistories.RecoveryKeepsStartsIff` | `src/virgo_agentic_dag/services/recovery/node_recovery_service.py:156-191` | For every verdict: it takes back a clearance exactly when it is accepted, takes its node out of an ending, and a started node waits for that node |
| `Counterexamples.UnrecoverableWakeStrandsSession` | `src/virgo_agentic_dag/services/recovery/node_recovery_service.py:83-168` | A concrete verdict that wakes and calls unrecoverable leaves an open session on a node that needs a human |
| `Counterexamples.DeferringMergedNodeUncovers` | `src/virgo_agentic_dag/services/recovery/node_recovery_service.py:179-191` | A verdict that defers a merged node takes back what its started dependent was cleared by |
| `Counterexamples.DeferralUncoversChain` | `src/virgo_agentic_dag/services/recovery/node_recovery_service.py:179-191` | The same at one sound run of two nodes |
| `RunHistories.EventKeepsRunSound` | `src/virgo_agentic_dag/services/node_state_handlers/node_state_handling_facade.py:32-60` | Every pass and every operator command, refused verdicts and orderly accepted ones among them, keeps open sessions, endings and clearances of a run |
| `RunHistories.StartSafetyOverRuns` | `src/virgo_agentic_dag/services/node_state_handlers/pending_node_handler.py:99-170` | In every later state of every history everything a started node effectively waits for is merged, and merged a full cooldown before the pass that started it |
| `RunHistories.WorkIsAlwaysCleared` | `src/virgo_agentic_dag/services/node_state_handlers/pending_node_handler.py:105-137` | However a node came to be in progress, what it waits for is merged then and ever after |
| `RunHistories.OpenSessionsOverRuns` | `src/virgo_agentic_dag/services/stop/node_stop_service.py:70-122` | In every state of a history an open session belongs to a node in progress and a node has at most one |
| `RunHistories.WorkerCapOverRuns` | `src/virgo_agentic_dag/services/node_state_handlers/resting_node_handler.py:364-399` | Each pending or resting pass of a history keeps the worker cap and counts the sessions it starts |
| `WakeBudgets.WakeBudgetOverRuns` | `src/virgo_agentic_dag/domain/persistence/entities/node_agent.py:52-65` | In every history a node is woken for reviews at most `node_wakes` times since its latest launch or human retry |
| `WakeBudgets.EventKeepsBudget` | `src/virgo_agentic_dag/services/node_state_handlers/resting_node_handler.py:340-399` | No pass and no command raises the wakes of a node above the budget |
| `ControlPasses.NodeStateHandlingFacade.Tick` | `src/virgo_agentic_dag/api/cli/handlers/tick_command_handler.py:70-90` | The in-progress, resting and pending sweeps of a pass in order, each on freshly read rows, with their responses added up |
| `ControlPasses.NodeStateHandlingFacade.HandlePendingNodes` | `src/virgo_agentic_dag/services/node_state_handlers/node_state_handling_facade.py:52-60` | The sweep works on the pending rows as they are when it begins |
| `ControlPasses.TickKeepsRunSound` | `src/virgo_agentic_dag/api/cli/handlers/tick_command_handler.py:70-90` | A whole pass keeps sessions, endings and clearances, and the nodes it starts are cleared at its own time |
| `ControlPasses.TickKeepsCap` | `src/virgo_agentic_dag/api/cli/handlers/tick_command_handler.py:70-90` | A whole pass keeps the worker cap and its response counts the nodes put to work |
| `ControlPasses.EndedRunIsLeftAlone` | `src/virgo_agentic_dag/domain/service/graph_service.py:93-113` | Once the run status is complete or errored a pass changes nothing and starts nothing, whatever the outside answers |
| `ControlPasses.RunEndsIff` | `src/virgo_agentic_dag/domain/service/graph_service.py:93-113` | A run has a final status exactly when nothing of it waits, works or rests and it does not have a merged and a stopped node at once |
| `ControlPasses.MixedRunNeverEnds` | `src/virgo_agentic_dag/domain/service/graph_service.py:93-113` | A run of merged and stopped nodes in which nothing waits, works or rests stays as it is and active for ever, whatever its passes bring |
| `Counterexamples.SettledChainStaysActive` | `README.md:389-392` | One such run: a merged node, an errored dependent, and no end |
| `RunCompletions.RunSettles` | `src/virgo_agentic_dag/api/cli/handlers/tick_command_handler.py:70-90` | Liveness: on an acyclic graph, once the passes in which a session ends for good, a pull request merges or closes, or a pending node can go (as one can when nobody works or rests, waits are over, launches are answered and a worker is free) number three a node plus the times a usage limit or news sent a node back, nothing of the run waits, works or rests; it is complete exactly if no node stopped |
| `RunCompletions.TickStep` | `src/virgo_agentic_dag/api/cli/handlers/tick_command_handler.py:70-90` | A pass that helps takes a run a step nearer its end, each node sent back takes it one away, and no other pass takes it back |
| `HistoryCompletions.HistorySettles` | `src/virgo_agentic_dag/domain/service/graph_service.py:93-113` | The same over every history of passes and operator commands: once the events that help, done skips and stops and aborts of waiting, resting and working nodes among them, number three a node plus all steps back, nothing of the run waits, works or rests |
| `HistoryCompletions.OnlyTheseGoBack` | `src/virgo_agentic_dag/services/run/dependent_release_service.py:34-63` | The only nodes an event can take back: one step by a usage limit or by news, the node of a retry or of an accepted verdict that wakes or defers it, and the stopped dependents such a command or a skip releases; a pending pass, a stop and an abort take none back |
| `ControlPasses.NoDeadlock` | `src/virgo_agentic_dag/services/node_state_handlers/pending_node_handler.py:105-137` | On an acyclic graph some pending node waits only for merged nodes, or for one that stopped, or for work under way |
| `ControlPasses.SomePendingIsAdmitted` | `src/virgo_agentic_dag/services/node_state_handlers/pending_node_handler.py:105-170` | With every node PENDING, MERGED or SKIPPED some pending node has all its effective dependencies merged and starts exactly when its wait is over, a worker allowed and the launch succeeds |
| `StopPropagation.StoppingDoomedNodes` | `src/virgo_agentic_dag/services/node_state_handlers/pending_node_handler.py:114-133` | Stopping some of the nodes that must stop leaves exactly the others that must |
| `StopPropagation.QuietSweepStops` | `src/virgo_agentic_dag/services/node_state_handlers/pending_node_handler.py:86-133` | A sweep that can launch nothing stops only nodes that must stop, and every one that waits directly for a stopped node |
| `StopPropagation.PropagationSettles` | `src/virgo_agentic_dag/services/node_state_handlers/pending_node_handler.py:86-133` | After as many such sweeps as nodes to stop, exactly the pending nodes that reach a stopped one through pending nodes are stopped, and nothing is left to stop |
| `StopPropagation.PendingBoundsDoomed` | `src/virgo_agentic_dag/services/node_state_handlers/pending_node_handler.py:86-133` | The number of pending nodes bounds the sweeps needed |
| `StopPropagation.OrderDoesNotMatter` | `src/virgo_agentic_dag/services/node_state_handlers/pending_node_handler.py:86-97` | The nodes stopped do not depend on the order of the graph |
| `SkipUndoing.SkipStates` | `src/virgo_agentic_dag/services/run/node_skip_service.py:47-75` | A skip changes the state of the node and of the released dependents and of nothing else |
| `SkipUndoing.LateSkipDiffers` | `src/virgo_agentic_dag/services/run/dependent_release_service.py:47-63` | A skip after the propagation differs from one before it exactly in the stopped nodes that are no dependents or have an agent |
| `SkipUndoing.SkipUndoesPropagationIff` | `src/virgo_agentic_dag/services/run/dependent_release_service.py:34-63` | Propagate, skip, release and propagate again ends in the states of skipping first exactly when every stopped node with an agent would be stopped anyway |
| `SkipUndoing.SkipUndoesPropagationInEveryRun` | `src/virgo_agentic_dag/services/run/node_skip_service.py:47-75` | In every state a history can reach, skipping a node undoes exactly what its stop propagated |
| `Counterexamples.AgentKeepsNodeStopped` | `src/virgo_agentic_dag/services/run/dependent_release_service.py:47-63` | A stopped dependent with an agent is not brought back by the skip |
| `Counterexamples.DisorderlyVerdictDefeatsSkip` | `src/virgo_agentic_dag/services/run/dependent_release_service.py:47-63` | One sound run and one disorderly verdict after which a doomed node has an agent, so that a late skip leaves it stopped where an early one does not |
| `Signals.SignaturesAreCanonical` | `src/virgo_agentic_dag/domain/observation/check_signature.py:17-25` | Signatures of failing readings agree exactly when commit and multiset of check names agree, with no bar character in any of them |
| `Signals.SignatureEmptyIffNothingFailed` | `src/virgo_agentic_dag/services/signals/check_signal.py:21-24` | A signature is empty exactly when nothing failed |
| `Signals.SeparatorInNameCollides` | `src/virgo_agentic_dag/domain/observation/check_signature.py:17-25` | With a bar character in a name different failures share a signature |
| `Signals.NewestIsMaximum` | `src/virgo_agentic_dag/services/signals/comment_signal.py:36-39` | The new comment mark is the greatest timestamp of the fresh comments |
| `Watermarks.ReadAfter` | `src/virgo_agentic_dag/domain/signals/signal_mark_index.py:17-25` | Advancing moves the mark of each signal to its own news and leaves the mark of a silent signal |
| `Watermarks.NothingTwice` | `src/virgo_agentic_dag/domain/signals/signal_mark_index.py:21-25` | Once the marks advance past a reading all four signals are silent on it |
| `Watermarks.NeedsWakeIff` | `src/virgo_agentic_dag/services/node_state_handlers/resting_node_handler.py:193-216` | A node is woken exactly for feedback later than its mark, a failure it has not seen or a conflict at a commit it has not tried, never for an approval |
| `Watermarks.ChangesAreNews` | `src/virgo_agentic_dag/services/signals/approval_signal.py:15-31` | A reading changes a signal exactly when it holds something its mark does not cover, approvals among them, and each change carries the mark and count of what it reports |
| `MarkHistories.EventKeepsMark` | `src/virgo_agentic_dag/services/node_state_handlers/resting_node_handler.py:190-229` | No pass and no command takes the comment mark of a node back, except a verdict that restores its marks |
| `MarkHistories.HeardOnceOverRuns` | `src/virgo_agentic_dag/services/node_state_handlers/resting_node_handler.py:190-229` | Over a whole run, of two passes that wake a node with comments the later one brings later comments, unless a verdict restored its marks in between |
| `Watermarks.HandlerMovesMarks` | `src/virgo_agentic_dag/services/node_state_handlers/resting_node_handler.py:190-229` | A needed wake that does not start leaves the marks of the node where they were; otherwise they advance past the reading |
| `Watermarks.ReportMovesMark` | `src/virgo_agentic_dag/services/signals/comment_signal.py:24-43` | Every report of comments moves the comment mark strictly forward |
| `Watermarks.ReportedOnce` | `src/virgo_agentic_dag/services/signals/comment_signal.py:24-43` | Over any run of visits no timestamp is reported by two visits, and later reports are later comments |
| `Watermarks.ReportedIff` | `src/virgo_agentic_dag/services/signals/comment_signal.py:24-43` | A visit reports exactly the feedback later than everything reported before; feedback that appears late with an older timestamp is never heard |
| `Watermarks.RefusalLosesNothing` | `src/virgo_agentic_dag/services/node_state_handlers/resting_node_handler.py:211-229` | Feedback that stays on the pull request through refused wakes is reported by the first visit that can wake |
| `Watermarks.RefusedNewsReturns` | `src/virgo_agentic_dag/services/node_state_handlers/resting_node_handler.py:211-229` | Comments, failures or a conflict that refused wakes leave unheard are reported, as the reading of the day shows them, by every later visit until one starts the node, and by none about that reading afterwards |
| `TranscriptPaging.ForwardSplitIsUnique` | `src/virgo_agentic_dag/infra/agent/transcript_page_reader.py:62-78` | The forward split is the only list of lines with true offsets that covers every newline |
| `TranscriptPaging.ListWholeLines` | `src/virgo_agentic_dag/infra/agent/transcript_page_reader.py:62-78` | The lines whole in a block, after its first newline unless it starts the file |
| `TranscriptPaging.ListLinesBefore` | `src/virgo_agentic_dag/infra/agent/transcript_page_reader.py:19-38` | For any file, cursor and block size the lines returned are a tail of those that end before the cursor, empty only when there are none; a cursor past the end is an error |
| `TranscriptPaging.PagingVisitsEveryLine` | `src/virgo_agentic_dag/infra/agent/transcript_page_reader.py:19-38` | Asking again before the first offset visits every newline-terminated line exactly once and ends at 0 |
| `TranscriptPaging.ListLinesFrom` | `src/virgo_agentic_dag/infra/agent/transcript_page_reader.py:40-60` | The first whole lines from an offset, at most the limit |
| `ConversationFeeds.LoadConversationPage` | `src/virgo_agentic_dag/api/web/service/dag_web_service.py:349-394` | For any cursor and block size, and although each block opens the file anew while it grows, a page holds the messages of the whole lines just before the cursor in the file as first opened, fewer than the limit only when none come before; only a cursor past the end fails, and at the start of a line its next cursor is exactly its lower boundary |
| `ConversationFeeds.FileIsTranscript` | `src/virgo_agentic_dag/api/web/mappers/transcript_mapper.py:54-60` | Message ids are in transcript order and name the line they come from |
| `ConversationFeeds.AppendingGrows` | `src/virgo_agentic_dag/infra/agent/transcript_page_reader.py:62-78` | Appending to the file, in the middle of a line or not, only appends messages after every cursor |
| `TranscriptWindows.ShownLinesAreConsecutive` | `web/hooks/useConversationPages.ts:127-227` | From bytes to browser: while files are appended to and pages are cut from them at any time for any cursor, and whatever an unwanted older page holds, what is loaded is nothing, or exactly the messages of consecutive lines of one file from the cursor on |
| `ConversationCaches.MergeKeepsWindow` | `web/utils/conversationCache.ts:76-109` | A merge keeps the window contiguous: it grows to the newest polled message and keeps its older end, or becomes the newest page when the two do not overlap |
| `ConversationCaches.PrependKeepsWindow` | `web/utils/conversationCache.ts:114-136` | The page before the cursor extends the window down to that page's own cursor |
| `ConversationCaches.MergedMessages` | `web/utils/conversationCache.ts:54-71` | Every message after a merge was polled, or was cached and not polled again |
| `ConversationPages.PollAdjoins` | `web/hooks/useConversationPages.ts:66-122` | The pages of a poll adjoin each other, at most ten, although the transcript grows between requests |
| `ConversationPages.PollReachesWindow` | `web/utils/conversationCache.ts:154-176` | A poll of the loaded session meets the loaded messages unless ten pages do not reach them or a request finds the node missing |
| `ConversationPages.ConversationPagesHook.LoadOlderPage` | `web/hooks/useConversationPages.ts:145-151` | An older page is asked for only when none is and nothing failed |
| `ConversationPages.ConversationPagesHook.RefreshNewestPage` | `web/hooks/useConversationPages.ts:161-181` | A poll that failed keeps the cache, any other is merged into the cache of that moment |
| `ConversationPages.ConversationPagesHook.ReceiveOlderPage` | `web/hooks/useConversationPages.ts:198-222` | An older page is prepended to the cache of that moment and ends the request |
| `ViewProgress.PollLoads` | `web/hooks/useConversationPages.ts:161-181` | A poll that succeeds leaves its session loaded up to the newest message it saw, from the old lower end if it met what was loaded and otherwise over its first page, every polled message as it was polled, and the failure cleared |
| `ViewProgress.PolledIsShown` | `web/hooks/useConversationPages.ts:161-181` | The same for every poll of a history, whatever came before |
| `ViewProgress.PolledLinesAreShown` | `web/hooks/useConversationPages.ts:66-122` | Down to the files: the window then reaches the last line its file held when the poll began |
| `ViewProgress.FailedPollKeeps` | `web/hooks/useConversationPages.ts:169-177` | A poll that fails is shown as failed and changes nothing that is loaded or asked for |
| `ViewProgress.OlderPageIsAsked` | `web/hooks/useConversationPages.ts:147-153` | The older page is asked for at the lower end of what is loaded, once and not after a failure |
| `ViewProgress.OlderPageLoads` | `web/utils/conversationCache.ts:114-136` | The page that was asked for extends the window down to that page's own lower end, its cursor the next place to ask at, with nothing loaded lost |
| `ViewProgress.OtherOlderAnswers` | `web/utils/conversationCache.ts:114-136` | Any other answer ends the request: a failure or a cursor left behind keeps the cache, a session gone or changed empties it |
| `ConversationPages.WindowStaysContiguous` | `web/hooks/useConversationPages.ts:127-227` | Over any interleaving of growth, polls and older pages, however stale, and whatever an unwanted older page of another session holds, the loaded messages are a gap-free window and the cursor is exactly its lower boundary |
| `ConversationPages.ShownInOrder` | `web/hooks/useConversationPages.ts:229-231` | No message is shown twice or out of order |
| `ConversationPages.MixedMergeIff` | `web/utils/conversationCache.ts:76-109` | A poll whose later pages come from another session leaves a window exactly when it meets the cache in its own pages, or not at all, or the foreign ids before the meeting are those of the gap |
| `ConversationPages.MixedSessionsLeaveGap` | `web/utils/conversationCache.ts:83-93` | A poll that changes sessions midway can leave a gap, because ids repeat between sessions |
| `HostJobs.SystemdScheduler.Register` | `src/virgo_agentic_dag/infra/scheduling/systemd_scheduler.py:43-61` | Both files and the outcome of a registration under every fault, rollback included |
| `HostJobs.SystemdScheduler.Rollback` | `src/virgo_agentic_dag/infra/scheduling/systemd_scheduler.py:196-240` | Retire an unregistered job first, then put back the previous files, service before timer, whatever the retirement did |
| `HostJobs.SystemdScheduler.Retire` | `src/virgo_agentic_dag/infra/scheduling/systemd_scheduler.py:77-93` | The timer file goes and a cleanup of the service is left behind |
| `HostJobs.SystemdScheduler.RetireService` | `src/virgo_agentic_dag/infra/scheduling/systemd_retirement.py:85-100` | A cleanup leaves a service whose timer file is back |
| `HostJobs.RegisterKeepsServedIff` | `src/virgo_agentic_dag/infra/scheduling/systemd_scheduler.py:196-240` | A registration keeps every installed timer with its service except in one combination of faults, which is named |
| `HostJobs.SafeToRegisterIff` | `src/virgo_agentic_dag/infra/scheduling/systemd_scheduler.py:43-61` | No fault can strand the timer exactly unless systemd calls the job registered while its service file is missing |
| `HostJobs.TimerStaysServed` | `src/virgo_agentic_dag/infra/scheduling/systemd_scheduler.py:37-93` | If no registration meets the one combination of faults that strands a timer (`NoneStrands`), then over any interleaving of registrations, retirements and cleanups an installed timer has its service |
| `HostJobs.TimerOutlivesFaults` | `src/virgo_agentic_dag/infra/scheduling/systemd_scheduler.py:37-93` | If systemd never calls a job registered whose service file is gone, then over any interleaving, whatever fails, an installed timer has its service |
| `HostJobs.CleanupsSpareRegistered` | `src/virgo_agentic_dag/infra/scheduling/systemd_retirement.py:85-100` | No cleanup, however many are pending, touches the files of a job registered again |
| `HostJobs.RegisteredFilesStay` | `src/virgo_agentic_dag/infra/scheduling/systemd_retirement.py:85-100` | Until a retirement removes its timer a registered job has the files of its latest successful registration, through cleanups and failed registrations that are rolled back |
| `HostJobs.FailedReregistrationRestores` | `src/virgo_agentic_dag/infra/scheduling/systemd_scheduler.py:196-240` | A failed registration of a registered job restores both files, and where putting one back fails exactly the files written and not put back stay |
| `HostJobs.RetiredJobVanishes` | `src/virgo_agentic_dag/infra/scheduling/systemd_scheduler.py:77-93` | A retirement succeeds just if none of its steps fails; the cleanup it scheduled then leaves nothing of the job |
| `HostJobs.FailedFirstRegistrationVanishes` | `src/virgo_agentic_dag/infra/scheduling/systemd_scheduler.py:196-240` | A failed first registration leaves nothing once its cleanup ran |
| `UnitNames.GetName` | `src/virgo_agentic_dag/infra/scheduling/systemd_unit.py:59-81` | The name is the escaping of the label byte by byte with a leading dot escaped |
| `UnitNames.UnitNameRoundTrip` | `src/virgo_agentic_dag/infra/scheduling/systemd_unit.py:59-81` | A decoder recovers every label from its unit name |
| `UnitNames.UnitNamesAreDistinct` | `src/virgo_agentic_dag/infra/scheduling/systemd_unit.py:59-81` | Different labels never share a unit name |
| `UnitNames.PlainLabelIff` | `src/virgo_agentic_dag/infra/scheduling/systemd_unit.py:59-81` | A label is its own unit name exactly when it has only letters, digits, colons, underscores and dots and no leading dot |
| `UnitNames.UnitNameIsLegal` | `src/virgo_agentic_dag/infra/scheduling/systemd_unit.py:59-81` | Only legal characters and no leading dot |
| `EventStreams.PumpMessages` | `src/virgo_agentic_dag/server/webhook_sse_handler.py:110-118` | The bytes written for a sequence of messages and keep-alives |
| `EventStreams.EveryTurnIsWritten` | `src/virgo_agentic_dag/server/webhook_sse_handler.py:110-118` | Every turn, a keep-alive too, is written as a block that a blank line ends |
| `EventStreams.GetPayloads` | `src/virgo_agentic_dag/infra/streaming/urllib_event_stream.py:87-95` | The reader is a left-to-right fold over the raw lines |
| `EventStreams.EventOfLines` | `src/virgo_agentic_dag/infra/streaming/urllib_event_stream.py:87-95` | The data lines of one event, empty ones too, come back as one payload of as many lines |
| `EventStreams.StreamRoundTrip` | `src/virgo_agentic_dag/infra/streaming/urllib_event_stream.py:87-95` | Reading the written stream yields exactly the messages, in order, wherever keep-alives fall |
| `EventStreams.CutStreamGivesPrefix` | `src/virgo_agentic_dag/infra/streaming/urllib_event_stream.py:87-95` | A stream cut anywhere yields a prefix of the messages |
| `EventStreams.MessageSurvivesIff` | `src/virgo_agentic_dag/server/webhook_sse_handler.py:113-114` | A message comes back unchanged exactly when it is one line without leading white space and without a carriage return at its end |
| `RecoveryScans.GetRetryAt` | `src/virgo_agentic_dag/services/recovery/recovery_scan_service.py:85-105` | The loop computes the last end plus the tick interval doubled once for each closed session since the verdict, an hour at most |
| `RecoveryScans.GetClosedRecoverySessions` | `src/virgo_agentic_dag/services/recovery/recovery_scan_service.py:107-126` | Exactly the closed recovery sessions of the node since its latest session started |
| `RecoveryScans.IsDue` | `src/virgo_agentic_dag/services/recovery/recovery_scan_service.py:65-83` | A node is due exactly when it has a session, its verdict allows it and the backoff is over |
| `RecoveryScans.RetryAtIff` | `src/virgo_agentic_dag/services/recovery/recovery_scan_service.py:85-105` | With sessions listed newest first there is a wait exactly when one started since the newest verdict: from the end of the newest, the tick interval doubled once for each of them, an hour at most |
| `RecoveryScans.ClosedInOrder` | `src/virgo_agentic_dag/services/recovery/recovery_scan_service.py:107-126` | The closed sessions come newest first if the listed ones do |
| `RecoveryScans.DelayGrows` | `src/virgo_agentic_dag/services/recovery/recovery_scan_service.py:96-100` | The delay never decreases with the fruitless sessions and never exceeds an hour |
| `RecoveryScans.RetryNeverComesForward` | `src/virgo_agentic_dag/services/recovery/recovery_scan_service.py:85-105` | One more fruitless session never brings the retry forward |
| `RecoveryScans.RecoveryScanService.RecordOutOfAttempts` | `src/virgo_agentic_dag/services/recovery/recovery_scan_service.py:136-184` | A node out of attempts goes to a human, or, while its pull request is observed, is noted once for each number of attempts |
| `RecoveryScans.VerdictsAreCounted` | `src/virgo_agentic_dag/infra/persistence/sqlite/sqlite_node_recovery_repo.py:71-81` | The count the notes tell is of the verdicts on the node, each once |
| `CommandOutcomes.AttemptsOutcome` | `src/virgo_agentic_dag/services/recovery/recovery_scan_service.py:136-184` | The hand-over tells how many verdicts there were, and an observed node is noted once until there is a further one |
| `UsageLimitResets.ResetIsFirstAhead` | `src/virgo_agentic_dag/infra/agent/codex_usage_limit_reader.py:69-88` | The recursion ends and returns the nearest fold on the first day with an occurrence ahead |
| `UsageLimitResets.ResetIsEarliestIff` | `src/virgo_agentic_dag/infra/agent/claude_usage_limit_reader.py:71-93` | Where from two days before the end day on each day comes no earlier than the day before it, the reset is the earliest occurrence after the end, over all days, exactly when neither of those two days shows that time once more after the end and before the end day itself does |
| `UsageLimitResets.OnlyDayBeforeIsMissed` | `src/virgo_agentic_dag/infra/agent/claude_usage_limit_reader.py:71-93` | Two days before the end day nothing is missed unless the offset went ahead by more than a day, and the day before is missed exactly when it has an occurrence ahead, where no offset went ahead by a whole day |
| `UsageLimitResets.SetBackMissesDayBefore` | `src/virgo_agentic_dag/infra/agent/codex_usage_limit_reader.py:69-88` | A clock set back from 24:01 to 23:01: a session that ends half a minute into the day is told 11:45 PM and waits a day too long |
| `UsageLimitResets.SkippedDayMissesNearest` | `src/virgo_agentic_dag/infra/agent/codex_usage_limit_reader.py:69-88` | A clock on which a day comes earlier than the day before it makes the reader miss a nearer occurrence on a later day, so that condition is needed |
| `UsageLimitResets.ResetIsNear` | `src/virgo_agentic_dag/infra/agent/codex_usage_limit_reader.py:59-88` | The reset lies after the end, at most a day and the spread of the offsets later |
| `UsageLimitResets.ResetInFixedZone` | `src/virgo_agentic_dag/infra/agent/codex_usage_limit_reader.py:59-88` | With one offset it is the next time the clock shows that time of day |
| `UsageLimitResets.DatedResetIsTheirs` | `src/virgo_agentic_dag/infra/agent/codex_usage_limit_reader.py:76-84` | A message that names its date is taken at its word |

## Left out

- Notifications, labels, prompts, previews, status and log printing: text only.
- ControlPasses.NodeStateHandlingFacade.Tick: ends with the pending sweep, because the merged sweep after it
  reclaims working copies and moves no node, and the recovery and learning sessions dispatched last run outside.
- Scheduling side effects of `skip`, `retry` and `recover`: a skip says whether the host job is
  ensured, the others do not.
- Loading the manifest, argument parsing, dependency wiring, migrations, and the exit codes of commands.
- `adopt` of a node that is not yet in the graph, because it changes the graph in the middle of a run.
- The process checks inside one recovery verdict are separate answers, since the processes may end
  between them.
- NodeOperators.AgentSessionKiller.KillAll: kills one session after the other, because the interleavings of
  concurrent kills are sequences of writes in `AbortOrders`, not calls.
- A stop whose node the graph no longer declares is a refusal here; the code ends with a lookup error.
- UTF-8, JSON and regular expressions: transcripts are bytes, messages and log lines already parsed.
- Usage-limit messages with a date but no year, and dates beyond the last year a date can hold.
- Bodies of messages over time: the window shows each polled message as it was polled, but a stale poll may show
  an older body until the next one, and one that changes sessions another session's.
- systemd's own unit states: what `systemctl` answers is a parameter, and only the unit files are state.
- HostJobs.TimerStaysServed: names the one combination of faults in which a registration strands a timer,
  because the code then removes the service before it fails to remove the timer.
- Signals other than comments report again when their news changes and changes back, as their marks hold
  one value; only comments are proved to be heard once over a whole run.
- The learning extraction, the debounce watcher, launchd, Slack, and the user interface beyond the hook.
