# Verified model of the apixis event runtime, graph engine and id generator

A Dafny 4.11 project that models four connected parts of apixis and proves what they promise.

* **Event runtime.** One consumer takes events from a bounded queue, freezes each event's handler list,
  acquires a permit of a bounded semaphore and launches a dispatch. Handlers lend their permit while they
  wait, also from several child tasks at once. `PermitProtocol` is the state machine (one action is the code
  between two awaits), `Semaphores` states what is relied on of asyncio's bounded semaphore,
  `PermitInvariant` proves the invariant, `PermitTheorems` the results, `PermitOutcomes` in which order events
  end, `PermitEffects` what single steps do, and the classes of `EventLoop` are proved to take exactly the machine's steps under any schedule.
  `HandlerExecution` runs one captured chain on one event.
* **Graph engine.** `Batch`, `BatchOrder` and `Targets` cover one commit, which `BatchPlaces` and `NextTargets`
  read off the commands themselves; `GraphMachine` is the machine of
  contexts, dispatch events and dispatch tasks, with abort, failure and cancellation possible between any two
  steps; `GraphEffects` says what single steps do to an attempt; `GraphInvariant`, `GraphResume`,
  `GraphTheorems`, `GraphTermination`, `GraphFate`, `GraphProgress` and `GraphAbort` prove its results. `GraphContexts`,
  `CommandLoop` and `NodeGraphs` are the mutable contexts, the loops of `apply_command` and the graph object,
  proved against the machine; `NodeGraph.Invoke` drives a whole undisturbed attempt to its end, and
  `NodeGraph.InvokeAndResume` then resumes it from any checkpoint.
  `StateCopy` and `CheckpointIsolation` look at the same states as graphs of mutable objects.
* **Handler registry.** `RegistryModel` and `RegistrySteps` define buckets, dispatch order, cache and the
  operations; `RegistryTheorems` has the results; `HandlerRegistry` has the mutable registry, its handlers and
  lists, and `subscribe`.
* **Snowflake ids.** `SnowflakeModel` has the three-mode step function and its results, `Snowflake` the object.

`Common` and `OrderedKeys` hold shared vocabulary. `dafny verify dfyconfig.toml` checks everything.

## Where code and expectation differ

* Code after `suspend_process` does not always own a permit. `PermitTheorems.ResumedWithPermitIff` says
  exactly when its chain does; `PermitOutcomes.ResumesWithoutPermit` is a run in which it does not.
* `clear()` settles queued events while an older event may wait in the consumer's slot. Each event still ends
  exactly once (`PermitOutcomes.EachEventEndsOnce`), but events end in entry order if and only if no clear of
  the run found events queued behind an occupied slot (`PermitOutcomes.EndsInEntryOrderIff`);
  `PermitOutcomes.ClearOvertakes` is a run in which one did.
* A running context can lose its dispatch event: the queue is cleared, the event's chain cannot be resolved or
  its dispatch not be prepared, the graph's handler is not in the captured chain, or the dispatch task is
  cancelled before its first step. The machine has these as steps. Then, and only then, a running context has
  no live token (`GraphTheorems.OneTokenIff`), and it can only be aborted or cancelled
  (`GraphTheorems.StrandedStep`). `GraphAbort.StrandingHappens` is such a run.
* Abort hands out the newest checkpoint. That is the live state during a batch and before the first one
  (`GraphAbort.AbortResult`), but one committed batch behind it between two batches
  (`GraphAbort.AbortIsOneBatchBehind`, with the run `GraphAbort.AbortDropsCommit`). A graph without
  checkpoints hands out the state an attempt was restored with, however many batches ago.
* A resumed attempt takes its first checkpoint again: its history is the prefix up to the selected checkpoint
  followed by the original's checkpoints from that same one on (`GraphFate.ResumeEquivalence`).
* The largest sequence number a generator emits is two to the width of the field, which carries into the
  worker field; no two workers collide nevertheless (`SnowflakeModel.RawDetermines`). The documentation says
  that turning back may repeat without limit; a fifth episode can repeat an id
  (`SnowflakeModel.FifthEpisodeCollides`), and `SnowflakeModel.CollisionIff` says exactly when ids coincide.

## Assumptions

* Nodes are deterministic functions of their state copy only where a row says so; everywhere else a batch
  may return anything. Value addition is an unknown partial function; nothing is known of state values but
  equality (`Batch`), or they are arbitrary object graphs (`CheckpointIsolation`).
* `fnmatchcase` is an unknown predicate on event name and pattern.
* A registered handler's name, priority, subscriptions and filters change through registration only.
* The generator's options are in their documented ranges, its clock does not read before the base time,
  waiting ends at a later tick, and numbers stay below the modulus.

## Model

| member | source | states |
|---|---|---|
| Semaphores.WakeAllKeeps | source/apixis/core/event/base.py:64-81 | Handing free permits to waiters in arrival order neither makes nor loses a permit or a waiter |
| Semaphores.WakeAllInOrder | source/apixis/core/event/base.py:64-81 | Free permits go to the waiters that arrived first, one each, and the others keep their order |
| Semaphores.ReleaseInOrder | source/apixis/core/event/base.py:64-69 | A released permit goes to the oldest waiter, or becomes free if nobody waits |
| Semaphores.WithoutOne | source/apixis/core/event/base.py:74-76 | A cancelled waiter leaves the order of the others |
| Semaphores.CancelGrantedKeeps | source/apixis/core/event/base.py:74-81 | Cancelling a waiter that was granted a permit but has not run returns that permit |
| PermitInvariant.StepKeepsInv | source/apixis/core/event/event_loop.py:102-195 | The invariant over semaphore, chains, suspended branches, consumer, queue and slot is kept by every step of every participant |
| PermitTheorems.PermitConservation | source/apixis/core/event/base.py:58-83 | Over every run, free permits, permits granted to a waiter that has not run, and chains holding one add up to the capacity |
| PermitTheorems.ReleaseNeverOverflows | source/apixis/core/event/event_loop.py:164-168 | Every release of the bounded semaphore finds its value below the bound |
| PermitTheorems.HeldMeansActive | source/apixis/core/event/base.py:62-81 | A chain that holds a permit is open and has no suspension outstanding, in its counter and in its branches |
| PermitTheorems.ClosedForever | source/apixis/core/event/event_loop.py:249-255 | A closed chain stays closed and never owns a permit again, whatever its late child tasks do |
| PermitTheorems.Quiescence | source/apixis/core/event/event_loop.py:249-255 | With all chains closed and no granted waiter in flight, every permit is back |
| PermitTheorems.ResumedWithPermitIff | source/apixis/core/event/base.py:68-81 | After a branch resumes, its chain holds a permit if and only if the dispatch is open and no sibling is suspended |
| PermitTheorems.CancelledReacquireLacksPermit | source/apixis/core/event/base.py:74-76 | A cancelled reacquisition leaves its chain without a permit |
| PermitTheorems.ExactlyOnceFifo | source/apixis/core/event/event_loop.py:74-137 | Across stops and restarts, events leave the queue exactly once in entry order, filled slots are settled in order, and the unfinished count is queue plus slot |
| PermitTheorems.HandlersCapturedAtDequeue | source/apixis/core/event/event_loop.py:109-130 | Each taken event carries the handlers listed under its name in the registry of its own dequeue, and none if it has no name or is not listed |
| PermitTheorems.LastRegistered | source/apixis/core/event/event_loop.py:109-130 | The registry in force at any point of a run is the one registered last |
| PermitEffects.SuspendEffect | source/apixis/core/event/base.py:56-69 | A suspension counts on an open chain, which lends a held permit to the oldest waiter or to the free ones; a closed chain is left alone |
| PermitEffects.BranchLife | source/apixis/core/event/base.py:68-81 | A branch goes to the lock if it is the last suspended one, and waits for a permit exactly when its chain needs one and none can be taken |
| PermitEffects.DispatchEnds | source/apixis/core/event/event_loop.py:249-255 | Dispatch end closes its chain, touches no other, and passes a held permit to the oldest waiter or to the free ones |
| PermitEffects.ConsumerLife | source/apixis/core/event/event_loop.py:62-137 | The consumer is started once at a time, and ends by stop, by cancellation or by an error that is no Exception |
| PermitEffects.LaunchEffect | source/apixis/core/event/event_loop.py:136-183 | A consumer that gets its permit empties the slot and acknowledges its event once; the new chain owns the permit, or is closed and has returned it |
| PermitOutcomes.EachEventEndsOnce | source/apixis/core/event/event_loop.py:74-183 | Over every run, clears included, each event that entered has ended exactly once, waits in the slot or is queued |
| PermitOutcomes.EndsInEntryOrderIff | source/apixis/core/event/event_pipe.py:96-107 | Over every run with distinct events, outcomes followed by slot and queue are the entered events in entry order if and only if no clear found events queued behind an occupied slot |
| PermitOutcomes.ClearOvertakes | source/apixis/core/event/event_pipe.py:96-107 | A run from the start in which a clear ends the third event before the second |
| PermitOutcomes.ResumesWithoutPermit | source/apixis/core/event/base.py:68-81 | A run from the start in which a branch resumes while its chain holds no permit |
| PermitTheorems.IdleRunsAreBounded | source/apixis/core/event/event_loop.py:105-137 | Runtime steps that launch no dispatch use up a rank, so only boundedly many follow each other |
| PermitTheorems.RuntimeNeverStuck | source/apixis/core/event/event_loop.py:105-137 | With work to do and no permit held by a chain, some runtime step is enabled |
| PermitTheorems.NoBackpressureDeadlock | source/apixis/core/event/event_pipe.py:68-69 | While every open chain is suspended the runtime can always go on, and every schedule of its steps launches a dispatch within a bound |
| EventLoop.ApixEventPipe.Clear | source/apixis/core/event/event_pipe.py:96-107 | The draining loop empties the queue and acknowledges each event once |
| EventLoop.ApixEventLoop.Suspend | source/apixis/core/event/base.py:56-69 | Entering suspend_process is one Suspend step: a closed chain is left alone, a holder lends its permit |
| EventLoop.ApixEventLoop.TakeLock | source/apixis/core/event/base.py:72-76 | With resume_lock obtained: nothing to do, a free permit is taken, or the branch waits for one |
| EventLoop.ApixEventLoop.Reacquire | source/apixis/core/event/base.py:76-81 | The permit is kept unless the chain closed or suspended again meanwhile |
| EventLoop.ApixEventLoop.OnDispatchDone | source/apixis/core/event/event_loop.py:249-255 | Dispatch end closes the chain and returns only a permit it still owns |
| EventLoop.ApixEventLoop.OnConsumerDone | source/apixis/core/event/event_loop.py:62-68 | The done callback of an old consumer does not reset its successor |
| EventLoop.ApixEventLoop.Stop | source/apixis/core/event/event_loop.py:74-92 | Stopping keeps queue and slot and withdraws the worker's claim on a permit |
| EventLoop.ApixEventLoop.Dequeue | source/apixis/core/event/event_loop.py:109-130 | The handlers listed under its name are captured with the event, or the event is acknowledged and dropped |
| EventLoop.ApixEventLoop.Acquire | source/apixis/core/event/event_loop.py:132-137 | The consumer with a filled slot takes a free permit and launches, or joins the semaphore's queue |
| EventLoop.ApixEventLoop.Launch | source/apixis/core/event/event_loop.py:136-183 | The slot is emptied and a dispatch launched, or the new chain closed and its permit returned |
| EventLoop.ApixEventLoop.RunSchedule | source/apixis/core/event/event_loop.py:102-195 | The objects follow the machine under any schedule of steps |
| HandlerExecution.NewEventFaithful | source/apixis/core/event/base.py:233-286 | A new event's chain makes each call when it is due, no other call, and at the end none is left due; the event's seen list and error stack record exactly the cores that ran and the calls that failed |
| HandlerExecution.CallsDetermined | source/apixis/core/event/base.py:233-286 | What the callbacks do determines the calls: two sequences of due calls that leave none due are equal |
| HandlerExecution.AtMostOnce | source/apixis/core/event/base.py:233-242 | A handler gets its error notice first and once, and its acceptance notice or its core once, with only an error report behind it |
| HandlerExecution.CancellationNotices | source/apixis/core/event/event_loop.py:229-241 | A cancelled dispatch notifies each foreground handler of its captured chain once, in order, and records nothing more |
| HandlerExecution.NoticesAccept | source/apixis/core/event/event_loop.py:229-241 | A notified handler can still accept the event |
| HandlerExecution.DispatchNotifies | source/apixis/core/event/event_loop.py:208-241 | A dispatched event is called by its chain until no call is due; if the last call was cancelled every foreground handler with that hook is told once, in order, and otherwise none |
| HandlerExecution.EveryExitReported | source/apixis/core/event/base.py:233-286 | In a dispatch, a handler with all callbacks is told if the dispatch is cancelled; if not, its turn begins with the error notice, the acceptance notice or its core, whichever is due, and a failure there is reported to it at once |
| HandlerExecution.ExecuteFunc | source/apixis/core/event/base.py:244-286 | One phase with its error record and at most one report to on_error |
| HandlerExecution.ExecuteHandler | source/apixis/core/event/base.py:233-242 | The order of notifications and core, with acceptance re-checked after the error notification |
| HandlerExecution.DispatchEvent | source/apixis/core/event/event_loop.py:208-241 | The chain loop and the cancellation loop |
| Batch.CommitFailsIff | source/apixis/core/graph/node_graph.py:600-644 | A commit fails if and only if two batch members write one ordinary key or an addition is undefined, and a cause that is alone is the one reported |
| Batch.CommitValue | source/apixis/core/graph/node_graph.py:612-644 | A successful commit gives every key its reference value, looked at on its own |
| Batch.TotalSinceReset | source/apixis/core/graph/node_graph.py:625-642 | An AutoMerge field is its last Reset value, else its initial value, plus the later updates in order |
| BatchPlaces.ItemsAreWrites | source/apixis/core/graph/node_graph.py:600-612 | A commit works through exactly the writes of its commands, each once, in member, command and dictionary order |
| BatchPlaces.LastWriteWins | source/apixis/core/graph/node_graph.py:612-644 | After a successful commit an ordinary field has the value of its last write, or its old value if there is none |
| BatchPlaces.OneUpdate | source/apixis/core/graph/node_graph.py:625-644 | A plain update adds to an AutoMerge field that has a value, failing where __add__ does, and replaces any other |
| BatchPlaces.OneReset | source/apixis/core/graph/node_graph.py:625-644 | A Reset replaces the value of any field |
| BatchPlaces.FailedCommitStops | source/apixis/core/graph/node_graph.py:612-644 | A failed commit leaves the live state as the writes before the failing one left it |
| BatchOrder.BatchCharacterised | source/apixis/core/graph/node_graph.py:592-644 | Member by member: a batch commits if and only if no ordinary key has two writers and every addition is defined; each key then holds its reference value |
| BatchOrder.OrdinaryFieldsPermuted | source/apixis/core/graph/node_graph.py:600-644 | Whether members clash, and the ordinary fields of a committed batch, do not depend on the order of the members |
| BatchOrder.BatchPermuted | source/apixis/core/graph/node_graph.py:600-644 | With associative and commutative addition, defined or not, and no Reset, acceptance and the whole state are order independent |
| CommandLoop.ApplyUpdate | source/apixis/core/graph/node_graph.py:612-644 | One update dictionary written in place, with the two key sets |
| CommandLoop.RecordGoto | source/apixis/core/graph/node_graph.py:646-657 | One goto adds the nodes it names behind the targets so far; a list with a node in it, one suffices, makes the batch concurrent |
| CommandLoop.ApplyMembers | source/apixis/core/graph/node_graph.py:600-663 | The whole loop leaves the live state of the reference commit, partial writes of a failure included, and returns the next target |
| Targets.NextTargetCharacterised | source/apixis/core/graph/node_graph.py:646-663 | END if and only if nothing is selected; otherwise each selected name once in order of first selection, a bare name only if it is alone and no list selected it |
| NextTargets.NextTargetShape | source/apixis/core/graph/node_graph.py:646-663 | Read off the commands: the nodes that some goto names, each once; END if there is none; a list exactly if some goto is a list with a node in it or two nodes are named |
| NextTargets.NextTargetOrder | source/apixis/core/graph/node_graph.py:646-657 | In order of first naming: by member, by command, along each list |
| Targets.NormaliseIff | source/apixis/core/graph/node_graph.py:698-716 | A target is rejected exactly for an unknown node, becomes END exactly if it names none, and else keeps its shape and names each node once |
| Targets.NormaliseOrder | source/apixis/core/graph/node_graph.py:698-716 | A normalised list keeps the order of first occurrence |
| Targets.ValidateIff | source/apixis/core/graph/node_graph.py:718-743 | Out of budget exactly if a known node is named and max_steps batches have been committed |
| Targets.NormaliseIdempotent | source/apixis/core/graph/node_graph.py:698-716 | Normalising a target twice is normalising it once |
| Targets.NextTargetNormal | source/apixis/core/graph/node_graph.py:698-716 | A batch's next target is already normal, unless it names an unknown node |
| GraphInvariant.StepKeepsInv | source/apixis/core/graph/node_graph.py:150-202 | Ownership, completion and token counts are kept by every step of every interleaving |
| GraphEffects.ListIndexIs | source/apixis/core/graph/node_graph.py:324-330 | Versions count from the end if negative: -1 is the newest, and nothing beyond the length is valid |
| GraphEffects.RestoreEffect | source/apixis/core/graph/node_graph.py:317-341 | A version in range, and no other, restores on a live graph: pending at that checkpoint, with the history up to it or it alone |
| GraphEffects.CreateEffect | source/apixis/core/graph/node_graph.py:295-302 | A live graph makes pending attempts at its entry point with no history |
| GraphEffects.AdmissionIff | source/apixis/core/graph/node_graph.py:378-418 | Admission: a live graph, a pending attempt, no unknown node, and steps left if it names a node |
| GraphEffects.RunNodesPointwise | source/apixis/core/graph/node_graph.py:540-547 | Each result of a batch is that of the node at its place; the batch fails exactly if a name is unknown or its node fails |
| GraphEffects.BatchEffect | source/apixis/core/graph/node_graph.py:547-565 | What a returning batch leaves of state, steps, target and status in each case, a refused commit and a refused target included |
| GraphEffects.BatchStarts | source/apixis/core/graph/node_graph.py:529-545 | A batch starts exactly behind an undisturbed dispatch with somewhere to go, and with a checkpoint of the attempt as it stands |
| GraphEffects.HowAttemptsEnd | source/apixis/core/graph/node_graph.py:150-202 | A running attempt finishes, fails, is given up or cancelled by exactly the listed steps, and what its caller receives from each |
| GraphEffects.PendingMoves | source/apixis/core/graph/context/graph_context.py:122-152 | A pending attempt is only ever admitted or aborted |
| GraphResume.StepKeepsShape | source/apixis/core/graph/node_graph.py:529-562 | What each history records, step by step, whatever the nodes returned |
| GraphTheorems.ManagedIsRunning | source/apixis/core/graph/context/graph_context.py:122-152 | Over every run a graph's context set is exactly its set of running contexts |
| GraphTheorems.TerminalFrozen | source/apixis/core/graph/node_graph.py:549-562 | A terminal context's status, outcome, state, target, steps and history are never changed by later steps |
| GraphTheorems.CompletionResolvedOnce | source/apixis/core/graph/context/graph_context.py:201-232 | The first outcome of a completion stands |
| GraphAbort.AbortResult | source/apixis/core/graph/context/graph_context.py:191-226 | Over every run abort hands out the live state during a batch and before the first one, and without checkpoints the state the attempt was restored with, or else the live one |
| GraphAbort.AbortIsOneBatchBehind | source/apixis/core/graph/context/graph_context.py:191-226 | With deterministic nodes, between two batches abort hands out the state from which exactly one more batch gives the live state, target and steps |
| GraphAbort.AbortDropsCommit | source/apixis/core/graph/context/graph_context.py:191-226 | A run from the start in which the result of abort lacks a committed write |
| GraphAbort.StrandingHappens | source/apixis/core/graph/node_graph.py:152-192 | On every graph with a dispatchable entry, a run from the start that leaves a running context without a token |
| GraphTheorems.OneTokenIff | source/apixis/core/graph/node_graph.py:480-504 | A running context has at most one live token, and has one if and only if its event was not dropped outside the graph |
| GraphTheorems.NoStrandedInvocation | source/apixis/core/graph/node_graph.py:152-192 | Over every run without such drops each running context has exactly one live token |
| GraphTheorems.StrandedStep | source/apixis/core/graph/node_graph.py:152-192 | A stranded context can only be aborted or cancelled |
| GraphTheorems.StepBudget | source/apixis/core/graph/node_graph.py:718-743 | At most max_steps less the initial steps batches are started, at most one more than committed, none more by a finished attempt; own checkpoints, unless disabled, number them |
| GraphTermination.AttemptsEnd | source/apixis/core/graph/node_graph.py:529-562 | Over every run the token of an attempt moves at most six times for each step of its budget and six times more |
| GraphTermination.BatchesBounded | source/apixis/core/graph/node_graph.py:718-743 | Over every run, with or without checkpoints, at most max_steps less the initial steps batches of an attempt return |
| GraphTermination.MoveDecreases | source/apixis/core/graph/node_graph.py:529-562 | Every move of a context's token lowers its measure |
| GraphTermination.OthersKeepMeasure | source/apixis/core/graph/node_graph.py:480-504 | No other step but the admission of the context raises its measure |
| GraphTermination.TokenCanMove | source/apixis/core/graph/node_graph.py:480-504 | Whatever its batches return, a step of its own, or the start of a dispatch queued ahead, is always enabled for a running attempt whose event was not dropped |
| GraphTermination.LeftAloneEnds | source/apixis/core/graph/node_graph.py:529-562 | Whatever its batches return, no schedule of an undropped attempt's own steps is longer than a bound, and each can be continued until the attempt is terminal |
| GraphTermination.CanBeEnded | source/apixis/core/graph/node_graph.py:480-504 | Whatever its batches return, some schedule of a running, undropped attempt's own steps alone, with no abort, failed publication or failed snapshot, makes it terminal |
| GraphProgress.LeftAloneEndsAsFated | source/apixis/core/graph/node_graph.py:529-562 | With deterministic nodes, after any run, every schedule of an undisturbed attempt's own steps is bounded, can be continued while it runs, and ends it, finishing or failing, as its uninterrupted run |
| GraphFate.TraceCoherent | source/apixis/core/graph/node_graph.py:304-341 | Restarting at any checkpoint of an uninterrupted run gives the rest of that run |
| GraphFate.FinishedAsFated | source/apixis/core/graph/node_graph.py:529-562 | With deterministic nodes, an attempt that finishes under any interleaving ends as its uninterrupted run does, with exactly that run's checkpoints |
| GraphFate.FailedAsFated | source/apixis/core/graph/node_graph.py:547-565 | With deterministic nodes, an attempt that a returning batch fails under any interleaving has the state, steps and checkpoints at which its uninterrupted run breaks |
| GraphFate.CheckpointsShareFate | source/apixis/core/graph/node_graph.py:529-562 | With deterministic nodes, after any run, the uninterrupted run from any recorded checkpoint, failing or finishing, is that of the attempt's own start |
| GraphFate.ResumeEquivalence | source/apixis/core/graph/node_graph.py:304-341 | With deterministic nodes, any valid version of any context's history restored after any run: same final state and steps as the original, and the prefix as restored history |
| GraphContexts.GraphContext.TransitionTo | source/apixis/core/graph/context/graph_context.py:122-136 | The transition table, repeated terminal notifications, and leaving the running set |
| GraphContexts.GraphContext.TakeASnapshot | source/apixis/core/graph/context/graph_context.py:162-176 | Only an active context appends itself to its history |
| GraphContexts.GraphContext.Abort | source/apixis/core/graph/context/graph_context.py:220-226 | The completion receives the newest checkpoint's state, a terminal context is left alone |
| NodeGraphs.NodeGraph.Compile | source/apixis/core/graph/node_graph.py:97-110 | Reserved and empty names and entry points with unknown nodes are rejected; otherwise a new graph with the normalised entry and no context |
| NodeGraphs.NodeGraph.BeginInvocation | source/apixis/core/graph/node_graph.py:378-418 | Admission; a rejected context remains untouched |
| NodeGraphs.NodeGraph.RestoreContext | source/apixis/core/graph/node_graph.py:304-341 | Native list indexing with either sign, the retained prefix, and the rejected cases |
| NodeGraphs.NodeGraph.HandlerRuns | source/apixis/core/graph/node_graph.py:152-192 | The graph's handler with its error and acceptance notifications, finish at END, and the checkpoint before a batch |
| NodeGraphs.NodeGraph.ApplyCommand | source/apixis/core/graph/node_graph.py:567-663 | Refusals, result count, commit in place and next target |
| NodeGraphs.NodeGraph.BatchReturns | source/apixis/core/graph/node_graph.py:547-565 | Stale results are dropped; commit, step count and next target, or failure |
| NodeGraphs.NodeGraph.PostNext | source/apixis/core/graph/node_graph.py:734-743 | The next target is checked against the budget and recorded, or the attempt fails |
| NodeGraphs.NodeGraph.Decompose | source/apixis/core/graph/node_graph.py:263-283 | Unforced decomposition with running contexts changes nothing; forced, it aborts each of them |
| NodeGraphs.NodeGraph.GatherTasks | source/apixis/core/graph/node_graph.py:540-547 | One result per node in order, or failure |
| NodeGraphs.NodeGraph.Invoke | source/apixis/core/graph/node_graph.py:420-425 | An undisturbed invocation finishes or fails exactly as the reference run of its nodes, with its checkpoints |
| NodeGraphs.NodeGraph.ResumeFrom | source/apixis/core/graph/node_graph.py:304-341 | Any valid version restored and invoked undisturbed ends, finishing or failing, as the run from that checkpoint |
| NodeGraphs.NodeGraph.InvokeAndResume | source/apixis/core/graph/node_graph.py:304-341 | A whole invocation and a second one from any version of its history end with the same status, state, steps and completion |
| NodeGraphs.NodeGraph.RunSchedule | source/apixis/core/graph/node_graph.py:150-202 | The objects follow the machine under any schedule of steps |
| StateCopy.DeepCopyIsolates | source/apixis/core/graph/context/graph_context.py:162-176 | A deep copy consists of new objects that refer only to each other and leaves every other object alone |
| StateCopy.DeepCopySame | source/apixis/core/graph/context/graph_context.py:162-176 | A deep copy has the contents of its original to every depth |
| StateCopy.CopyStateShares | source/apixis/core/graph/utils/state.py:7-37 | A copied state keeps its keys, shares the KeepRef values, and has only new objects elsewhere |
| StateCopy.CopyStateSame | source/apixis/core/graph/utils/state.py:31-37 | Ordinary fields of a copied state have the contents of the originals |
| CheckpointIsolation.NothingSharedWithCheckpoints | source/apixis/core/graph/node_graph.py:334-340 | After any run no live state and nothing ever given to user code shares an object with a stored checkpoint |
| CheckpointIsolation.OnlyCopiesAreGiven | source/apixis/core/graph/node_graph.py:491-513 | Nodes, merges and callers receive new objects but for KeepRef values, and snapshots new altogether |
| CheckpointIsolation.OnlyCopiesAreTaken | source/apixis/core/graph/node_graph.py:605-612 | A state or update taken over is new but for KeepRef values, a checkpoint new altogether |
| CheckpointIsolation.CheckpointsFrozen | source/apixis/core/graph/node_graph.py:491-495 | No run of nodes, callers and graph steps changes an object of a stored checkpoint |
| CheckpointIsolation.CheckpointKeepsContents | source/apixis/core/graph/context/graph_context.py:162-176 | After any later run a checkpoint has the contents that the live state had when it was taken |
| CheckpointIsolation.RestoredContents | source/apixis/core/graph/node_graph.py:334-340 | A restored history has the contents of the stored checkpoints or held snapshots it was restored from |
| CheckpointIsolation.RestoredLiveContents | source/apixis/core/graph/node_graph.py:335-337 | A restored live state has the contents of the last of them |
| RegistryModel.OrderSplit | source/apixis/core/event/handler_registry.py:77-80 | Descending priorities split the dispatch order at any bucket |
| RegistrySteps.ApplyKeepsInv | source/apixis/core/event/handler_registry.py:188-325 | Registration, replacement, removal and lookup keep: every registered name once across all buckets, none of them empty, and every cached chain equal to recomputation |
| RegistrySteps.RemoveOrder | source/apixis/core/event/handler_registry.py:219-230 | Removal takes a name out of the dispatch order and leaves the others as they were |
| RegistryTheorems.AcceptedIff | source/apixis/core/event/handler_registry.py:232-282 | When a registration is accepted, a taken name without exist_ok never, and the bucket it selects |
| RegistryTheorems.RejectedBecause | source/apixis/core/event/handler_registry.py:109-186 | Each rejection has its reason |
| RegistryTheorems.RegisteredEntry | source/apixis/core/event/handler_registry.py:284-305 | The handler is stored as given, its patterns each once in order, with the next order number; all others stay |
| RegistryTheorems.ReversedIff | source/apixis/core/event/handler_registry.py:167-176 | Boundaries are rejected as reversed if and only if the right one is dispatched before the left one |
| RegistryTheorems.Descending | source/apixis/core/event/handler_registry.py:77-80 | Higher priorities are dispatched first |
| RegistryTheorems.RegisterInserts | source/apixis/core/event/handler_registry.py:284-303 | A registration inserts its name once into the otherwise unchanged order of the others, in the bucket its checks selected |
| RegistryTheorems.BoundariesRespected | source/apixis/core/event/handler_registry.py:296-303 | Immediately before the right boundary and behind the left one, or immediately after a left boundary alone |
| RegistryTheorems.PriorityRespected | source/apixis/core/event/handler_registry.py:292-294 | Behind every handler of at least its priority and before all others |
| RegistryTheorems.CacheCoherent | source/apixis/core/event/handler_registry.py:188-217 | After any sequence of operations a cached chain lists exactly the registered handlers with a matching subscription and no matching filter, each once, in dispatch order |
| HandlerRegistry.ApixHandlerRegistry.IterActiveHandlerNames | source/apixis/core/event/handler_registry.py:77-80 | The loop over sorted priorities yields the dispatch order |
| HandlerRegistry.ApixHandlerRegistry.FindHandlerPosition | source/apixis/core/event/handler_registry.py:87-107 | Bucket and index by priority, or by search for handlers placed between others |
| HandlerRegistry.ApixHandlerRegistry.ValidateBetweenHandlers | source/apixis/core/event/handler_registry.py:109-186 | All boundary checks, without mutation |
| HandlerRegistry.ApixHandlerRegistry.BuildChain | source/apixis/core/event/handler_registry.py:203-209 | A rebuilt chain is a new list with the matching names in dispatch order |
| HandlerRegistry.ApixHandlerRegistry.GetHandlersChainForEvent | source/apixis/core/event/handler_registry.py:197-210 | Lookup fills the cache lazily, returns the cached list itself and touches no other list |
| HandlerRegistry.ApixHandlerRegistry.GetHandlersForEvent | source/apixis/core/event/handler_registry.py:212-217 | Every name of a chain is registered when it is looked up |
| HandlerRegistry.ApixHandlerRegistry.RegisterHandler | source/apixis/core/event/handler_registry.py:232-305 | All or nothing: a rejected call leaves registry and entry alone |
| HandlerRegistry.ApixHandlerRegistry.UnregisterHandler | source/apixis/core/event/handler_registry.py:313-325 | Removal from registry, bucket and the matching caches |
| HandlerRegistry.ApixHandlerRegistry.RunOps | source/apixis/core/event/handler_registry.py:188-325 | The object follows the operations' specification over any sequence of them |
| HandlerRegistry.Subscribe | source/apixis/core/event/subscription.py:239-269 | A staged copy is registered first; the instance is overwritten and takes its place only on success |
| HandlerRegistry.StagedAttributes | source/apixis/core/event/subscription.py:239-269 | What a subscription stages: the default priority only without priority and boundaries, execution options only where given, a timeout that is not positive as none |
| SnowflakeModel.RawDetermines | source/apixis/core/utils/snow/snowflake_m1.py:114-128 | Numbers with the same field widths are equal if and only if worker, tick and field agree, the carrying sequence number included |
| SnowflakeModel.RawLayout | source/apixis/core/utils/snow/snowflake_m1.py:114-128 | Tick, worker and field can be read back from a number; only the largest sequence number carries |
| SnowflakeModel.WhatIsIssued | source/apixis/core/utils/snow/snowflake_m1.py:59-112 | What each call issues and the mode it leaves, for every reading and mode |
| Snowflake.Defaults | source/apixis/core/utils/snow/snowflake_m1.py:25-56 | Field widths, largest sequence number and start of a new generator |
| SnowflakeModel.RegularIdsIncrease | source/apixis/core/utils/snow/snowflake_m1.py:59-112 | Under any clock, ids of the normal and over-cost paths are strictly increasing |
| SnowflakeModel.CollisionIff | source/apixis/core/utils/snow/snowflake_m1.py:84-128 | Two ids coincide if and only if both are turned back, at the same tick, in episodes a positive multiple of four apart |
| SnowflakeModel.FourEpisodesAreSafe | source/apixis/core/utils/snow/snowflake_m1.py:87-95 | Any run with at most four turn-back episodes has pairwise distinct ids |
| SnowflakeModel.FifthEpisodeCollides | source/apixis/core/utils/snow/snowflake_m1.py:90-93 | A concrete run with five episodes that repeats an id |
| SnowflakeModel.WorkersNeverCollide | source/apixis/core/utils/snow/snowflake_m1.py:114-128 | Generators of different workers never issue the same id |
| SnowflakeModel.DriftBound | source/apixis/core/utils/snow/snowflake_m1.py:59-112 | The last tick is at most max(1, top) ahead of the greatest reading, and in normal mode not ahead at all |
| Snowflake.SnowFlakeM1.NextNormalId | source/apixis/core/utils/snow/snowflake_m1.py:84-112 | The normal path with its turn-back episodes is one step of the model |
| Snowflake.SnowFlakeM1.NextOverCostId | source/apixis/core/utils/snow/snowflake_m1.py:59-82 | The over-cost path is one step of the model |
| Snowflake.Draw | source/apixis/core/utils/snow/snowflake_m1.py:141-147 | Drawing ids under any clock yields the model's ids, pairwise distinct with at most four episodes |

## Left out

- asyncio itself: its semaphore and queue are specified by what the code relies on; scheduling is any interleaving, and timeouts are failures or cancellations at any await.
- `resume_lock` is a mutual exclusion that any waiting branch may win; asyncio serves its waiters in order.
- Waiting publishers: a put into a full queue is a put that happens later; their order is not modelled, so queue entry order is the order of completed puts.
- Background handlers: they own no permit and only get a task of their own; their own runs, and what they append to a shared event, are not modelled.
- HandlerExecution.EveryExitReported: is about one handler with every callback set, as the graph's dispatch handler is; that this handler stays registered is not modelled, its absence is a LoseTask step.
- GraphFate.ResumeEquivalence: speaks of two attempts that both finish, because under arbitrary interleavings abort, cancellation or a dropped event may end either early; undisturbed attempts, failures included, end as fated by GraphProgress.LeftAloneEndsAsFated and are compared by NodeGraphs.NodeGraph.InvokeAndResume.
- GraphTheorems.TerminalFrozen: states are values there, so a late node that mutates a KeepRef object it shares with a terminal context's live state is outside it; stored checkpoints are safe from that by CheckpointIsolation.
- CheckpointIsolation.NothingSharedWithCheckpoints: excludes user code that reaches into a context's stored history directly.
- Restoring from snapshots of another graph and the validation of snapshot fields; GraphMachine restores from histories of its own contexts, and CheckpointIsolation also from any snapshots that user code holds.
- `set_max_steps` while an attempt runs, and the check that steps are a non-negative int.
- Malformed commands (an update that is no dictionary, a goto of another type) and callback type checks at registration.
- Infinite, NaN and boolean priorities: priorities are reals.
- Interruption blocks, the interrupted-fallback handler, namespaces, `GraphManager`, streams' chunk channel, node result normalisation, factory getters and `EventWaiter`.
- Schema parsing: the AutoMerge and KeepRef key sets are given.
- `get_unmatched_subscriptions`, event-name observation, logging, printing, configuration, uuids and traceback text.
- The generator's lock and sleep loop: calls are serialised, and a waiting call is given a reading beyond the last tick.
- Garbage collection and `__del__`.
