# Skald, modelled and proved in Dafny

Skald is a durable workflow engine. A run is an append-only history of events; the server folds it into an
execution state, workflow code is replayed against it, and several server replicas share one store. This project models
the parts whose correctness is hard to see from any one function and proves what holds over every run.

## What is modelled

- **The execution state machine** (`History`, `Execution`, `MutableState`). Events fold into a state, transitions append
  events and return effects. The fold and the transitions are functions; the object the source updates in place is the
  class `MutableState`, each of whose methods is proved equal to its function.
- **The engine's requests** (`Engine`): one request against one loaded state, including polls, responses, retries that
  write no event, timer handlers, the rule for events buffered behind a started task, and the naming of a successor.
- **The workflow side** (`Sdk`, `Environment`). Workflow code is an arbitrary deterministic machine that asks the
  environment for activities, timers, scopes, signals, versions, side effects and local activities; any number of
  coroutines run by the deterministic dispatcher is one such machine. The environment and the executor are classes proved
  against the functions.
- **What each of these means**, stated apart from the functions that compute it: the state on the history alone (`Clocks`), every
  request's events, patches, effects and rows on its own fields (`Written`), an answered task and the run that follows it on
  its commands and event 1 (`Successors`), what workflow code is told on the events (`Outcomes`), cancellation on the tree of
  scopes (`Cancellation`), each call's command and answer (`Calls`), and the due-time rows on what is awaited (`Deadlines`).
- **Replicas over a store** (`Cluster`, with `Exclusion`, `Inheritance` and `Delivery`): a state machine over every interleaving of creations, version reads, history
  reads that straddle another write, compare-and-set appends, replies that get lost after the commit, recovery's dispatches
  and its event-free writes, evictions and restarts.
- **The due-time index and recovery** (`TimerIndex`, `Coverage`, `Recovery`, `Redelivery`), the **cooperative dispatcher**
  (`Dispatcher`) with the blocking calls compiled to it (`Blocking`), **workflow channels** (`Channel`), **matching queues** (`Matching`) and **retry policies**
  (`RetryPolicy`, `Retries`, `Policies`, `Attempts`, and `Provenance` across replicas).

## Main results

1. *Rebuild refines live state* (`Runs.RebuildRefinesLive`). After any sequence of requests, lost writes and reloads, the
   history replays exactly while it is under the event cap, and the replay equals the live state on everything except the
   fields that belong to one activity attempt.
2. *Warm equals cold* (`Cooperation.WarmAndColdAgree`). On every run in which each task is answered before anything follows
   its started event and side effects give answers a marker can reproduce, a warm instance and a cold one return the same
   batch and leave the same instance, and no replay of such a history reports non-determinism
   (`Cooperation.NoFalseAlarm`).
3. *Every batch is taken* (`Cooperation.EveryBatchIsTaken`). On the same runs, what the workflow side produces from
   well-formed options passes every check of the server, is written whole and never crashes a completion.
4. *No lost wake-up* (`WakeUps.NoLostWakeUp`), *at most one start and one resolution, never two tasks at once*
   (`Runs.NothingHappensTwice`, `Runs.OneTaskAtATime`), *all or nothing* for a batch (`Batches.BatchAtomic`), with the
   exact condition under which the code breaks it.
5. *Replica safety*: under every interleaving of replicas, conflicts and lost replies the store only grows by appends to
   what it held (`Cluster.StoreOnlyGrows`, `Cluster.CommitInv`), a cache entry at the stored version is exact
   (`Cluster.CacheIsCurrent`) and what is dispatched is durable (`Cluster.HandedIsDurable`). *Whole chains*: a continued
   run has a successor that points back (`Cluster.ContinuedRunsHaveSuccessors`) and only one
   (`Cluster.ChainsDoNotFork`).
6. *Recovery is complete* (`Recovery.RecoveryIsComplete`), from any reachable system and by any replica
   (`Delivery.AnyReplicaRecovers`); the index becomes exactly the desired set
   (`TimerIndex.IndexBecomesDesired`) and covers the state exactly unless a request dropped a live row
   (`Coverage.CommitCoversExactly`); a timer that was due when it was delivered writes nothing when it comes again, at any
   later instant (`Redelivery.SecondDelivery`, `Redelivery.DeliveredOnceForAll`).
7. The dispatcher stops at a fixpoint in which every coroutine has finished or waits for something that is not there
   (`Dispatchers.FixpointBlocksAll`, `Blocking.EveryoneFinishedOrWaits`), a channel is a FIFO queue
   (`Channels.ChannelIsFifo`), matching loses and duplicates no task (`Matching.TasksAreConserved`), and no activity exceeds
   its policy's attempts, in one run or across replicas (`Attempts.AttemptsStayWithin`,
   `Provenance.NoReplicaExceedsAttempts`).

8. *The state is what the history says* (`Clocks.StateFollowsHistory`): at every point of every run, timers and activities are
   pending exactly if the events started them and neither resolved them nor ended the run, and every clock is an event's time
   plus a duration of that history. *Every write is exact*: a request is written exactly when it is admitted, and then writes
   exactly the events, effects and rows its fields call for (`Written.HandleWrites`, `Successors.ResponseAnswers`). Every
   implied row that is delivered once due does its work (`Deadlines.DueRowTakesEffect`, `Deadlines.SleepsEndOnTime`).
9. *Workflow code is told what the history recorded* (`Outcomes.AnswersAreRecorded`): at every call of every run, replaying or
   live, a future reads as the event that resolved it, signals arrive in recorded order and the clock is that of the last turn.
10. *Cancelling a scope reaches exactly its subtree* (`Cancellation.CancelTreeCancels`), in every environment workflow code can
    stand in (`Cancellation.CancelAlwaysReaches`), with each cancel raised once and in order.
11. *Followers carry on* (`Inheritance.FollowersCarryOn`): under every interleaving of replicas a continued or retried run is
    followed by a stored run that starts from exactly what was recorded; *one open run at a time*, and one run per request
    (`Exclusion.OneRunAtATime`, `Exclusion.RequestCreatesOnce`).

## Where the code is weaker than its comments

Each is a lemma, with the exact condition:

- Two cancels of one timer in one batch pass the checks and then dereference a missing timer
  (`Batches.DoubleCancelCrashes`; `Batches.BatchAtomic` shows that nothing else crashes a completion).
- A replay looks only at the event right after a started event, while the engine lets events land in between: a cold replay
  of such a history fails exactly when the completed batch was not empty, and forgets the run of the code when it was
  (`Overtaken.BufferedEventBreaksReplay`, `Overtaken.EmptyAnswerIsForgotten`); any signal that arrives while a worker thinks
  gets a run there (`Overtaken.SignalBeforeAnswerBreaksReplay`, `Overtaken.FirstTaskCanBeOvertaken`).
- A side effect or local activity replays to the same reply exactly when its answer is an application error without a value,
  or no error (`Determinism.OnceReplaysExactlyWhenStable`); a failing mutable side effect only if nil was cached before
  (`Determinism.MutableReplaysExactly`).
- A version gate replays exactly when its range is not empty or it was replaying already: with an empty range a live call
  picks a version its own replay refuses (`Determinism.VersionReplaysExactly`, `Determinism.EmptyRangeBreaksReplay`).
- A request's drops delete a row even if the new state implies it again. That hits exactly an early task timeout, an early
  activity timeout while a clock is running, and a retry in place under a schedule-to-close deadline
  (`Coverage.DroppedLiveRows`); a heartbeating activity can be left without a row until the next commit
  (`Coverage.HeartbeatingActivityLosesItsRow`).
- Delivering a signal to a bounded channel would overtake parked senders of other values
  (`Channels.DeliverIsEnqueueExactly`); signal channels are unbounded, so it does not happen.
- Taking from the backlog and parking are separate critical sections: backlog and parked pollers stay apart exactly while no
  poller parks on a backlog (`Matching.ApartExactlyUnlessParkedOnBacklog`), which can happen
  (`Matching.BacklogAndPollerCanCoexist`).

## Conventions

Time is an integer of nanoseconds and 0 means unset; a transition reads the clock once. Jitter, seeds, fresh identifiers and
the answers of side effects are parameters. Payloads and names are opaque. Commands and event attributes are sum types where
the source has a type tag with one nullable field per kind, so a tag that disagrees with its field cannot be written down. A
panic is an error value (`Crashed`, `Crash`, `ErrPanic`). Workflow code runs with a step budget in place of the wall-clock
deadlock deadline.

## Model

| member | source | states |
|---|---|---|
| History.Validate | pkg/history/history.go:91-148 | the one-pass validator with six reference sets accepts exactly the histories that meet the declarative contract: dense IDs, ordered positive times, one start, one terminal event at the end, every back-reference to an earlier event of the right type, and the cap |
| History.References.Check | pkg/history/history.go:150-305 | checking an event against the reference sets decides whether its references name earlier events of the right type |
| History.References.Note | pkg/history/history.go:104-148 | after noting an event the six sets hold exactly the IDs of their types up to and including it |
| History.WellFormedAppend | pkg/history/history.go:91-148 | the contract is closed under appending a well-placed, well-referenced event to an open history |
| History.ValidateBatch | pkg/history/command.go:180-301 | accepts exactly the batches whose commands are well formed with a closing command only in last place, and leaves the normalised batch |
| RetryPolicy.PolicyObject.Validate | pkg/skald/retry.go:59-92 | normalises in place and reports exactly whether the result is usable |
| RetryPolicy.NormalizeIdempotent | pkg/skald/retry.go:59-92 | normalising twice changes nothing, and a usable normalised policy has a positive first interval |
| RetryPolicy.NormalizeFills | pkg/skald/retry.go:59-92 | every field left at zero gets its default, the maximum the smaller of 100 first intervals and 100 s, and every other field stays |
| RetryPolicy.ShouldRetry | pkg/skald/retry.go:96-118 | a retry is never granted for a non-retryable failure or type, nor past a positive maximum of attempts |
| RetryPolicy.BackoffBounds | pkg/skald/retry.go:122-142 | jitter never shortens the clamped nominal interval, and the delay is at most 1.2 times the maximum interval |
| RetryPolicy.BackoffGrows | pkg/skald/retry.go:122-142 | under one jitter draw a later attempt never waits less |
| RetryPolicy.NominalGrowsByCoefficient | pkg/skald/retry.go:122-142 | the first interval is the initial one, and each later one is the one before times the coefficient, up to the maximum |
| RetryPolicy.BackoffRounds | pkg/skald/retry.go:122-142 | the delay is the interval stretched by up to a fifth in proportion to the jitter, rounded down, capped at the longest duration |
| Retries.RetriesStayInBounds | internal/execution/activity.go:65-160 | a failed or timed-out attempt is re-armed without an event, one attempt up, within the maximum, within the backoff bounds and not past the schedule-to-close deadline |
| Policies.RunsRetryWithinBounds | internal/execution/transitions.go:199-240 | at every point of every run each pending activity has a usable policy, so the bounds on number, delay and outer deadline hold for its next retry without a proviso |
| Attempts.AttemptsStayWithin | internal/execution/activity.go:65-160 | at every point of every run whose polls and timers carry attempts the run has known, no activity is further into its attempts than a positive maximum, and neither is any start the history records |
| Attempts.HandleKeepsWithin | internal/engine/activity.go:78-158 | no request takes an attempt past its policy as long as it brings none along that is |
| Provenance.StepKeepsTracked | internal/engine/engine.go:600-635 | every step of every replica keeps all attempts within their policies: in cached states, stored histories, dispatched references and written rows |
| Provenance.NoReplicaExceedsAttempts | internal/execution/activity.go:65-160 | under every interleaving of replicas, conflicts, recoveries and lost replies, no cached activity is further into its attempts than its policy allows |
| Provenance.CarriedAttemptsFit | internal/engine/engine.go:600-635 | under every interleaving every dispatched reference and every written row names a recorded activity in an attempt its policy allows |
| Retries.OuterBudgetIsFinal | internal/execution/activity.go:125-160 | a schedule-to-close expiry always resolves the activity |
| Retries.RunRetriesStayInBounds | internal/execution/transitions.go:291-327 | a failing run is retried only within its policy and before its execution deadline, and the recorded retry state says exactly whether it was |
| Execution.RetryDelay | internal/execution/activity.go:65-106 | a delay is granted only within the maximum of attempts and if it ends by the schedule-to-close deadline |
| Durability.RecordAgree | internal/execution/mutablestate.go:232-357 | applying one event to two states that differ only in per-attempt fields succeeds on both or fails alike, and they still differ only there |
| Durability.RecordLinks | internal/execution/mutablestate.go:232-440 | recording a well-referenced event keeps every link from pending work to the event it names, the one-to-one ID maps, and closed exactly if the last event is terminal |
| Durability.AppendDurable | internal/execution/mutablestate.go:216-230 | appending keeps the state durable: linked, well formed, and equal to its own replay but for per-attempt fields |
| Rebuilding.RetryIsPatch | internal/execution/activity.go:108-122 | a retry followed by re-attaching the started event changes nothing but per-attempt fields |
| Rebuilding.PatchRunIdKept | internal/execution/transitions.go:374-386 | naming the successor in the uncommitted closing event keeps the state durable |
| Rebuilding.CommandsKept | internal/execution/transitions.go:199-288 | every applied batch of well-shaped commands keeps the state durable and extends the history |
| Rebuilding.HandleKept | internal/engine/workflow.go:696-758 | whatever any request writes is a durable state of the same run whose history extends the one it started from |
| Runs.CreateDurable | internal/engine/workflow.go:259-325 | every way of creating a run succeeds and leaves a durable first state |
| Runs.ReloadAgrees | internal/execution/mutablestate.go:167-179 | a durable state can be reloaded exactly while its history is under the cap, and loses only per-attempt fields |
| Runs.LivesDurable | internal/engine/engine.go:410-488 | every state of every run of requests, lost writes and reloads is durable, belongs to the run, and is kept from the state before it |
| Runs.HistoryGrows | internal/execution/mutablestate.go:216-230 | an earlier history of a run is a prefix of every later one |
| Runs.RebuildRefinesLive | internal/execution/mutablestate.go:167-179 | from creation, after any run: the history is well formed, rebuilds exactly under the cap, and rebuilds to the live state but for per-attempt fields |
| Runs.NothingHappensTwice | internal/execution/mutablestate.go:409-427 | at every point of every run no activity was started twice, resolved twice or started after its resolution, and no timer was resolved twice |
| Runs.OneTaskAtATime | internal/execution/transitions.go:73-115 | at every point of every run a workflow task was scheduled, started and closed before the next was scheduled |
| Clocks.StateFollowsHistory | internal/execution/mutablestate.go:232-440 | at every point of every run, stated on the events alone: timers, activities and the task are pending exactly if started and neither resolved nor abandoned; a timer is due its duration after its event, the task its timeout after its started event, the outer budget and the two run deadlines likewise; options, IDs, requests, status and closing time are those of their events |
| Clocks.ColdStateFollowsHistory | internal/execution/mutablestate.go:167-179 | the same after a cold load, and each attempt has the number, request and two clocks its started event gives it |
| Clocks.ReplayFollows | internal/execution/mutablestate.go:232-440 | the same for the fold of any replayable history |
| ExactlyOnce.ResolvedAtMostOnce | internal/execution/mutablestate.go:409-427 | in a replayable history an activity is started at most once, resolved at most once and not started after it is resolved, and a timer is resolved at most once |
| ExactlyOnce.TasksNeverOverlap | internal/execution/mutablestate.go:232-357 | consecutive workflow-task events alternate scheduled, started, closed |
| WakeUps.CompletionSeesAll | internal/engine/workflow.go:709-717 | a completion with nothing buffered leaves no wake-up unseen |
| WakeUps.HandleAwake | internal/engine/workflow.go:709-731 | every request keeps: an open run with an unseen wake-up has a task scheduled or in flight |
| WakeUps.NoLostWakeUp | internal/execution/activity.go:266-310 | in every reachable open state, a signal, cancel request, resolution or timer fire above the started event of the last completed task has a workflow task scheduled or in flight |
| Written.HandleWrites | internal/engine/recovery.go:166-384 | every request but a task response is written exactly when it is admitted, stated on its fields and the state; then it records exactly these attributes, the task behind them when none was outstanding, nothing for a heartbeat, an early timer or a retry in place, and reports exactly these effects, rows and dropped keys |
| Written.FailureWrites | internal/execution/activity.go:65-122 | a failed attempt is re-armed, its number up by one and its failure kept, exactly if a delay is granted, with a row after that delay; otherwise it is recorded as the last with the reason |
| Written.ExpiryWrites | internal/execution/activity.go:125-160 | an activity timer acts on the clock that is due, innermost first, in the attempt its row knows, and re-arms or records the timeout of that kind |
| Written.RetryDelayGrants | internal/execution/activity.go:65-106 | a delay is granted exactly if the failure is not final by itself, by its type or by the attempts used, and the backoff with the recorded jitter ends within the outer budget |
| Written.CreateWrites | internal/engine/workflow.go:259-325 | a created run holds exactly event 1 with its defaults, the signal it was started with, and a first task unless it serves a backoff; the task is dispatched |
| Batches.CommandsLand | internal/execution/transitions.go:199-288 | the write loop records every command one for one, in order, exactly if each cancelled timer is pending and cancelled once, and otherwise dies on a missing timer |
| Batches.BatchAtomic | internal/execution/transitions.go:119-197 | a completion is refused exactly when not accepted, applied exactly when accepted without cancelling a timer twice, crashes exactly when accepted with such a double cancel; applied, it leaves the old history, the completed event and one event per command |
| Batches.DoubleCancelCrashes | internal/execution/transitions.go:184-188 | for any pending timer, cancelling it twice in one batch is accepted and crashes |
| Successors.ResponseAnswers | internal/execution/transitions.go:119-288 | an answer is written exactly when the task is the worker's, the batch is accepted and cancels no timer twice; then it records the completed event, each command's attributes field by field with the defaults filled in, a next task exactly if something came in between and the run goes on, and hands out exactly the work of its commands, in order, and at most one successor |
| Successors.SuccessorFollows | internal/execution/transitions.go:291-409 | for every written request: after a continue-as-new the successor and the closing event agree, and what the command leaves out is event 1's own; after a failure there is one exactly if policy, attempts, failure and time allow it, it repeats event 1 one attempt up after the backoff, and the closing event records which condition failed; nothing else starts a run |
| Successors.ResponseHasNoRows | internal/engine/engine.go:645-707 | an answer asks for no index row of its own: all it arms is implied by the state it leaves |
| Successors.VerdictCloses | internal/execution/transitions.go:291-327 | each recorded retry state is given exactly under its condition |
| MutableStates.MutableState.ApplyEvent | internal/execution/mutablestate.go:232-440 | updates the fields in place to the value of the fold function, and changes nothing when the event is refused |
| MutableStates.MutableState.AppendEvent | internal/execution/mutablestate.go:216-230 | stamps, applies and records, or leaves no trace |
| MutableStates.MutableState.ScheduleWorkflowTask | internal/execution/transitions.go:73-93 | idempotent scheduling with its dispatch effect |
| MutableStates.MutableState.PrecheckCommands | internal/execution/transitions.go:161-197 | one pass with sets of seen IDs accepts exactly the batches that fit the state |
| MutableStates.MutableState.ApplyCommand | internal/execution/transitions.go:199-288 | appends the command's event and returns its effects, or leaves the state as it was |
| MutableStates.MutableState.CompleteWorkflowTask | internal/execution/transitions.go:119-157 | the loop over commands computes the completion function; a refusal leaves the object unchanged |
| MutableStates.MutableState.Load | internal/execution/mutablestate.go:167-179 | validates, then folds the history event by event into the rebuilt state |
| MutableStates.MutableState.StartWorkflowTask | internal/execution/transitions.go:102-115 | starts the scheduled task or refuses |
| MutableStates.MutableState.FailWorkflowTask | internal/execution/activity.go:266-281 | closes the started task and schedules the next |
| MutableStates.MutableState.TimeoutWorkflowTask | internal/execution/activity.go:283-296 | closes the started task and schedules the next, or does nothing |
| MutableStates.MutableState.FirePendingTimer | internal/execution/activity.go:200-216 | fires a pending timer and wakes the workflow; a missing one is a no-op |
| MutableStates.MutableState.StartPendingActivity | internal/execution/activity.go:11-38 | writes the started event once; the same request ID gets the same answer |
| MutableStates.MutableState.FailPendingActivity | internal/execution/activity.go:65-106 | retries in place or resolves the activity |
| MutableStates.MutableState.TimeoutPendingActivity | internal/execution/activity.go:125-160 | retries in place or resolves the activity |
| MutableStates.MutableState.RetryInPlace | internal/execution/activity.go:108-122 | resets the attempt without an event and arms the backoff |
| MutableStates.MutableState.RecordActivityHeartbeat | internal/execution/activity.go:184-198 | extends the heartbeat clock and keeps the checkpoint |
| MutableStates.MutableState.NameSuccessor | internal/execution/transitions.go:374-386 | rewrites only the successor of a closing continue-as-new event |
| Outcomes.EventSettles | internal/workflow/replayer.go:274-349 | a resolving event settles exactly the handle known under the event it names: a completion with its result, a failure with its error or the fixed text, a timeout with kind and details, a cancellation with its details, a timer with nothing; an outcome already set stays, and nothing else changes |
| Outcomes.ReplayTells | internal/workflow/replayer.go:155-217 | after replaying any part of a well-formed history each handle is open exactly until the event that resolves it and then reads as that event, unless canceled first; the signal queues are the tails of the recorded signals; start, clock and maps are those of the events |
| Outcomes.AnswersAreRecorded | internal/workflow/replayer.go:274-378 | wherever workflow code stands, replaying or live, after any number of calls: what the next poll, receive or clock call answers is what the history recorded |
| Outcomes.ReceiveTold | internal/workflow/state.go:466-490 | a receive hands out the next recorded signal of its name, and none exactly when all have been handed out |
| Outcomes.CodeBegins | internal/workflow/replayer.go:226-240 | after any part of a history the code begins from event 1's attributes and time, or goes on where it blocked, with the deferred cancels queued first; closed code is not run |
| Outcomes.RunEndsWithCode | internal/workflow/replayer.go:226-252 | a run ends at the call at which the code blocks, returns or panics, and in the environment it then has |
| Cancellation.CancelTreeCancels | internal/workflow/context.go:186-208 | cancelling a scope cancels exactly the scopes below it by the parent links and exactly the handles registered there: each flagged, out of its scope, with the outcome it had or a cancellation, its cancel deferred, queued once in subtree-first order, or needless; nothing else changes, and below a canceled scope everything stays canceled |
| Cancellation.CancelAlwaysReaches | internal/workflow/context.go:186-208 | the same in every environment reached by any history and any number of calls |
| Cancellation.FlushQueues | internal/workflow/state.go:269-278 | every deferred cancel is queued once, in the order it was raised, unless resolved, unknown to the server or too late |
| Cancellation.OpenScopeListens | internal/workflow/context.go:169-247 | a new scope lies below whatever its parent lies below and is canceled from the start exactly if the parent is; a disconnected one hears of nothing |
| Calls.ExecuteActivityAsks | internal/workflow/state.go:285-325 | in a live scope one command with the caller's options, bounded by default, and one open future registered with the scope; in a canceled one a canceled future and no command |
| Calls.NewTimerAsks | internal/workflow/state.go:382-410 | the same for a timer; one without a duration has fired already |
| Calls.GateSettles | internal/workflow/state.go:645-694 | a gate answers and pins the version pinned, else recorded, else the oldest in a replay and the newest in a live run, exactly if the range allows it, and leaves a marker exactly when it settles on a number first |
| Calls.GateIsPinned | internal/workflow/state.go:645-694 | once settled a gate answers that version or refuses, whatever markers and mode |
| Calls.OnceAnswers | internal/workflow/state.go:535-559 | a side effect or local activity answers its marker, is refused in a replay without one, and live answers and records what the world said |
| Calls.MutableSettles | internal/workflow/state.go:566-613 | a mutable side effect answers and remembers its marker, repeats what it remembers, or live records a value exactly if the code does not call it the same; errors are recorded and remember nothing |
| Calls.ReturnCloses | internal/workflow/state.go:756-794 | a return queues one closing command of its kind with what it carries, behind everything else, and nothing is queued after it |
| Calls.MatchesByIdentity | internal/workflow/replayer.go:525-606 | a command matches an event exactly if the event confirms that very command |
| Calls.ConfirmationIsExact | internal/workflow/replayer.go:409-436 | a confirming event is accepted exactly if its command heads the queue and is non-determinism otherwise; no other event is refused |
| Determinism.MutableKeyInjective | internal/workflow/state.go:571-579 | the marker of a mutable side effect determines its id and call number |
| Determinism.PlainNotMutable | internal/workflow/state.go:571-579 | plain and mutable side effects never share a marker |
| Determinism.PerformConsults | internal/workflow/state.go:535-729 | a call consults its own marker, which nothing has consulted before, and queues a marker exactly when it recorded one |
| Determinism.PerformReplays | internal/workflow/state.go:535-729 | replaying one call from markers that cover its log gives the same environment and reply |
| Determinism.RunReplays | internal/workflow/replayer.go:226-240 | running code live and replaying it later from its markers give the same environment, if every live answer is stable |
| Determinism.OnceReplaysExactlyWhenStable | internal/workflow/state.go:535-559 | a side effect or local activity replays to the same environment and reply exactly when its answer is stable |
| Determinism.MutableReplaysExactly | internal/workflow/state.go:566-613 | a mutable side effect replays exactly when it did not fail, or failed with an application error over a nil cached value |
| Determinism.VersionReplaysExactly | internal/workflow/state.go:645-694 | a version gate replays to what it answered exactly when its range is not empty or the answer came from a replay itself |
| Determinism.EmptyRangeBreaksReplay | internal/workflow/state.go:645-694 | the first live call of any gate with an empty range succeeds, and its replay is reported as non-determinism |
| Determinism.RangeReplays | internal/workflow/replayer.go:165-197 | replaying part of a history needs of the marker index only what that part left in its log, so markers of later tasks cannot disturb it |
| Determinism.FeedReaches | internal/workflow/replayer.go:165-191 | the feeding loop replays up to the started event its task names and runs that one live |
| Determinism.PreloadCompletes | internal/workflow/replayer.go:260-268 | incremental scanning ends with the markers of the whole history |
| Agreement.CancelTreeTakes | internal/workflow/context.go:186-208 | cancelling a scope leaves a queue the server would take, and queues nothing while history is applied |
| Agreement.FlushTakes | internal/workflow/state.go:269-278 | flushing deferred cancels names only pending work and cancels no timer twice |
| Agreement.PerformTakes | internal/workflow/state.go:252-437 | every call of well-formed code keeps the queue a batch the server would take |
| Agreement.RunFinishes | internal/workflow/replayer.go:226-252 | a whole run leaves a batch that is valid, fits the server's pending work, cancels once, closes last, and whose markers its log accounts for |
| Agreement.MatchedSim | internal/workflow/replayer.go:409-436 | the event of the head command matches it, and both sides still agree on what is pending |
| Agreement.ExternalSim | internal/workflow/replayer.go:274-349 | an event of the server's own needs no command, and both sides still agree |
| Agreement.RecordedMatches | internal/workflow/replayer.go:525-606 | the event that records a command is never reported as a mismatch |
| Protocol.BatchReplays | internal/workflow/replayer.go:409-436 | the events of an accepted batch, fed to the matcher with that batch outstanding, consume it exactly, in order, without a mismatch |
| Protocol.BatchSynced | internal/workflow/replayer.go:155-217 | a history with a taken batch recorded replays cold to the environment the live run left, its queue consumed |
| Protocol.LiveTask | internal/workflow/replayer.go:155-191 | a live task, warm or cold, runs the code from the caught-up environment and returns its queue |
| Protocol.WarmMatchesCold | internal/workflow/replayer.go:148-217 | a warm and a cold instance given the same task return the same batch and leave the same instance |
| Overtaken.BufferedEventBreaksReplay | internal/workflow/replayer.go:221-223 | when other events landed between a task and its answer, every cold replay of the history, and of what the server adds to it, fails exactly if the batch of the live run was not empty |
| Overtaken.EmptyAnswerIsForgotten | internal/workflow/replayer.go:221-240 | with an empty batch the cold replay goes on from where the code stood before the task, while the instance that answered stands after it |
| Overtaken.NextColdTaskFails | internal/workflow/replayer.go:155-191 | after a non-empty one the next task fails on every cold instance and poisons it, whatever the world answers |
| Overtaken.SignalBeforeAnswerBreaksReplay | internal/engine/workflow.go:709-731 | at any point of any run of server and workers with a task in flight: if a signal is written before the answer, the server takes both, and cold replays then fail exactly if the batch was not empty |
| Overtaken.FirstTaskCanBeOvertaken | internal/engine/workflow.go:709-717 | a run gets there by creating, polling, signalling and answering, for every start and every signal |
| Appends.HandleAdds | internal/engine/recovery.go:166-384 | requests other than a task response write only events that answer no command, and every scheduled task has a positive timeout |
| Effects.HandleNames | internal/engine/engine.go:555-630 | every reference a written request dispatches names a recorded scheduled event of its kind |
| Effects.HandleSuccessor | internal/engine/recovery.go:493-549 | a successor continues exactly a run that has just closed, keeps its first run ID, and is the one a continue-as-new event names, never the placeholder |
| Cooperation.AnswerTaken | internal/engine/workflow.go:696-731 | the batch of a live run is written whole by the server |
| Cooperation.NoFalseAlarm | internal/workflow/replayer.go:155-217 | over every allowed run of server and workers, at every point, the history replays cold without a mismatch and with its queue consumed |
| Cooperation.WarmAndColdAgree | internal/workflow/replayer.go:148-217 | over every allowed run, a task in flight gets the same batch from any warm instance as from a cold one, and both leave the same instance |
| Cooperation.EveryBatchIsTaken | internal/execution/transitions.go:119-197 | over every allowed run: any live batch passes validation and precheck and is written whole |
| Environments.Environment.CancelOne | internal/workflow/state.go:335-362 | settles the future at once and defers or queues the cancel command |
| Environments.Environment.CancelScope | internal/workflow/context.go:186-208 | cancels the subtree, then the scope's handlers in registration order |
| Environments.Environment.FlushPendingCancels | internal/workflow/state.go:269-278 | emits deferred cancels in the order they were raised |
| Environments.Environment.ExecuteActivity | internal/workflow/state.go:285-325 | names, defaults, queues and registers an activity, or settles it at once in a cancelled scope |
| Environments.Environment.NewTimer | internal/workflow/state.go:382-410 | queues and registers a timer, or settles it at once |
| Environments.Environment.RunOnce | internal/workflow/state.go:535-559 | reads the marker back or runs once and records |
| Environments.Environment.MutableSideEffect | internal/workflow/state.go:566-613 | records a marker only on a change or a failure |
| Environments.Environment.GetVersion | internal/workflow/state.go:645-694 | pins a version by cache, marker, default or choice |
| Environments.Environment.CompleteWith | internal/workflow/state.go:756-794 | queues the closing command and closes the queue |
| Environments.Environment.MatchHead | internal/workflow/replayer.go:409-436 | pops and binds the head command, or refuses and changes nothing |
| Environments.Environment.Apply | internal/workflow/replayer.go:274-378 | applies one history event to the environment |
| Environments.Executor.PreloadMarkers | internal/workflow/replayer.go:260-268 | indexes the markers not seen yet |
| Environments.Executor.ExecuteFrom | internal/workflow/dispatcher.go:125-165 | the execution loop answers one call after another and computes the bounded step function: same environment, same place in the code, or the same failure |
| Environments.Executor.Run | internal/workflow/replayer.go:226-240 | flushes deferred cancels first, does nothing once closed, and starts or resumes the code where it stood |
| Environments.Executor.ProcessTask | internal/workflow/replayer.go:155-217 | the loop with its cursor computes the task function: same batch, same instance, poisoned on failure |
| TimerIndex.Earliest | internal/engine/engine.go:798-809 | the smallest set instant, unset exactly when all are |
| TimerIndex.NextDeadline | internal/engine/engine.go:782-795 | the earliest clock that applies to a held or waiting attempt |
| TimerIndex.OneRowStandsForFourClocks | internal/engine/recovery.go:315-338 | some clock has expired exactly when the one deadline is set and reached |
| TimerIndex.DesiredTimers | internal/engine/engine.go:645-707 | the entry-by-entry construction yields the rows the state implies, the carried ones and the requested ones, minus the dropped |
| TimerIndex.DiffTimers | internal/engine/engine.go:711-726 | exactly the rows that are new or changed, and exactly the armed keys no longer wanted |
| TimerIndex.IndexBecomesDesired | internal/engine/engine.go:493-531 | an index equal to the armed set becomes exactly the desired set, and a commit with nothing to write had it already; dropped keys are not in the desired set |
| Coverage.CommitCoversExactly | internal/engine/engine.go:700-707 | after any request has been committed, a row the new state implies is in the index at its instant exactly unless the request dropped it |
| Coverage.DroppedLiveRows | internal/engine/recovery.go:207-384 | the requests that drop a row their outcome still implies are exactly: a task timeout that comes too early, an activity timeout that comes too early while a clock is running, and one that opens the next attempt under a schedule-to-close deadline |
| Coverage.HeartbeatingActivityLosesItsRow | internal/engine/recovery.go:285-300 | for any held attempt whose deadline has moved out, delivering its old row leaves it without a row after the commit |
| TimerIndex.CommitRepairsIndex | internal/engine/recovery.go:96-118 | whatever the index holds, every desired row is there after a commit, and only rows this replica neither armed nor dropped remain beside them |
| Deadlines.ImpliedRows | internal/engine/engine.go:645-707 | an open run implies a row exactly for each thing it awaits, due at the first of the clocks that run for it, with that attempt and queue |
| Deadlines.DueRowTakesEffect | internal/engine/recovery.go:166-384 | every implied row delivered at or after its instant is written and does its work: the timer fires, the task or run times out with the kind that is due, the activity times out or goes on |
| Deadlines.EarlyRowWaits | internal/engine/recovery.go:166-384 | delivered early it changes nothing, except that a user timer fires whenever its row is delivered |
| Deadlines.SleepsEndOnTime | internal/execution/mutablestate.go:310-330 | at every point of every run a timer has a row exactly while the history has it pending, due its duration after its event, and delivering it records that it fired |
| Deadlines.BackedOffRunWakes | internal/engine/workflow.go:272-297 | a run that serves a backoff is created with no task and one row due after the delay, which every commit keeps until it is delivered and which then gives it its first task |
| Recovery.RecoverExecution | internal/engine/recovery.go:61-154 | dispatches the scheduled task and every unstarted activity and upserts every desired row that is not armed |
| Recovery.RecoveryCovers | internal/engine/recovery.go:61-154 | after recovery of a cold load everything an open run waits for has a reference or a row at its deadline |
| Recovery.RecoveryIsComplete | pkg/history/command.go:208-211 | at any point of any run, whatever the index lost, recovery covers the run |
| Redelivery.SecondDelivery | internal/timers/timers.go:296-335 | delivering any timer again at any later instant: nothing is written if the first delivery found it due; if that came too early, an event is written exactly when by then something is due that is not retried in place |
| Redelivery.SettledTimerStaysQuiet | internal/engine/recovery.go:166-384 | once its timer, task or run is settled in the history, a user timer, task timeout or run timeout writes nothing, whenever it is delivered |
| Redelivery.SettledTimerNeverWritesAgain | internal/engine/recovery.go:166-384 | at every later point of a run in which the business of such a timer was settled, delivering it writes nothing |
| Redelivery.DeliveredOnceForAll | internal/timers/timers.go:296-335 | such a timer that wrote something when it was delivered writes nothing at any later point of the run, however often it comes again |
| Cluster.RebuiltFits | internal/engine/engine.go:347-371 | a rebuild of what is stored now fits under a version read earlier, even if another write came in between |
| Cluster.CommitInv | internal/engine/engine.go:493-531 | a successful compare-and-set appended to exactly the stored history the request was computed from, keeps the chain whole and hands out only durable references |
| Cluster.RecoveryNames | internal/engine/recovery.go:61-92 | whatever recovery dispatches names a recorded scheduled event, because a durable state knows what it waits for from its history |
| Cluster.CreationNames | internal/engine/workflow.go:259-337 | however a run begins, signal-with-start included, what it dispatches is recorded |
| Cluster.ReconcileInv | internal/engine/recovery.go:119-154 | recovery's event-free compare-and-set, committed, lost, refused or failed, keeps the system safe and the chain whole |
| Cluster.StepKeepsInv | internal/engine/engine.go:410-579 | every step of every replica, creation, recovery and its write included, keeps the system safe and the chain whole and only adds to what is stored |
| Cluster.StoreOnlyGrows | internal/persistence/store.go:100-118 | under every interleaving a stored run never disappears, its history is only ever extended, and a changed history has a higher version |
| Cluster.CacheIsCurrent | internal/engine/engine.go:347-371 | under every interleaving a cached entry at the stored version holds exactly the stored events, even if its two reads straddled another write |
| Cluster.HandedIsDurable | internal/engine/engine.go:555-630 | under every interleaving every reference ever handed to matching names a durable scheduled event of its kind |
| Cluster.StoredIsLoadable | internal/engine/engine.go:410-488 | under every interleaving every stored history is well formed and can be loaded exactly while it is under the cap |
| Cluster.OneSuccessor | internal/engine/recovery.go:390-399 | two stored runs that continue the same run are the same run |
| Cluster.ContinuedRunsHaveSuccessors | internal/persistence/store.go:120-148 | under every interleaving a run that continued as new names a stored run that points back at it, never the placeholder |
| Cluster.ChainsDoNotFork | internal/engine/recovery.go:493-549 | under every interleaving a run that follows another keeps its first run ID, and no other stored run follows the same one |
| Exclusion.OneRunAtATime | internal/persistence/store.go:85-142 | under every interleaving at most one run of a workflow ID is open |
| Exclusion.RequestCreatesOnce | internal/persistence/store.go:73-76 | under every interleaving a request that created a run stands for that very run for ever, and asking again changes nothing in the store |
| Inheritance.FollowersCarryOn | internal/engine/recovery.go:493-549 | under every interleaving a run continued as new is followed by a stored run that starts with the type, queue, input, timeouts and policy its closing event records, and a retried run by one that starts as it did, one attempt later |
| Inheritance.FollowerBegins | internal/engine/workflow.go:272-297 | the follower is stored with event 1 alone while it serves a backoff, and with its first task otherwise |
| Delivery.CommitHandsOut | internal/engine/engine.go:555-635 | a replica that committed a request, or applied one without events, hands out exactly its effects and the first task of a successor that need not wait |
| Delivery.StartHandsOut | internal/engine/workflow.go:327-337 | the creator of a run hands out its first task, unless the run serves a backoff |
| Delivery.AnyReplicaRecovers | internal/engine/recovery.go:61-92 | from any reachable system any idle replica that reads a stored run and recovers it hands out the workflow task its history shows waiting and every activity its history shows waiting for a first worker, on the queues those events name |
| Dispatchers.Resume | internal/workflow/coroutine.go:96-139 | resuming runs to a point where the coroutine has finished or yields on a false condition, and uses up program steps whenever it marks progress |
| Dispatchers.ChangesAreMarked | internal/workflow/dispatcher.go:86-89 | if every loop is entered with progress marked since the last yield, a resumed coroutine that marks no progress has changed nothing |
| Dispatchers.UnmarkedCallLosesWakeUp | internal/workflow/dispatcher.go:86-89 | without that mark the dispatcher can stop with a coroutine ready |
| Dispatchers.QuietPassBlocks | internal/workflow/dispatcher.go:125-165 | a pass over guarded code without progress changed nothing, so every condition it tested is still false |
| Dispatchers.FixpointBlocksAll | internal/workflow/dispatcher.go:117-165 | passes end for finite programs and, if every blocking call marks progress when entered, leave every coroutine finished or waiting for a condition that is false, unless stopped |
| Blocking.StatementIsGuarded | internal/workflow/future.go:87-98 | a get, a receive, a send, a select and an await, compiled from their own steps, each mark progress before they can yield |
| Blocking.AsyncMarksItsChange | internal/workflow/future.go:100-119 | settling a future and the non-blocking send and receive mark progress exactly when they change something |
| Blocking.LoopWaitsExactly | internal/workflow/selector.go:83-105 | a blocking call goes on yielding exactly as long as what it waits for is not there: an unsettled future, an empty open channel, a token still parked, no ready branch and no default, a false condition |
| Blocking.SelectRunsFirstReady | internal/workflow/selector.go:83-105 | a selector runs the ready branch registered first, and its default only if none is ready |
| Blocking.FirstSettleWins | internal/workflow/future.go:100-119 | a future keeps the first value it is settled with |
| Blocking.EveryoneFinishedOrWaits | internal/workflow/dispatcher.go:125-165 | for any programs over futures, channels, selectors and conditions: when the dispatcher has stopped of itself, every coroutine has finished or is inside a blocking call that waits for something that is not there |
| Dispatchers.Dispatcher.RunPass | internal/workflow/dispatcher.go:129-154 | one pass over a list that grows under the loop |
| Dispatchers.Dispatcher.ExecuteUntilAllBlocked | internal/workflow/dispatcher.go:125-165 | the nested loops compute the fixpoint; without a deadline there is no deadlock verdict |
| Dispatchers.Dispatcher.RunUntilDone | internal/workflow/dispatcher.go:174-185 | success means every coroutine finished |
| Channels.SendIsEnqueue | internal/workflow/channel.go:167-196 | a send, buffered or parked, adds its value at the end of the abstract queue and keeps a parked sender implying a full buffer |
| Channels.ReceiveIsDequeue | internal/workflow/channel.go:114-147 | a receive takes the first value of the abstract queue, and nothing exactly when it is empty |
| Channels.SendAsyncIsEnqueue | internal/workflow/channel.go:167-177 | a non-blocking send takes its value exactly if there is room |
| Channels.ClosedRefuses | internal/workflow/channel.go:104-196 | sending and closing panic exactly on a closed channel, and closing keeps what is queued |
| Channels.ChannelIsFifo | internal/workflow/channel.go:114-210 | over any run of sends, receives, closes and, on an unbounded channel, deliveries, what was accepted is what was received followed by what is queued |
| Channels.DeliverIsEnqueueExactly | internal/workflow/channel.go:198-210 | delivery past the capacity enqueues its value exactly when the channel is open and no parked value differs from it; a closed channel ignores it |
| Channels.Channel.BeginSend | internal/workflow/channel.go:179-196 | a send that finds no room parks its value under a fresh token |
| Channels.Channel.DeliverValue | internal/workflow/channel.go:198-210 | appends whatever the capacity, unless the channel is closed |
| Channels.Channel.TryReceive | internal/workflow/channel.go:114-147 | a token is marked taken exactly when its value leaves the parked list |
| Matching.OfferKeeps | internal/matching/matching.go:422-448 | an offer accepts its task into exactly one place or refuses it, within the bound |
| Matching.TakeKeeps | internal/matching/matching.go:451-467 | the backlog gives out its oldest task |
| Matching.UnparkKeeps | internal/matching/matching.go:480-499 | a poller that gives up collects a task already in its slot and ends settled |
| Matching.DrainKeeps | internal/matching/matching.go:509-521 | draining accounts for every backlog task and settles every waiter |
| Matching.TasksAreConserved | internal/matching/matching.go:315-521 | over every interleaving each accepted task is in exactly one of backlog, one slot, delivered or drained; a waiter is listed exactly while unsettled with an empty slot; backlog tasks leave in order within the bound |
| Matching.OfferServesLongestWaiting | internal/matching/matching.go:422-448 | after every interleaving an offered task goes into the slot of the poller that has waited longest; without one it joins the backlog exactly if there is room |
| Matching.SlotIsHandedOver | internal/matching/matching.go:480-499 | a poller that wakes up or gives up takes exactly the task in its slot |
| Matching.SectionStaysApart | internal/matching/matching.go:326-333 | one critical section keeps backlog and parked pollers apart exactly when it does not park on a backlog |
| Matching.ApartExactlyUnlessParkedOnBacklog | internal/matching/matching.go:326-333 | over a whole interleaving, backlog and parked pollers never coexist exactly when no section parks on a backlog |
| Matching.BacklogAndPollerCanCoexist | internal/matching/matching.go:326-333 | such an interleaving exists: one that leaves both a backlog and a parked poller |
| Matching.TaskQueue.OfferOne | internal/matching/matching.go:422-448 | the loop skips settled waiters, serves the first live one, or queues |
| Matching.TaskQueue.UnparkOne | internal/matching/matching.go:480-499 | resolves the race with a producer under the lock |
| Matching.TaskQueue.DrainAll | internal/matching/matching.go:509-521 | empties backlog and waiter list |

## Left out

- Engine requests, the write path and replicas are modelled on values rather than as objects: replicas interleave, so update in place inside one replica's cache is not captured; what each step leaves in cache and store is.
- Cooperation.WarmAndColdAgree: assumes that nothing is written between a task's started event and its completion, that live answers are stable and that code uses SDK-assigned activity IDs; the theorems of Overtaken and the exact conditions in Determinism show what happens otherwise.
- Cooperation.EveryBatchIsTaken: same assumptions, and options that are well formed once the default bound is in place.
- Cluster.CacheIsCurrent: one workflow ID (as for the other theorems of this module), clocks that do not run behind the loaded history, and fresh identifiers that are neither empty nor the placeholder.
- The store's own termination of an open run under the terminate-if-running policy: the engine's termination request that precedes the create is modelled, a run that opens between the two makes the create a no-op.
- Dispatchers.FixpointBlocksAll: coroutines are finite programs whose control does not depend on values; panics, unwinding and Close are not modelled, and neither is a dispatcher-less future.
- Blocking.EveryoneFinishedOrWaits: a selector's branch functions and an await's conditions do not themselves block; callbacks of settled futures are left out.
- Attempts.AttemptsStayWithin: takes polls and timers of one run to carry attempts the run has had; Provenance derives that from what replicas dispatch and write. Refused dispatches and the loss of rows only shrink what can come back.
- Futures and selectors as objects: `Blocking` models them as values in the coroutines' shared memory, and the environment settles each future once; an object per future would add easy members only.
- The timer service's scan loop, its back-off and its delete by key after dispatch: delivery is modelled as a request that may come twice, early or late, not as a loop over the index.
- The deadlock deadline of workflow code is a step budget, equal for live run and replay.
- Randomness of workflow code, logging and the replaying flag as seen by user code.
- Attempt numbers, request IDs and heartbeat details across a cold rebuild: the history does not hold them, so single-holder claims are made for live state only.
- The execution deadline over a whole chain of runs: the code recomputes it from each run's own start.
- Retry and task timeouts across continue-as-new: the workflow side sends none, and the server takes what the command says, zero included.
- Frontend, client, telemetry, storage drivers, registries, payload encoding, LRU order, lock striping, history long polls, cron, memo and search attributes.
