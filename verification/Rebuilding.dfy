/** A cold rebuild from history refines the live state, after any run of engine requests. */
module Rebuilding {
  import opened Prelude
  import opened History
  import opened Execution
  import opened Durability
  import opened Engine

  /** `t` is a later state of the same run: still durable, its history extends that of `s`, its clock is at most `now`. */
  predicate Kept(s: State, t: State, now: Time) {
    && Durable(t)
    && s.runId == t.runId
    && s.events <= t.events
    && LastTime(s) <= LastTime(t) <= now
  }

  predicate Ready(s: State, now: Time) { Durable(s) && LastTime(s) <= now }

  lemma AppendKept(s: State, a: Attrs, now: Time)
    requires Ready(s, now) && Append(s, a, now).Ok?
    requires RefsOk(s.events, |s.events|, a) && !a.ExecutionStarted?
    ensures Kept(s, Append(s, a, now).value, now)
  {
    hide Durable, Append, RefsOk;
    AppendDurable(s, a, now);
  }

  lemma SchedulingSucceeds(s: State, queue: string, timeout: Duration, now: Time)
    requires Open(s) && s.task.scheduledId == 0 && Dense(s.events)
    ensures Append(s, TaskScheduled(queue, timeout, 1), now).Ok?
    ensures Append(s, TaskScheduled(queue, timeout, 1), now).value.task.scheduledId == |s.events| + 1
  {
  }

  lemma KeptSelf(s: State, now: Time)
    requires Ready(s, now)
    ensures Kept(s, s, now) && Dense(s.events)
  {
    hide Linked, Replays, WellFormed;
    assert Dense(s.events) by { LinkedDense(s); }
  }

  lemma LinkedDense(s: State)
    requires Linked(s)
    ensures Dense(s.events)
  {
  }

  lemma ScheduleKept(s: State, now: Time)
    requires Ready(s, now)
    ensures ScheduleTask(s, now).Ok?
    ensures Kept(s, ScheduleTask(s, now).value.state, now)
    ensures Open(ScheduleTask(s, now).value.state) ==> ScheduleTask(s, now).value.state.task.scheduledId != 0
  {
    hide Durable, Append, Kept, Dense;
    KeptSelf(s, now);
    if Open(s) && s.task.scheduledId == 0 {
      var timeout := if s.info.taskTimeout <= 0 then DEFAULT_TASK_TIMEOUT else s.info.taskTimeout;
      SchedulingSucceeds(s, s.info.taskQueue, timeout, now);
      AppendKept(s, TaskScheduled(s.info.taskQueue, timeout, 1), now);
    }
  }

  lemma AppendAndWakeKept(s: State, a: Attrs, now: Time)
    requires Ready(s, now) && AppendAndWake(s, a, now).Ok?
    requires RefsOk(s.events, |s.events|, a) && !a.ExecutionStarted?
    ensures Kept(s, AppendAndWake(s, a, now).value.state, now)
  {
    hide Durable, Append, RefsOk, ScheduleTask;
    AppendKept(s, a, now);
    ScheduleKept(Append(s, a, now).value, now);
  }

  // ----- patches that write no event -----

  /** Changing only the per-attempt fields of one activity keeps the invariant. */
  lemma PatchDurable(s: State, k: int, x: Attempt)
    requires Durable(s) && k in s.activities.byId
    ensures Durable(PutActivity(s, k, s.activities.byId[k].(attempts := x)))
  {
    hide WellFormed, Record;
    var a := s.activities.byId[k].(attempts := x);
    PutAgree(s.activities, s.activities, k, a, s.activities.byId[k], s.activities.ids);
  }

  lemma PatchKept(s: State, k: int, x: Attempt, now: Time)
    requires Ready(s, now) && k in s.activities.byId
    ensures Kept(s, PutActivity(s, k, s.activities.byId[k].(attempts := x)), now)
  {
    hide Durable;
    PatchDurable(s, k, x);
  }

  // ----- what the links say about the events a transition names -----

  lemma TaskRefs(s: State)
    requires Durable(s)
    ensures s.task.scheduledId != 0 ==> Refers(s.events, |s.events|, s.task.scheduledId, TaskScheduledType)
    ensures Started(s.task) ==> Refers(s.events, |s.events|, s.task.startedId, TaskStartedType)
  {
    hide Replays, WellFormed, ActivitiesLinked, TimersLinked, ClosureLinked;
  }

  lemma ActivityRefs(s: State, k: int)
    requires Durable(s) && k in s.activities.byId
    ensures Refers(s.events, |s.events|, k, ActivityScheduledType) && s.activities.byId[k].scheduledId == k
    ensures s.activities.byId[k].startedId != 0
            ==> Refers(s.events, |s.events|, s.activities.byId[k].startedId, ActivityStartedType)
  {
    hide Replays, WellFormed, TaskLinked, TimersLinked, ClosureLinked;
    assert ActivityLinked(k, s.activities.byId[k], s.events);
  }

  lemma TimerRefs(s: State, k: int)
    requires Durable(s) && k in s.timers.byId
    ensures Refers(s.events, |s.events|, k, TimerStartedType)
  {
    hide Replays, WellFormed, TaskLinked, ActivitiesLinked, ClosureLinked;
  }

  lemma NamesSet(s: State)
    requires Durable(s)
    ensures s.info.workflowType != "" && s.info.taskQueue != ""
  {
    hide Replays, WellFormed, TaskLinked, ActivitiesLinked, ClosureLinked, TimersLinked;
  }

  // ----- workflow tasks, signals, timers -----

  lemma TaskTransitionsKept(s: State, text: string, requestId: string, now: Time)
    requires Ready(s, now)
    ensures StartTask(s, text, requestId, now).Ok? ==> Kept(s, StartTask(s, text, requestId, now).value, now)
    ensures FailTask(s, text, now).Ok? ==> Kept(s, FailTask(s, text, now).value.state, now)
    ensures TimeoutTask(s, now).Ok? ==> Kept(s, TimeoutTask(s, now).value.state, now)
  {
    hide Durable, Kept, Append, AppendAndWake, Refers;
    KeptSelf(s, now);
    TaskRefs(s);
    if StartTask(s, text, requestId, now).Ok? {
      AppendKept(s, TaskStarted(s.task.scheduledId, text, requestId), now);
    }
    if FailTask(s, text, now).Ok? {
      AppendAndWakeKept(s, TaskFailed(s.task.scheduledId, s.task.startedId, text), now);
    }
    if Started(s.task) && TimeoutTask(s, now).Ok? {
      AppendAndWakeKept(s, TaskTimedOut(s.task.scheduledId, s.task.startedId), now);
    }
  }

  lemma RunTransitionsKept(s: State, text: string, kind: TimeoutKind, now: Time)
    requires Ready(s, now)
    ensures RequestCancel(s, text, now).Ok? ==> Kept(s, RequestCancel(s, text, now).value.state, now)
    ensures Terminate(s, text, now).Ok? ==> Kept(s, Terminate(s, text, now).value, now)
    ensures TimeoutExecution(s, kind, now).Ok? ==> Kept(s, TimeoutExecution(s, kind, now).value, now)
  {
    hide Durable, Kept, Append, AppendAndWake;
    KeptSelf(s, now);
    if !s.cancelRequested && RequestCancel(s, text, now).Ok? {
      AppendAndWakeKept(s, CancelRequested(text), now);
    }
    if Terminate(s, text, now).Ok? {
      AppendKept(s, ExecutionTerminated(text), now);
    }
    if TimeoutExecution(s, kind, now).Ok? {
      AppendKept(s, ExecutionTimedOut(kind), now);
    }
  }

  lemma SignalKept(s: State, name: string, input: Payload, now: Time)
    requires Ready(s, now) && name != ""
    ensures Signal(s, name, input, now).Ok? ==> Kept(s, Signal(s, name, input, now).value.state, now)
  {
    hide Durable, Kept, Append, AppendAndWake;
    if Signal(s, name, input, now).Ok? {
      AppendAndWakeKept(s, Signaled(name, input), now);
    }
  }

  lemma FireTimerKept(s: State, k: int, now: Time)
    requires Ready(s, now)
    ensures FireTimer(s, k, now).Ok? ==> Kept(s, FireTimer(s, k, now).value.state, now)
  {
    hide Durable, Kept, Append, AppendAndWake, Refers;
    KeptSelf(s, now);
    if k in s.timers.byId && FireTimer(s, k, now).Ok? {
      TimerRefs(s, k);
      AppendAndWakeKept(s, TimerFired(s.timers.byId[k].timerId, k), now);
    }
  }

  // ----- activities -----

  lemma ActivityTransitionsKept(s: State, k: int, text: string, requestId: string, p: Payload, jitter: real, now: Time)
    requires Ready(s, now)
    ensures StartActivity(s, k, text, requestId, jitter, now).Ok? ==> Kept(s, StartActivity(s, k, text, requestId, jitter, now).value, now)
    ensures CompleteActivity(s, k, p, now).Ok? ==> Kept(s, CompleteActivity(s, k, p, now).value.state, now)
    ensures CancelActivity(s, k, p, now).Ok? ==> Kept(s, CancelActivity(s, k, p, now).value.state, now)
    ensures RecordHeartbeat(s, k, p, now).Ok? ==> Kept(s, RecordHeartbeat(s, k, p, now).value, now)
  {
    hide Durable, Kept, Append, AppendAndWake, Refers, Get, PutActivity;
    KeptSelf(s, now);
    if k in s.activities.byId {
      var a := s.activities.byId[k];
      ActivityRefs(s, k);
      if a.startedId == 0 && StartActivity(s, k, text, requestId, jitter, now).Ok? {
        AppendKept(s, ActivityStarted(k, text, requestId, a.attempts.number, jitter), now);
      }
      if CompleteActivity(s, k, p, now).Ok? {
        AppendAndWakeKept(s, ActivityCompleted(k, a.startedId, p), now);
      }
      if CancelActivity(s, k, p, now).Ok? {
        AppendAndWakeKept(s, ActivityCanceled(k, a.startedId, p), now);
      }
      PatchKept(s, k, a.attempts.(heartbeat := p,
        heartbeatDeadline := if a.options.heartbeat > 0 then now + a.options.heartbeat
                             else a.attempts.heartbeatDeadline), now);
    }
  }

  /** A retry followed by re-attaching the started event is a per-attempt patch. */
  lemma RetryIsPatch(s: State, k: int, failure: Failure, delay: Duration, now: Time)
    requires k in s.activities.byId && s.activities.byId[k].scheduledId == k
    ensures
      var a := s.activities.byId[k];
      RestoreStarted(RetryActivity(s, a, failure, delay, now).state, k, a.startedId)
      == PutActivity(s, k, a.(attempts := RetryActivity(s, a, failure, delay, now).state.activities.byId[k].attempts))
  {
    var a := s.activities.byId[k];
    var m := s.activities.byId;
    var b := RetryActivity(s, a, failure, delay, now).state.activities.byId[k];
    assert m[k := b][k := b.(startedId := a.startedId)] == m[k := b.(startedId := a.startedId)];
  }

  lemma RestoreClosed(s: State, k: int, startedId: int)
    requires k !in s.activities.byId
    ensures RestoreStarted(s, k, startedId) == s
  {
  }

  lemma SchedulingLeavesActivities(s: State, now: Time)
    requires ScheduleTask(s, now).Ok?
    ensures ScheduleTask(s, now).value.state.activities == s.activities
  {
  }

  /** The resolved activity is gone, so there is nothing to re-attach. */
  lemma CloserRemoves(s: State, a: Attrs, now: Time)
    requires ActivityCloser(a) && AppendAndWake(s, a, now).Ok?
    ensures a.scheduledId !in AppendAndWake(s, a, now).value.state.activities.byId
  {
    hide Record, ScheduleTask;
    CloserRemovesNow(s, Event(NextEventId(s.events), now, a));
    SchedulingLeavesActivities(Append(s, a, now).value, now);
  }

  lemma CloserRemovesNow(s: State, e: Event)
    requires ActivityCloser(e.attrs) && Record(s, e).Ok?
    ensures e.attrs.scheduledId !in Record(s, e).value.activities.byId
  {
  }

  /** A failed attempt either leaves a per-attempt patch or resolves the activity. */
  lemma FailActivityKept(s: State, k: int, failure: Failure, now: Time)
    requires Ready(s, now) && k in s.activities.byId
    ensures
      var r := Restoring(FailActivity(s, k, failure, now), k, s.activities.byId[k].startedId);
      r.Ok? ==> Kept(s, r.value.state, now)
  {
    hide Durable, Kept, AppendAndWake, Refers, RetryDelay, RetryActivity, RestoreStarted, PutActivity;
    var a := s.activities.byId[k];
    ActivityRefs(s, k);
    if a.startedId != 0 {
      match RetryDelay(s, a, failure, now)
      case Some(delay) =>
        RetryIsPatch(s, k, failure, delay, now);
        RetryPatchKept(s, k, failure, delay, now);
      case None =>
        var exhausted := a.options.retry.Some? && a.options.retry.value.maxAttempts > 0
                         && a.attempts.number >= a.options.retry.value.maxAttempts;
        var e := ActivityFailed(k, a.startedId, Some(failure),
                   if exhausted then MaximumAttemptsReached else NonRetryableFailure);
        assert FailActivity(s, k, failure, now) == AppendAndWake(s, e, now);
        CloserKept(s, e, k, a.startedId, now);
    }
  }

  lemma RetryPatchKept(s: State, k: int, failure: Failure, delay: Duration, now: Time)
    requires Ready(s, now) && k in s.activities.byId && s.activities.byId[k].scheduledId == k
    ensures
      var a := s.activities.byId[k];
      Kept(s, RestoreStarted(RetryActivity(s, a, failure, delay, now).state, k, a.startedId), now)
  {
    hide Durable, Kept, RestoreStarted;
    RetryIsPatch(s, k, failure, delay, now);
    PatchKept(s, k, RetryActivity(s, s.activities.byId[k], failure, delay, now).state.activities.byId[k].attempts, now);
  }

  lemma CloserKept(s: State, e: Attrs, k: int, startedId: int, now: Time)
    requires Ready(s, now) && ActivityCloser(e) && e.scheduledId == k && RefsOk(s.events, |s.events|, e)
    ensures
      var r := Restoring(AppendAndWake(s, e, now), k, startedId);
      r.Ok? ==> Kept(s, r.value.state, now)
  {
    hide Durable, Kept, AppendAndWake, RefsOk, RestoreStarted;
    if AppendAndWake(s, e, now).Ok? {
      AppendAndWakeKept(s, e, now);
      CloserRemoves(s, e, now);
      RestoreClosed(AppendAndWake(s, e, now).value.state, k, startedId);
    }
  }

  lemma TimeoutActivityKept(s: State, k: int, kind: TimeoutKind, now: Time)
    requires Ready(s, now) && k in s.activities.byId
    ensures
      var r := Restoring(TimeoutActivity(s, k, kind, now), k, s.activities.byId[k].startedId);
      r.Ok? ==> Kept(s, r.value.state, now)
  {
    hide Durable, Kept, AppendAndWake, Refers, RetryDelay, RetryActivity, RestoreStarted, TimeoutFailure;
    var a := s.activities.byId[k];
    ActivityRefs(s, k);
    match RetryDelay(s, a, TimeoutFailure(kind), now)
    case Some(delay) =>
      RetryPatchKept(s, k, TimeoutFailure(kind), delay, now);
    case None =>
      CloserKept(s, ActivityTimedOut(k, a.startedId, kind, a.attempts.heartbeat), k, a.startedId, now);
  }

  // ----- workflow task completion -----

  /** The parts of a valid command its event depends on; normalising the retry policy keeps them. */
  predicate Shaped(c: Command) {
    match c
    case ScheduleActivity(aid, _) => aid != ""
    case StartTimer(tid, d) => tid != "" && d >= 0
    case FailWorkflow(f) => f.Some?
    case RecordMarker(k, _, _) => k.name != ""
    case _ => true
  }

  predicate AllShaped(cmds: seq<Command>) {
    forall c :: c in cmds ==> Shaped(c)
  }

  lemma NormalizedShaped(cmds: seq<Command>)
    requires ValidBatch(cmds)
    ensures FailuresNamed(NormalizeBatch(cmds)) && AllShaped(NormalizeBatch(cmds))
  {
    hide ValidTypeName, UsableOnceNormalized;
    forall i | 0 <= i < |cmds| ensures Shaped(NormalizeBatch(cmds)[i]) {
      assert ValidCommand(cmds[i]);
    }
  }

  lemma CommandRefs(s: State, c: Command, decision: int, draw: Draw, now: Time)
    requires Durable(s) && Shaped(c) && Refers(s.events, |s.events|, decision, TaskCompletedType)
    requires c.CancelTimer? ==> c.startedId in s.timers.byId
    requires c.RequestCancelActivity? ==> c.scheduledId in s.activities.byId
    ensures RefsOk(s.events, |s.events|, EventFor(s, c, decision, draw, now))
    ensures !EventFor(s, c, decision, draw, now).ExecutionStarted?
  {
    hide Durable, Refers, FailureVerdict, SuccessorOf;
    if c.CancelTimer? {
      TimerRefs(s, c.startedId);
    }
    if c.RequestCancelActivity? {
      ActivityRefs(s, c.scheduledId);
    }
  }

  lemma CancelNamesPending(s: State, sched: int, decision: int, now: Time)
    requires Append(s, ActivityCancelRequested(sched, decision), now).Ok?
    ensures sched in s.activities.byId
  {
  }

  lemma DecisionStays(h: seq<Event>, h': seq<Event>, decision: int)
    requires Refers(h, |h|, decision, TaskCompletedType) && h <= h'
    ensures Refers(h', |h'|, decision, TaskCompletedType)
  {
  }

  lemma CommandKept(s: State, c: Command, decision: int, draw: Draw, now: Time)
    requires Ready(s, now) && Shaped(c) && Refers(s.events, |s.events|, decision, TaskCompletedType)
    requires ApplyCommand(s, c, decision, draw, now).Applied?
    ensures Kept(s, ApplyCommand(s, c, decision, draw, now).step.state, now)
  {
    hide Durable, Refers, Kept, Append, RefsOk, EffectsFor, EventFor;
    if c.RequestCancelActivity? {
      assert EventFor(s, c, decision, draw, now) == ActivityCancelRequested(c.scheduledId, decision) by {
        CancelEvent(s, c.scheduledId, decision, draw, now);
      }
      CancelNamesPending(s, c.scheduledId, decision, now);
    }
    CommandRefs(s, c, decision, draw, now);
    AppendKept(s, EventFor(s, c, decision, draw, now), now);
  }

  lemma CancelEvent(s: State, sched: int, decision: int, draw: Draw, now: Time)
    ensures EventFor(s, RequestCancelActivity(sched), decision, draw, now) == ActivityCancelRequested(sched, decision)
  {
  }

  lemma KeptTransitive(s: State, t: State, u: State, now: Time)
    requires Kept(s, t, now) && Kept(t, u, now)
    ensures Kept(s, u, now) && Ready(t, now)
  {
    hide Durable;
  }

  /** Every applied batch keeps the invariant, whatever the commands are. */
  lemma {:induction false} CommandsKept(s: State, cmds: seq<Command>, decision: int, draw: Draw, now: Time)
    requires Ready(s, now) && Refers(s.events, |s.events|, decision, TaskCompletedType)
    requires FailuresNamed(cmds) && AllShaped(cmds)
    requires ApplyCommands(s, cmds, decision, draw, now).Applied?
    ensures Kept(s, ApplyCommands(s, cmds, decision, draw, now).step.state, now)
    decreases |cmds|
  {
    hide Durable, Refers, ApplyCommand, Kept, EventFor, EffectsFor, Append;
    KeptSelf(s, now);
    if cmds != [] {
      assert Shaped(cmds[0]);
      var step := ApplyCommand(s, cmds[0], decision, draw, now).step;
      CommandKept(s, cmds[0], decision, draw, now);
      KeptParts(s, step.state, now);
      DecisionStays(s.events, step.state.events, decision);
      CommandsKept(step.state, cmds[1..], decision, draw, now);
      KeptTransitive(s, step.state, ApplyCommands(step.state, cmds[1..], decision, draw, now).step.state, now);
    }
  }

  lemma KeptParts(s: State, t: State, now: Time)
    requires Kept(s, t, now)
    ensures Ready(t, now) && s.events <= t.events && t.runId == s.runId && t.events != []
  {
  }

  lemma CompleteTaskKept(s: State, identity: string, cmds: seq<Command>, draw: Draw, now: Time)
    requires Ready(s, now) && CompleteTask(s, identity, cmds, draw, now).Applied?
    ensures Kept(s, CompleteTask(s, identity, cmds, draw, now).step.state, now)
    ensures |CompleteTask(s, identity, cmds, draw, now).step.state.events| > |s.events|
  {
    hide Durable, Refers, ApplyCommands, Kept, Append, ValidBatch, Precheck, NormalizeBatch;
    var a := TaskCompleted(s.task.scheduledId, s.task.startedId, identity);
    TaskRefs(s);
    AppendKept(s, a, now);
    var s1 := Append(s, a, now).value;
    KeptParts(s, s1, now);
    CompletionRefers(s, a, now);
    NormalizedShaped(cmds);
    CommandsKept(s1, NormalizeBatch(cmds), NextEventId(s.events), draw, now);
    var s2 := ApplyCommands(s1, NormalizeBatch(cmds), NextEventId(s.events), draw, now).step.state;
    KeptParts(s1, s2, now);
    KeptTransitive(s, s1, s2, now);
  }

  lemma CompletionRefers(s: State, a: Attrs, now: Time)
    requires Ready(s, now) && a.TaskCompleted? && Append(s, a, now).Ok? && RefsOk(s.events, |s.events|, a)
    ensures
      var h := Append(s, a, now).value.events;
      |h| == |s.events| + 1 && Refers(h, |h|, NextEventId(s.events), TaskCompletedType)
  {
    hide Append, RefsOk, Linked, Replays, WellFormed;
    AppendDurable(s, a, now);
    LinkedDense(s);
  }

  lemma RespondKept(s: State, cmds: seq<Command>, identity: string, draw: Draw, now: Time)
    requires Ready(s, now) && RespondWithCommands(s, cmds, identity, draw, now).Applied?
    ensures Kept(s, RespondWithCommands(s, cmds, identity, draw, now).step.state, now)
    ensures |RespondWithCommands(s, cmds, identity, draw, now).step.state.events| > |s.events|
  {
    hide Durable, CompleteTask, Kept, ScheduleTask;
    CompleteTaskKept(s, identity, cmds, draw, now);
    var t := CompleteTask(s, identity, cmds, draw, now).step.state;
    KeptParts(s, t, now);
    ScheduleKept(t, now);
    var u := ScheduleTask(t, now).value.state;
    KeptTransitive(s, t, u, now);
    KeptParts(t, u, now);
  }

  // ----- naming the successor in the uncommitted closing event -----

  /** The fold does not look at the run ID a continue-as-new event names. */
  lemma RenamedFold(s: State, e: Event, run: string)
    requires e.attrs.ExecutionContinuedAsNew? && Record(s, e).Ok?
    ensures
      var e' := e.(attrs := e.attrs.(newRunId := run));
      Record(s, e').Ok? && Record(s, e').value == Record(s, e).value.(events := s.events + [e'])
  {
  }

  lemma RenamedWellFormed(h: seq<Event>, run: string)
    requires WellFormed(h) && h != [] && h[|h| - 1].attrs.ExecutionContinuedAsNew? && run != ""
    ensures
      var e := h[|h| - 1];
      WellFormed(h[|h| - 1 := e.(attrs := e.attrs.(newRunId := run))])
  {
    hide RefsOk;
    var e := h[|h| - 1];
    var h' := h[|h| - 1 := e.(attrs := e.attrs.(newRunId := run))];
    forall i | 0 <= i < |h| ensures WellPlaced(h', i) && RefsOk(h', i, h'[i].attrs) {
      assert WellPlaced(h, i) && RefsOk(h, i, h[i].attrs);
      RenamedRefs(h, i, run);
    }
  }

  lemma RenamedRefs(h: seq<Event>, i: nat, run: string)
    requires h != [] && i < |h| && h[|h| - 1].attrs.ExecutionContinuedAsNew? && run != ""
    requires RefsOk(h, i, h[i].attrs)
    ensures
      var e := h[|h| - 1];
      var h' := h[|h| - 1 := e.(attrs := e.attrs.(newRunId := run))];
      RefsOk(h', i, h'[i].attrs)
  {
    var e := h[|h| - 1];
    var h' := h[|h| - 1 := e.(attrs := e.attrs.(newRunId := run))];
    assert forall id, t :: Refers(h', i, id, t) == Refers(h, i, id, t);
  }

  lemma RenamedReplay(t: State, run: string)
    requires Replays(t) && t.events != [] && t.events[|t.events| - 1].attrs.ExecutionContinuedAsNew?
    ensures
      var e := t.events[|t.events| - 1];
      Replays(t.(events := t.events[|t.events| - 1 := e.(attrs := e.attrs.(newRunId := run))]))
  {
    hide Record, AgreeActivities;
    var n := |t.events| - 1;
    var e := t.events[n];
    var e' := e.(attrs := e.attrs.(newRunId := run));
    var h' := t.events[n := e'];
    assert h'[..n] == t.events[..n];
    assert t.events == t.events[..n] + [e];
    assert h' == t.events[..n] + [e'];
    var before := Replay(t.runId, t.events[..n]).value;
    RenamedFold(before, e, run);
    RecordShape(before, e);
  }

  lemma RenamedLinked(t: State, run: string)
    requires Linked(t) && t.events != [] && t.events[|t.events| - 1].attrs.ExecutionContinuedAsNew?
    ensures
      var e := t.events[|t.events| - 1];
      Linked(t.(events := t.events[|t.events| - 1 := e.(attrs := e.attrs.(newRunId := run))]))
  {
  }

  /** Naming the successor of a run that has just closed keeps the invariant. */
  lemma PatchRunIdKept(s: State, t: State, run: string, now: Time)
    requires Kept(s, t, now) && |t.events| > |s.events| && run != "" && PatchRunId(t, run).Ok?
    ensures Kept(s, PatchRunId(t, run).value, now)
  {
    hide Linked, Replays, WellFormed;
    RenamedReplay(t, run);
    RenamedLinked(t, run);
    RenamedWellFormed(t.events, run);
  }

  lemma FinalizeKept(s: State, step: Step, draw: Draw, now: Time)
    requires Kept(s, step.state, now) && |step.state.events| > |s.events| && draw.freshId != ""
    requires Finalize(step, draw).Write?
    ensures Kept(s, Finalize(step, draw).out.state, now)
  {
    hide Kept, RetryRows, PatchRunId;
    if PatchRunId(step.state, draw.freshId).Ok? {
      PatchRunIdKept(s, step.state, draw.freshId, now);
    }
  }

  // ------------------------------------------------------------------
  // Every request
  // ------------------------------------------------------------------

  lemma PatchedActivityKept(s: State, k: int, a: Activity, now: Time)
    requires Ready(s, now) && k in s.activities.byId && Core(a) == Core(s.activities.byId[k])
    ensures Kept(s, PutActivity(s, k, a), now)
  {
    hide Durable, Kept;
    assert a == s.activities.byId[k].(attempts := a.attempts);
    PatchKept(s, k, a.attempts, now);
  }

  lemma StartActivityTaskKept(s: State, k: int, attempt: int, identity: string, requestId: string, draw: Draw, now: Time)
    requires Ready(s, now)
    ensures
      var v := StartActivityTask(s, k, attempt, identity, requestId, draw, now);
      v.Write? ==> Kept(s, v.out.state, now)
  {
    hide Durable, Kept, StartActivity, RetryRows, PutActivity;
    ActivityTransitionsKept(s, k, identity, requestId, NoPayload, draw.jitter, now);
    if k in s.activities.byId {
      PatchedActivityKept(s, k, BeginRetryAttempt(s.activities.byId[k], attempt, requestId, now), now);
    }
  }

  lemma RedispatchKept(s: State, key: TimerKey, row: TimerRow, now: Time)
    requires Ready(s, now)
    ensures
      var v := RedispatchActivity(s, key, row, now);
      v.Write? ==> Kept(s, v.out.state, now)
  {
    hide Durable, Kept, RetryRows, PutActivity;
    if key.eventId in s.activities.byId {
      var a := s.activities.byId[key.eventId];
      PatchedActivityKept(s, key.eventId, a.(attempts := a.attempts.(
        number := row.attempt, requestId := "", heartbeatDeadline := 0, deadline := now + REDISPATCH)), now);
    }
  }

  lemma TimeoutActivityTaskKept(s: State, key: TimerKey, row: TimerRow, now: Time)
    requires Ready(s, now)
    ensures
      var v := TimeoutActivityTask(s, key, row, now);
      v.Write? ==> Kept(s, v.out.state, now)
  {
    hide Durable, Kept, RetryRows, TimeoutActivity, ExpiredTimeout, Restoring;
    var k := key.eventId;
    if Open(s) && k in s.activities.byId && row.attempt >= s.activities.byId[k].attempts.number {
      var a := s.activities.byId[k];
      var a' := if row.attempt > a.attempts.number then a.(attempts := a.attempts.(number := row.attempt)) else a;
      PatchedActivityKept(s, k, a', now);
      var s' := PutActivity(s, k, a');
      KeptParts(s, s', now);
      var kind := ExpiredTimeout(a', now);
      TimeoutActivityKept(s', k, kind, now);
      var r := Restoring(TimeoutActivity(s', k, kind, now), k, a.startedId);
      if r.Ok? {
        KeptTransitive(s, s', r.value.state, now);
      }
    }
  }

  lemma OnTimerKept(s: State, key: TimerKey, row: TimerRow, now: Time)
    requires Ready(s, now)
    ensures
      var v := OnTimer(s, key, row, now);
      v.Write? ==> Kept(s, v.out.state, now)
  {
    hide Durable, Kept, RetryRows, TimeoutActivityTask, RedispatchActivity, FireTimer, ScheduleTask, TimeoutTask, TimeoutExecution;
    KeptSelf(s, now);
    FireTimerKept(s, key.eventId, now);
    RedispatchKept(s, key, row, now);
    TimeoutActivityTaskKept(s, key, row, now);
    TaskTransitionsKept(s, "", "", now);
    RunTransitionsKept(s, "", ScheduleToClose, now);
    RunTransitionsKept(s, "", StartToClose, now);
    ScheduleKept(s, now);
  }

  /** Whatever a request writes is a durable state that extends the history it started from. */
  lemma HandleKept(s: State, req: Request, draw: Draw, now: Time)
    requires Ready(s, now) && draw.freshId != ""
    ensures
      var v := Handle(s, req, draw, now);
      v.Write? ==> Kept(s, v.out.state, now)
  {
    hide Durable, Kept, RetryRows, OnTimer, StartActivityTask, Restoring, FailActivity, ScheduleTask, Signal, RequestCancel,
         Terminate, StartTask, FailTask, CompleteActivity, CancelActivity, RecordHeartbeat, RespondWithCommands, Finalize, OwnsTask;
    match req
    case SignalRun(name, input) =>
      if name != "" { SignalKept(s, name, input, now); }
    case CancelRun(reason) => RunTransitionsKept(s, reason, Unspecified, now);
    case TerminateRun(reason) => RunTransitionsKept(s, reason, Unspecified, now);
    case PollTask(_, identity, requestId) => TaskTransitionsKept(s, identity, OrElse(requestId, draw.freshId), now);
    case RespondTask(identity, cmds) =>
      var r := RespondWithCommands(s, cmds, identity, draw, now);
      if r.Applied? && Finalize(r.step, draw).Write? {
        RespondKept(s, cmds, identity, draw, now);
        FinalizeKept(s, r.step, draw, now);
      }
    case RespondTaskFailed(_, cause) => TaskTransitionsKept(s, cause, "", now);
    case PollActivity(k, attempt, identity, requestId) =>
      StartActivityTaskKept(s, k, attempt, identity, OrElse(requestId, draw.freshId), draw, now);
    case RespondActivityCompleted(k, result) => ActivityTransitionsKept(s, k, "", "", result, 0.0, now);
    case RespondActivityFailed(k, failure) =>
      if failure.Some? && k in s.activities.byId { FailActivityKept(s, k, failure.value, now); }
    case RespondActivityCanceled(k, details) => ActivityTransitionsKept(s, k, "", "", details, 0.0, now);
    case HeartbeatActivity(k, details) => ActivityTransitionsKept(s, k, "", "", details, 0.0, now);
    case TimerDue(key, row) => OnTimerKept(s, key, row, now);
  }
}
