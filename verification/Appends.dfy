/** Which requests write which events. */
module Appends {
  import opened Prelude
  import opened History
  import opened Execution
  import opened Durability
  import opened Engine
  import opened Runs
  import opened Agreement

  // ------------------------------------------------------------------
  // Requests other than a task response write only events of the server's own
  // ------------------------------------------------------------------

  /** Work the engine waits for always has a bound. */
  predicate TimeoutsSet(a: Attrs) {
    && (a.TaskScheduled? ==> a.timeout > 0)
    && (a.ActivityScheduled? ==> a.options.scheduleToClose > 0 || a.options.startToClose > 0)
    && (a.ActivityScheduled? ==> a.options.scheduleToClose >= 0 && a.options.startToClose >= 0 && a.options.heartbeat >= 0)
  }

  /** The history grew by events of the server's own, each with its bound. */
  predicate Adds(s: State, t: State) {
    && s.events <= t.events
    && forall i :: |s.events| <= i < |t.events| ==> External(t.events[i].attrs) && TimeoutsSet(t.events[i].attrs)
  }

  lemma AddsSelf(s: State, t: State)
    requires t.events == s.events
    ensures Adds(s, t)
  {
  }

  lemma AddsChain(s: State, t: State, u: State)
    requires Adds(s, t) && Adds(t, u)
    ensures Adds(s, u)
  {
  }

  lemma AppendAdds(s: State, a: Attrs, now: Time)
    requires Append(s, a, now).Ok? && External(a) && TimeoutsSet(a)
    ensures Adds(s, Append(s, a, now).value)
  {
    hide Apply, External, TimeoutsSet;
  }

  lemma ScheduleAdds(s: State, now: Time)
    requires ScheduleTask(s, now).Ok?
    ensures Adds(s, ScheduleTask(s, now).value.state)
  {
    hide Append, Adds;
    AddsSelf(s, s);
    if Open(s) && s.task.scheduledId == 0 {
      var timeout := if s.info.taskTimeout <= 0 then DEFAULT_TASK_TIMEOUT else s.info.taskTimeout;
      AppendAdds(s, TaskScheduled(s.info.taskQueue, timeout, 1), now);
    }
  }

  lemma WakeAdds(s: State, a: Attrs, now: Time)
    requires AppendAndWake(s, a, now).Ok? && External(a) && TimeoutsSet(a)
    ensures Adds(s, AppendAndWake(s, a, now).value.state)
  {
    hide Append, Adds, ScheduleTask, External;
    AppendAdds(s, a, now);
    ScheduleAdds(Append(s, a, now).value, now);
    AddsChain(s, Append(s, a, now).value, AppendAndWake(s, a, now).value.state);
  }

  lemma TaskRequestsAdd(s: State, text: string, requestId: string, now: Time)
    ensures StartTask(s, text, requestId, now).Ok? ==> Adds(s, StartTask(s, text, requestId, now).value)
    ensures FailTask(s, text, now).Ok? ==> Adds(s, FailTask(s, text, now).value.state)
    ensures TimeoutTask(s, now).Ok? ==> Adds(s, TimeoutTask(s, now).value.state)
  {
    hide Append, AppendAndWake, Adds;
    AddsSelf(s, s);
    if StartTask(s, text, requestId, now).Ok? {
      AppendAdds(s, TaskStarted(s.task.scheduledId, text, requestId), now);
    }
    if FailTask(s, text, now).Ok? {
      WakeAdds(s, TaskFailed(s.task.scheduledId, s.task.startedId, text), now);
    }
    if Started(s.task) && TimeoutTask(s, now).Ok? {
      WakeAdds(s, TaskTimedOut(s.task.scheduledId, s.task.startedId), now);
    }
  }

  lemma RunRequestsAdd(s: State, text: string, kind: TimeoutKind, now: Time)
    ensures RequestCancel(s, text, now).Ok? ==> Adds(s, RequestCancel(s, text, now).value.state)
    ensures Terminate(s, text, now).Ok? ==> Adds(s, Terminate(s, text, now).value)
    ensures TimeoutExecution(s, kind, now).Ok? ==> Adds(s, TimeoutExecution(s, kind, now).value)
  {
    hide Append, AppendAndWake, Adds;
    AddsSelf(s, s);
    if !s.cancelRequested && RequestCancel(s, text, now).Ok? {
      WakeAdds(s, CancelRequested(text), now);
    }
    if Terminate(s, text, now).Ok? {
      AppendAdds(s, ExecutionTerminated(text), now);
    }
    if TimeoutExecution(s, kind, now).Ok? {
      AppendAdds(s, ExecutionTimedOut(kind), now);
    }
  }

  lemma ArrivalsAdd(s: State, name: string, input: Payload, k: int, now: Time)
    ensures Signal(s, name, input, now).Ok? ==> Adds(s, Signal(s, name, input, now).value.state)
    ensures FireTimer(s, k, now).Ok? ==> Adds(s, FireTimer(s, k, now).value.state)
  {
    hide Append, AppendAndWake, Adds;
    AddsSelf(s, s);
    if Signal(s, name, input, now).Ok? {
      WakeAdds(s, Signaled(name, input), now);
    }
    if k in s.timers.byId && FireTimer(s, k, now).Ok? {
      WakeAdds(s, TimerFired(s.timers.byId[k].timerId, k), now);
    }
  }

  lemma ActivityRequestsAdd(s: State, k: int, text: string, requestId: string, p: Payload, jitter: real, now: Time)
    ensures StartActivity(s, k, text, requestId, jitter, now).Ok? ==> Adds(s, StartActivity(s, k, text, requestId, jitter, now).value)
    ensures CompleteActivity(s, k, p, now).Ok? ==> Adds(s, CompleteActivity(s, k, p, now).value.state)
    ensures CancelActivity(s, k, p, now).Ok? ==> Adds(s, CancelActivity(s, k, p, now).value.state)
    ensures RecordHeartbeat(s, k, p, now).Ok? ==> Adds(s, RecordHeartbeat(s, k, p, now).value)
  {
    hide Append, AppendAndWake, Get, Adds;
    AddsSelf(s, s);
    if k in s.activities.byId {
      var a := s.activities.byId[k];
      if a.startedId == 0 && StartActivity(s, k, text, requestId, jitter, now).Ok? {
        AppendAdds(s, ActivityStarted(k, text, requestId, a.attempts.number, jitter), now);
      }
      if CompleteActivity(s, k, p, now).Ok? {
        WakeAdds(s, ActivityCompleted(k, a.startedId, p), now);
      }
      if CancelActivity(s, k, p, now).Ok? {
        WakeAdds(s, ActivityCanceled(k, a.startedId, p), now);
      }
      if RecordHeartbeat(s, k, p, now).Ok? {
        AddsSelf(s, RecordHeartbeat(s, k, p, now).value);
      }
    }
  }

  lemma RestoringAdds(s: State, r: Result<Step>, k: int, startedId: int)
    requires r.Ok? ==> Adds(s, r.value.state)
    ensures Restoring(r, k, startedId).Ok? ==> Adds(s, Restoring(r, k, startedId).value.state)
  {
  }

  lemma FailuresAdd(s: State, k: int, failure: Failure, kind: TimeoutKind, now: Time)
    ensures FailActivity(s, k, failure, now).Ok? ==> Adds(s, FailActivity(s, k, failure, now).value.state)
    ensures TimeoutActivity(s, k, kind, now).Ok? ==> Adds(s, TimeoutActivity(s, k, kind, now).value.state)
  {
    hide AppendAndWake, RetryDelay, TimeoutFailure, Adds;
    if k in s.activities.byId {
      var a := s.activities.byId[k];
      var d1, d2 := RetryDelay(s, a, failure, now), RetryDelay(s, a, TimeoutFailure(kind), now);
      if d1.Some? { AddsSelf(s, RetryActivity(s, a, failure, d1.value, now).state); }
      if d2.Some? { AddsSelf(s, RetryActivity(s, a, TimeoutFailure(kind), d2.value, now).state); }
      if a.startedId != 0 && d1.None? && FailActivity(s, k, failure, now).Ok? {
        var exhausted := a.options.retry.Some? && a.options.retry.value.maxAttempts > 0
                         && a.attempts.number >= a.options.retry.value.maxAttempts;
        WakeAdds(s, ActivityFailed(k, a.startedId, Some(failure),
          if exhausted then MaximumAttemptsReached else NonRetryableFailure), now);
      }
      if d2.None? && TimeoutActivity(s, k, kind, now).Ok? {
        WakeAdds(s, ActivityTimedOut(k, a.startedId, kind, a.attempts.heartbeat), now);
      }
    }
  }

  lemma ActivityTimersAdd(s: State, key: TimerKey, row: TimerRow, now: Time)
    ensures RedispatchActivity(s, key, row, now).Write? ==> Adds(s, RedispatchActivity(s, key, row, now).out.state)
    ensures TimeoutActivityTask(s, key, row, now).Write? ==> Adds(s, TimeoutActivityTask(s, key, row, now).out.state)
  {
    hide RetryRows, TimeoutActivity, ExpiredTimeout, Restoring, Adds;
    var k := key.eventId;
    if RedispatchActivity(s, key, row, now).Write? {
      AddsSelf(s, RedispatchActivity(s, key, row, now).out.state);
    }
    if k in s.activities.byId && TimeoutActivityTask(s, key, row, now).Write? {
      var a := s.activities.byId[k];
      var a' := if row.attempt > a.attempts.number then a.(attempts := a.attempts.(number := row.attempt)) else a;
      var s' := PutActivity(s, k, a');
      AddsSelf(s, s');
      var kind := ExpiredTimeout(a', now);
      FailuresAdd(s', k, Failure("", "", false), kind, now);
      RestoringAdds(s', TimeoutActivity(s', k, kind, now), k, a.startedId);
      if kind != Unspecified {
        AddsChain(s, s', TimeoutActivityTask(s, key, row, now).out.state);
      }
    }
  }

  lemma OnTimerAdds(s: State, key: TimerKey, row: TimerRow, now: Time)
    requires OnTimer(s, key, row, now).Write?
    ensures Adds(s, OnTimer(s, key, row, now).out.state)
  {
    hide Adds, RetryRows, TimeoutActivityTask, RedispatchActivity, FireTimer, ScheduleTask, TimeoutTask, TimeoutExecution;
    AddsSelf(s, s);
    ArrivalsAdd(s, "", NoPayload, key.eventId, now);
    ActivityTimersAdd(s, key, row, now);
    TaskRequestsAdd(s, "", "", now);
    RunRequestsAdd(s, "", ScheduleToClose, now);
    RunRequestsAdd(s, "", StartToClose, now);
    if ScheduleTask(s, now).Ok? {
      ScheduleAdds(s, now);
    }
  }

  lemma PollActivityAdds(s: State, k: int, attempt: int, identity: string, requestId: string, draw: Draw, now: Time)
    ensures
      var v := StartActivityTask(s, k, attempt, identity, requestId, draw, now);
      v.Write? ==> Adds(s, v.out.state)
  {
    hide StartActivity, RetryRows, Adds;
    ActivityRequestsAdd(s, k, identity, requestId, NoPayload, draw.jitter, now);
    if k in s.activities.byId {
      AddsSelf(s, PutActivity(s, k, BeginRetryAttempt(s.activities.byId[k], attempt, requestId, now)));
    }
  }

  /** Only a task response writes events that answer commands. */
  lemma HandleAdds(s: State, req: Request, draw: Draw, now: Time)
    requires !req.RespondTask? && Engine.Handle(s, req, draw, now).Write?
    ensures Adds(s, Engine.Handle(s, req, draw, now).out.state)
  {
    hide Adds, RetryRows, OnTimer, StartActivityTask, Restoring, FailActivity, Signal, RequestCancel, Terminate, StartTask, FailTask,
         CompleteActivity, CancelActivity, RecordHeartbeat, OwnsTask, FireTimer, TimeoutTask, TimeoutExecution, StartActivity;
    match req
    case SignalRun(name, input) => ArrivalsAdd(s, name, input, 0, now);
    case CancelRun(reason) => RunRequestsAdd(s, reason, Unspecified, now);
    case TerminateRun(reason) => RunRequestsAdd(s, reason, Unspecified, now);
    case PollTask(_, identity, requestId) => TaskRequestsAdd(s, identity, OrElse(requestId, draw.freshId), now);
    case RespondTaskFailed(_, cause) => TaskRequestsAdd(s, cause, "", now);
    case PollActivity(k, attempt, identity, requestId) =>
      PollActivityAdds(s, k, attempt, identity, OrElse(requestId, draw.freshId), draw, now);
    case RespondActivityCompleted(k, result) => ActivityRequestsAdd(s, k, "", "", result, 0.0, now);
    case RespondActivityFailed(k, failure) =>
      FailuresAdd(s, k, failure.value, Unspecified, now);
      RestoringAdds(s, FailActivity(s, k, failure.value, now), k, s.activities.byId[k].startedId);
    case RespondActivityCanceled(k, details) => ActivityRequestsAdd(s, k, "", "", details, 0.0, now);
    case HeartbeatActivity(k, details) => ActivityRequestsAdd(s, k, "", "", details, 0.0, now);
    case TimerDue(key, row) => OnTimerAdds(s, key, row, now);
    case RespondTask(_, _) =>
  }

  lemma CreateAdds(runId: string, st: StartAttrs, birth: Birth, now: Time)
    requires now > 0 && st.workflowType != "" && st.taskQueue != "" && (birth.WithSignal? ==> birth.name != "")
    ensures Create(runId, st, birth, now).Ok? && Start(Empty(runId), st, now).Ok?
    ensures Adds(Start(Empty(runId), st, now).value, Create(runId, st, birth, now).value.state)
  {
    hide Start, ScheduleTask, Signal, Adds, Durable;
    CreateDurable(runId, st, birth, now);
    StartDurable(runId, st, now);
    var s := Start(Empty(runId), st, now).value;
    AddsSelf(s, s);
    match birth
    case Immediate => ScheduleAdds(s, now);
    case Deferred(_) =>
    case WithSignal(name, input) =>
      ArrivalsAdd(s, name, input, 0, now);
      var t := Signal(s, name, input, now).value.state;
      ScheduleAdds(t, now);
      AddsChain(s, t, ScheduleTask(t, now).value.state);
  }
}
