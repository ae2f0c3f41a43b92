/** The execution state as the source keeps it: one object whose fields every event updates in place. */
module MutableStates {
  import opened Prelude
  import opened History
  import opened Execution
  import opened Durability
  import opened Rebuilding

  class MutableState {
    const runId: string
    var events: seq<Event>
    var status: Status
    var closedAt: Time
    var info: Info
    var task: Task
    var activities: map<int, Activity>
    var activityIds: map<string, int>
    var timers: map<int, Timer>
    var timerIds: map<string, int>
    var signals: nat
    var cancelRequested: bool
    var cancelReason: string

    /** The value the object stands for. */
    function View(): State
      reads this
    {
      State(runId, events, status, closedAt, info, task, Activities(activities, activityIds), Timers(timers, timerIds),
            signals, cancelRequested, cancelReason)
    }

    constructor (runId: string)
      ensures View() == Empty(runId)
    {
      this.runId := runId;
      events, status, closedAt, info, task := [], Running, 0, NO_INFO, NO_TASK;
      activities, activityIds, timers, timerIds := map[], map[], map[], map[];
      signals, cancelRequested, cancelReason := 0, false, "";
    }

    // ----- event application -----

    method ApplyTaskEvent(ev: Event) returns (err: Option<Error>)
      requires TaskEvent(ev.attrs)
      modifies `task
      ensures
        match ApplyToTask(old(task), ev)
        case Ok(t) => err.None? && task == t
        case Err(e) => err == Some(e) && task == old(task)
    {
      var a := ev.attrs;
      if a.TaskScheduled? {
        if task.scheduledId != 0 { return Some(ErrTaskPending); }
        task := Task(ev.id, 0, a.attempt, ev.time, 0, 0, "", a.taskQueue, a.timeout);
      } else if a.TaskStarted? {
        if !Scheduled(task) { return Some(ErrNoTask); }
        task := task.(startedId := ev.id, startedAt := ev.time, requestId := a.requestId, deadline := ev.time + task.timeout);
      } else {
        if !Started(task) { return Some(ErrNoTask); }
        task := NO_TASK;
      }
      return None;
    }

    method CloseActivity(sched: int) returns (err: Option<Error>)
      modifies `activities, `activityIds
      ensures
        match Execution.CloseActivity(Activities(old(activities), old(activityIds)), sched)
        case Ok(a) => err.None? && Activities(activities, activityIds) == a
        case Err(e) => err == Some(e) && activities == old(activities) && activityIds == old(activityIds)
    {
      if sched !in activities { return Some(ErrNotPending); }
      activityIds := activityIds - {activities[sched].activityId};
      activities := activities - {sched};
      return None;
    }

    method ApplyActivityEvent(ev: Event) returns (err: Option<Error>)
      requires ActivityEvent(ev.attrs)
      modifies `activities, `activityIds
      ensures
        match ApplyToActivities(Activities(old(activities), old(activityIds)), ev)
        case Ok(a) => err.None? && Activities(activities, activityIds) == a
        case Err(e) => err == Some(e) && activities == old(activities) && activityIds == old(activityIds)
    {
      var a := ev.attrs;
      if a.ActivityScheduled? {
        if a.activityId in activityIds { return Some(ErrDuplicateId); }
        activities := activities[ev.id := NewActivity(ev.id, ev.time, a.activityId, a.options)];
        activityIds := activityIds[a.activityId := ev.id];
      } else if a.ActivityStarted? {
        if a.scheduledId !in activities { return Some(ErrNotPending); }
        var act := activities[a.scheduledId];
        if act.startedId != 0 { return Some(ErrNotHeld); }
        activities := activities[a.scheduledId :=
          act.(startedId := ev.id, attempts := OpenAttempt(act, ev.time, a.attempt, a.requestId))];
      } else if a.ActivityCancelRequested? {
        if a.scheduledId !in activities { return Some(ErrNotPending); }
        activities := activities[a.scheduledId := activities[a.scheduledId].(cancelRequested := true)];
      } else {
        err := CloseActivity(a.scheduledId);
        return;
      }
      return None;
    }

    method ApplyTimerEvent(ev: Event) returns (err: Option<Error>)
      requires TimerEvent(ev.attrs)
      modifies `timers, `timerIds
      ensures
        match ApplyToTimers(Timers(old(timers), old(timerIds)), ev)
        case Ok(t) => err.None? && Timers(timers, timerIds) == t
        case Err(e) => err == Some(e) && timers == old(timers) && timerIds == old(timerIds)
    {
      var a := ev.attrs;
      if a.TimerStarted? {
        if a.timerId in timerIds { return Some(ErrDuplicateId); }
        timers := timers[ev.id := Timer(ev.id, a.timerId, ev.time + a.duration)];
        timerIds := timerIds[a.timerId := ev.id];
      } else {
        if a.startedId !in timers { return Some(ErrNotPending); }
        timerIds := timerIds - {timers[a.startedId].timerId};
        timers := timers - {a.startedId};
      }
      return None;
    }

    /** A terminal event: the run keeps its history and drops everything pending. */
    method CloseRun(status: Status, at: Time)
      modifies `status, `closedAt, `task, `activities, `activityIds, `timers, `timerIds
      ensures View() == Close(old(View()), status, at)
    {
      this.status, closedAt := status, at;
      task := NO_TASK;
      activities, activityIds, timers, timerIds := map[], map[], map[], map[];
    }

    method ApplyRunEvent(ev: Event) returns (err: Option<Error>)
      requires !TaskEvent(ev.attrs) && !ActivityEvent(ev.attrs) && !TimerEvent(ev.attrs)
      modifies this
      ensures
        match ApplyToRun(old(View()), ev)
        case Ok(s) => err.None? && View() == s
        case Err(e) => err == Some(e) && View() == old(View())
    {
      var a := ev.attrs;
      if a.ExecutionStarted? {
        if events != [] { return Some(ErrAlreadyStarted); }
        info := InfoFrom(runId, ev.time, a.start);
      } else if a.Signaled? {
        signals := signals + 1;
      } else if a.CancelRequested? {
        if !cancelRequested {
          cancelRequested, cancelReason := true, a.reason;
        }
      } else if !a.MarkerRecorded? {
        CloseRun(StatusAfter(a), ev.time);
      }
      return None;
    }

    /** Event application: the one place state changes. A refused event changes nothing. */
    method ApplyEvent(ev: Event) returns (err: Option<Error>)
      modifies this
      ensures
        match Apply(old(View()), ev)
        case Ok(s) => err.None? && View() == s
        case Err(e) => err == Some(e) && View() == old(View())
    {
      hide ApplyToTask, ApplyToActivities, ApplyToTimers, ApplyToRun;
      if TaskEvent(ev.attrs) {
        err := ApplyTaskEvent(ev);
      } else if ActivityEvent(ev.attrs) {
        err := ApplyActivityEvent(ev);
      } else if TimerEvent(ev.attrs) {
        err := ApplyTimerEvent(ev);
      } else {
        err := ApplyRunEvent(ev);
      }
    }

    /** Applies an event and, if it took, records it. */
    method RecordEvent(ev: Event) returns (err: Option<Error>)
      modifies this
      ensures
        match Record(old(View()), ev)
        case Ok(s) => err.None? && View() == s
        case Err(e) => err == Some(e) && View() == old(View())
    {
      hide Apply;
      ApplyKeepsEvents(View(), ev);
      err := ApplyEvent(ev);
      if err.None? {
        events := events + [ev];
      }
    }

    method AppendEvent(a: Attrs, now: Time) returns (err: Option<Error>)
      modifies this
      ensures
        match Append(old(View()), a, now)
        case Ok(s) => err.None? && View() == s
        case Err(e) => err == Some(e) && View() == old(View())
    {
      hide Record;
      if status != Running { return Some(ErrClosed); }
      err := RecordEvent(Event(NextEventId(events), now, a));
    }

    // ----- transitions -----

    method ScheduleWorkflowTask(now: Time) returns (r: Result<seq<Effect>>)
      modifies this
      ensures
        match ScheduleTask(old(View()), now)
        case Ok(step) => r == Ok(step.effects) && View() == step.state
        case Err(e) => r == Err(e) && View() == old(View())
    {
      hide Append;
      if status != Running || task.scheduledId != 0 { return Ok([]); }
      var timeout := if info.taskTimeout <= 0 then DEFAULT_TASK_TIMEOUT else info.taskTimeout;
      var queue, id := info.taskQueue, NextEventId(events);
      var err := AppendEvent(TaskScheduled(queue, timeout, 1), now);
      if err.Some? { return Err(err.value); }
      return Ok([DispatchTask(queue, id)]);
    }

    /** One pass over the batch with a set of the IDs seen so far: an error here means no event was written. */
    method PrecheckCommands(cmds: seq<Command>) returns (ok: bool)
      ensures ok <==> Precheck(View(), cmds)
    {
      hide ActivityIdsIn, TimerIdsIn;
      var seenActivities: set<string>, seenTimers: set<string> := {}, {};
      NothingSeen();
      for i := 0 to |cmds|
        invariant seenActivities == ActivityIdsIn(cmds[..i]) && seenTimers == TimerIdsIn(cmds[..i])
        invariant forall j :: 0 <= j < i ==> PrecheckAt(View(), cmds, j)
      {
        match cmds[i] {
          case ScheduleActivity(aid, _) =>
            if aid in activityIds || aid in seenActivities { assert !PrecheckAt(View(), cmds, i); return false; }
            seenActivities := seenActivities + {aid};
          case StartTimer(tid, _) =>
            if tid in timerIds || tid in seenTimers { assert !PrecheckAt(View(), cmds, i); return false; }
            seenTimers := seenTimers + {tid};
          case CancelTimer(st) =>
            if st !in timers { assert !PrecheckAt(View(), cmds, i); return false; }
          case RequestCancelActivity(sched) =>
            if sched !in activities { assert !PrecheckAt(View(), cmds, i); return false; }
          case _ =>
        }
        assert cmds[..i + 1] == cmds[..i] + [cmds[i]];
        IdsInAppend(cmds[..i], cmds[i]);
      }
      assert cmds[..|cmds|] == cmds;
      return true;
    }

    /** One command: its event is appended, its effects returned. The nil dereference of a missing timer is `Crashed`. */
    method ApplyCommand(c: Command, decision: int, draw: Draw, now: Time) returns (r: Completion)
      requires c.FailWorkflow? ==> c.failure.Some?
      modifies this
      ensures r == Execution.ApplyCommand(old(View()), c, decision, draw, now)
      ensures r.Applied? ==> View() == r.step.state
      ensures !r.Applied? ==> View() == old(View()) && !r.Refused? && r.debris == View()
    {
      hide Append, EventFor, EffectsFor;
      if c.CancelTimer? && c.startedId !in timers { return Crashed(View()); }
      var a := EventFor(View(), c, decision, draw, now);
      var effects := EffectsFor(View(), c, Event(NextEventId(events), now, a), draw);
      var err := AppendEvent(a, now);
      if err.Some? { return Torn(View(), err.value); }
      return Applied(Step(View(), effects));
    }

    /** Validates, prechecks, writes the completed event, then one event per command, in order. */
    method CompleteWorkflowTask(identity: string, cmds: seq<Command>, draw: Draw, now: Time) returns (r: Completion)
      modifies this
      ensures r == CompleteTask(old(View()), identity, cmds, draw, now)
      ensures
        match r
        case Applied(step) => View() == step.state
        case Refused(_) => View() == old(View())
        case Crashed(debris) => View() == debris
        case Torn(debris, _) => View() == debris
    {
      hide Append, Precheck, Execution.ApplyCommand, ValidBatch, NormalizeBatch;
      if !Started(task) { return Refused(ErrNoTask); }
      var valid, batch := ValidateBatch(cmds);
      if !valid { return Refused(ErrInvalidCommand); }
      var fits := PrecheckCommands(cmds);
      if !fits { return Refused(ErrInvalidCommand); }
      NormalizedShaped(cmds);
      var decision := NextEventId(events);
      var err := AppendEvent(TaskCompleted(task.scheduledId, task.startedId, identity), now);
      if err.Some? { return Refused(err.value); }
      ghost var after := View();
      ghost var all := ApplyCommands(after, batch, decision, draw, now);
      var effects: seq<Effect> := [];
      var i := 0;
      assert batch[0..] == batch;
      while i < |batch|
        invariant 0 <= i <= |batch| && FailuresNamed(batch[i..])
        invariant all == Prefixed(effects, ApplyCommands(View(), batch[i..], decision, draw, now))
      {
        assert batch[i..][0] == batch[i] && batch[i..][1..] == batch[i + 1..];
        var done := ApplyCommand(batch[i], decision, draw, now);
        if !done.Applied? { return done; }
        effects := effects + done.step.effects;
        i := i + 1;
      }
      assert batch[i..] == [];
      return Applied(Step(View(), effects));
    }

    /** Appends an event and makes sure the workflow gets a turn. */
    method AppendThenWake(a: Attrs, now: Time) returns (r: Result<seq<Effect>>)
      requires Dense(events)
      modifies this
      ensures
        match AppendAndWake(old(View()), a, now)
        case Ok(step) => r == Ok(step.effects) && View() == step.state
        case Err(e) => r == Err(e) && View() == old(View())
    {
      hide Append, ScheduleTask;
      ghost var before := View();
      var err := AppendEvent(a, now);
      if err.Some? { return Err(err.value); }
      WakeSucceeds(before, a, now);
      r := ScheduleWorkflowTask(now);
    }

    method StartWorkflowTask(identity: string, requestId: string, now: Time) returns (err: Option<Error>)
      modifies this
      ensures
        match StartTask(old(View()), identity, requestId, now)
        case Ok(s) => err.None? && View() == s
        case Err(e) => err == Some(e) && View() == old(View())
    {
      hide Append;
      if !Scheduled(task) { return Some(ErrNoTask); }
      err := AppendEvent(TaskStarted(task.scheduledId, identity, requestId), now);
    }

    method FailWorkflowTask(cause: string, now: Time) returns (r: Result<seq<Effect>>)
      requires Dense(events)
      modifies this
      ensures
        match FailTask(old(View()), cause, now)
        case Ok(step) => r == Ok(step.effects) && View() == step.state
        case Err(e) => r == Err(e) && View() == old(View())
    {
      hide AppendAndWake;
      if !Started(task) { return Err(ErrNoTask); }
      r := AppendThenWake(TaskFailed(task.scheduledId, task.startedId, cause), now);
    }

    /** A timeout that finds no started task writes nothing. */
    method TimeoutWorkflowTask(now: Time) returns (r: Result<seq<Effect>>)
      requires Dense(events)
      modifies this
      ensures
        match TimeoutTask(old(View()), now)
        case Ok(step) => r == Ok(step.effects) && View() == step.state
        case Err(e) => r == Err(e) && View() == old(View())
    {
      hide AppendAndWake;
      if !Started(task) { return Ok([]); }
      r := AppendThenWake(TaskTimedOut(task.scheduledId, task.startedId), now);
    }

    method FirePendingTimer(st: int, now: Time) returns (r: Result<seq<Effect>>)
      requires Dense(events)
      modifies this
      ensures
        match FireTimer(old(View()), st, now)
        case Ok(step) => r == Ok(step.effects) && View() == step.state
        case Err(e) => r == Err(e) && View() == old(View())
    {
      hide AppendAndWake;
      if st !in timers { return Ok([]); }
      r := AppendThenWake(TimerFired(timers[st].timerId, st), now);
    }

    method StartPendingActivity(sched: int, identity: string, requestId: string, jitter: real, now: Time) returns (err: Option<Error>)
      modifies this
      ensures
        match StartActivity(old(View()), sched, identity, requestId, jitter, now)
        case Ok(s) => err.None? && View() == s
        case Err(e) => err == Some(e) && View() == old(View())
    {
      hide Append, Get;
      if sched !in activities { return Some(ErrNotPending); }
      var a := activities[sched];
      if a.startedId != 0 {
        return if Get(events, a.startedId).Some? && a.attempts.requestId == requestId then None else Some(ErrNotHeld);
      }
      err := AppendEvent(ActivityStarted(sched, identity, requestId, a.attempts.number, jitter), now);
    }

    /** Arms another attempt in place: the history does not change. */
    method RetryInPlace(a: Activity, failure: Failure, delay: Duration, now: Time) returns (effects: seq<Effect>)
      modifies `activities
      ensures Step(View(), effects) == RetryActivity(old(View()), a, failure, delay, now)
    {
      activities := activities[a.scheduledId := a.(startedId := 0, attempts := a.attempts.(
        number := a.attempts.number + 1, startedAt := 0, deadline := 0, heartbeatDeadline := 0,
        requestId := "", lastFailure := Some(failure)))];
      return [ArmTimer(a.scheduledId, now + delay, a.options.taskQueue)];
    }

    method FailPendingActivity(sched: int, failure: Failure, now: Time) returns (r: Result<seq<Effect>>)
      requires Dense(events)
      modifies this
      ensures
        match FailActivity(old(View()), sched, failure, now)
        case Ok(step) => r == Ok(step.effects) && View() == step.state
        case Err(e) => r == Err(e) && View() == old(View())
    {
      hide AppendAndWake, RetryDelay, RetryActivity;
      if sched !in activities { return Err(ErrNotPending); }
      var a := activities[sched];
      if a.startedId == 0 { return Err(ErrNotHeld); }
      var delay := RetryDelay(View(), a, failure, now);
      if delay.Some? {
        var effects := RetryInPlace(a, failure, delay.value, now);
        return Ok(effects);
      }
      var exhausted := a.options.retry.Some? && a.options.retry.value.maxAttempts > 0
                       && a.attempts.number >= a.options.retry.value.maxAttempts;
      r := AppendThenWake(ActivityFailed(sched, a.startedId, Some(failure),
             if exhausted then MaximumAttemptsReached else NonRetryableFailure), now);
    }

    method TimeoutPendingActivity(sched: int, kind: TimeoutKind, now: Time) returns (r: Result<seq<Effect>>)
      requires Dense(events)
      modifies this
      ensures
        match TimeoutActivity(old(View()), sched, kind, now)
        case Ok(step) => r == Ok(step.effects) && View() == step.state
        case Err(e) => r == Err(e) && View() == old(View())
    {
      hide AppendAndWake, RetryDelay, RetryActivity, TimeoutFailure;
      if sched !in activities { return Err(ErrNotPending); }
      var a := activities[sched];
      var delay := RetryDelay(View(), a, TimeoutFailure(kind), now);
      if delay.Some? {
        var effects := RetryInPlace(a, TimeoutFailure(kind), delay.value, now);
        return Ok(effects);
      }
      r := AppendThenWake(ActivityTimedOut(sched, a.startedId, kind, a.attempts.heartbeat), now);
    }

    method RecordActivityHeartbeat(sched: int, details: Payload, now: Time) returns (err: Option<Error>)
      modifies `activities
      ensures
        match RecordHeartbeat(old(View()), sched, details, now)
        case Ok(s) => err.None? && View() == s
        case Err(e) => err == Some(e) && View() == old(View())
    {
      if sched !in activities { return Some(ErrNotPending); }
      var a := activities[sched];
      if a.startedId == 0 { return Some(ErrNotHeld); }
      activities := activities[sched := a.(attempts := a.attempts.(
        heartbeat := details,
        heartbeatDeadline := if a.options.heartbeat > 0 then now + a.options.heartbeat
                             else a.attempts.heartbeatDeadline))];
      return None;
    }

    /** Names the successor in the closing event, which is not committed yet. */
    method NameSuccessor(newRunId: string) returns (err: Option<Error>)
      modifies `events
      ensures
        match PatchRunId(old(View()), newRunId)
        case Ok(s) => err.None? && View() == s
        case Err(e) => err == Some(e) && View() == old(View())
    {
      if events == [] || !events[|events| - 1].attrs.ExecutionContinuedAsNew? { return Some(ErrNotPatchable); }
      var last := events[|events| - 1];
      events := events[|events| - 1 := last.(attrs := last.attrs.(newRunId := newRunId))];
      return None;
    }

    /** Replays a history into this object, which must be fresh. */
    method Load(h: seq<Event>) returns (r: Result<bool>)
      requires View() == Empty(runId)
      modifies this
      ensures
        match Rebuild(runId, h)
        case Ok(s) => r.Ok? && View() == s
        case Err(e) => r == Err(e)
    {
      hide Record;
      var valid := Validate(h);
      if !valid { return Err(ErrInvalidHistory); }
      var i := 0;
      while i < |h|
        invariant 0 <= i <= |h|
        invariant Replay(runId, h[..i]) == Ok(View())
      {
        assert h[..i + 1][..i] == h[..i];
        var err := RecordEvent(h[i]);
        if err.Some? {
          ReplayStops(runId, h, i + 1, err.value);
          return Err(err.value);
        }
        i := i + 1;
      }
      assert h[..i] == h;
      return Ok(true);
    }
  }

  /** The effects of the commands done so far, in front of those of the rest. */
  function Prefixed(effects: seq<Effect>, c: Completion): Completion {
    match c
    case Applied(step) => Applied(Step(step.state, effects + step.effects))
    case other => other
  }

  lemma ApplyKeepsEvents(s: State, ev: Event)
    ensures Apply(s, ev).Ok? ==> Apply(s, ev).value.events == s.events
  {
    hide ApplyToTask, ApplyToActivities, ApplyToTimers, InfoFrom, StatusAfter;
  }

  /** After an accepted event, scheduling cannot fail, so a transition never stops half way. */
  lemma WakeSucceeds(s: State, a: Attrs, now: Time)
    requires Dense(s.events) && Append(s, a, now).Ok?
    ensures ScheduleTask(Append(s, a, now).value, now).Ok?
  {
    hide Append;
    var t := Append(s, a, now).value;
    assert Dense(t.events) by { AppendDense(s, a, now); }
    if Open(t) && t.task.scheduledId == 0 {
      SchedulingSucceeds(t, t.info.taskQueue, if t.info.taskTimeout <= 0 then DEFAULT_TASK_TIMEOUT else t.info.taskTimeout, now);
    }
  }

  lemma AppendDense(s: State, a: Attrs, now: Time)
    requires Dense(s.events) && Append(s, a, now).Ok?
    ensures Dense(Append(s, a, now).value.events)
  {
    hide Apply;
  }

  lemma NothingSeen()
    ensures ActivityIdsIn([]) == {} && TimerIdsIn([]) == {}
    ensures forall cmds: seq<Command> :: ActivityIdsIn(cmds[..0]) == {} && TimerIdsIn(cmds[..0]) == {}
  {
  }

  /** A history whose prefix the fold refuses is refused for the same reason. */
  lemma {:induction false} ReplayStops(runId: string, h: seq<Event>, n: nat, e: Error)
    requires n <= |h| && Replay(runId, h[..n]) == Err(e)
    ensures Replay(runId, h) == Err(e)
    decreases |h|
  {
    if n == |h| {
      assert h[..n] == h;
    } else {
      assert h[..|h| - 1][..n] == h[..n];
      ReplayStops(runId, h[..|h| - 1], n, e);
    }
  }
}
