/** No lost wake-up: whatever the workflow has not seen yet has a workflow task coming. */
module WakeUps {
  import opened Prelude
  import opened History
  import opened Execution
  import opened Durability
  import opened Engine
  import opened Rebuilding
  import opened Runs

  /** Events that must give the workflow a turn. */
  predicate Wakes(a: Attrs) {
    a.Signaled? || a.CancelRequested? || a.TimerFired? || ActivityCloser(a)
  }

  /** The started event of the last completed workflow task: everything up to it was handed to the workflow. */
  function LastSeen(h: seq<Event>): int {
    if h == [] then 0
    else if h[|h| - 1].attrs.TaskCompleted? then h[|h| - 1].attrs.startedId
    else LastSeen(h[..|h| - 1])
  }

  predicate AllSeen(h: seq<Event>) {
    forall i :: 0 <= i < |h| && Wakes(h[i].attrs) ==> h[i].id <= LastSeen(h)
  }

  /** An open run with an unseen wake-up has a workflow task scheduled or in flight. */
  predicate Awake(s: State) {
    Open(s) && s.task.scheduledId == 0 ==> AllSeen(s.events)
  }

  /** The parts of the state `Awake` depends on are the same. */
  predicate SameTask(s: State, t: State) {
    s.events == t.events && s.status == t.status && s.task == t.task
  }

  predicate QuietEvent(a: Attrs) {
    !Wakes(a) && !a.TaskCompleted? && !a.TaskFailed? && !a.TaskTimedOut?
  }

  lemma AllSeenQuiet(h: seq<Event>, e: Event)
    requires AllSeen(h) && !Wakes(e.attrs) && !e.attrs.TaskCompleted?
    ensures AllSeen(h + [e])
  {
    assert (h + [e])[..|h|] == h;
  }

  lemma AppendAwake(s: State, a: Attrs, now: Time)
    requires Awake(s) && QuietEvent(a) && Append(s, a, now).Ok?
    ensures Awake(Append(s, a, now).value)
  {
    hide AllSeen, InfoFrom, ApplyToActivities, ApplyToTimers;
    if AllSeen(s.events) {
      AllSeenQuiet(s.events, Event(NextEventId(s.events), now, a));
    }
  }

  lemma AppendAndWakeAwake(s: State, a: Attrs, now: Time)
    requires Ready(s, now) && AppendAndWake(s, a, now).Ok?
    requires RefsOk(s.events, |s.events|, a) && !a.ExecutionStarted?
    ensures Awake(AppendAndWake(s, a, now).value.state)
  {
    hide Durable, Append, RefsOk, ScheduleTask, AllSeen;
    AppendKept(s, a, now);
    ScheduleKept(Append(s, a, now).value, now);
  }

  lemma ScheduleAwake(s: State, now: Time)
    requires Ready(s, now)
    ensures ScheduleTask(s, now).Ok? && Awake(ScheduleTask(s, now).value.state)
  {
    hide Durable, ScheduleTask, AllSeen, Kept;
    ScheduleKept(s, now);
  }

  lemma SameTaskAwake(s: State, t: State)
    requires Awake(s) && SameTask(s, t)
    ensures Awake(t)
  {
  }

  lemma RestoreSame(s: State, k: int, startedId: int)
    ensures SameTask(s, RestoreStarted(s, k, startedId))
  {
  }

  // ----- activities and timers -----

  lemma TaskRequestsAwake(s: State, text: string, requestId: string, now: Time)
    requires Ready(s, now) && Awake(s)
    ensures StartTask(s, text, requestId, now).Ok? ==> Awake(StartTask(s, text, requestId, now).value)
    ensures FailTask(s, text, now).Ok? ==> Awake(FailTask(s, text, now).value.state)
    ensures TimeoutTask(s, now).Ok? ==> Awake(TimeoutTask(s, now).value.state)
  {
    hide Durable, Awake, Append, AppendAndWake, Refers;
    TaskRefs(s);
    if StartTask(s, text, requestId, now).Ok? {
      AppendAwake(s, TaskStarted(s.task.scheduledId, text, requestId), now);
    }
    if FailTask(s, text, now).Ok? {
      AppendAndWakeAwake(s, TaskFailed(s.task.scheduledId, s.task.startedId, text), now);
    }
    if Started(s.task) && TimeoutTask(s, now).Ok? {
      AppendAndWakeAwake(s, TaskTimedOut(s.task.scheduledId, s.task.startedId), now);
    }
  }

  lemma RunRequestsAwake(s: State, text: string, kind: TimeoutKind, now: Time)
    requires Ready(s, now) && Awake(s)
    ensures RequestCancel(s, text, now).Ok? ==> Awake(RequestCancel(s, text, now).value.state)
    ensures Terminate(s, text, now).Ok? ==> Awake(Terminate(s, text, now).value)
    ensures TimeoutExecution(s, kind, now).Ok? ==> Awake(TimeoutExecution(s, kind, now).value)
  {
    hide Durable, Awake, Append, AppendAndWake;
    if !s.cancelRequested && RequestCancel(s, text, now).Ok? {
      AppendAndWakeAwake(s, CancelRequested(text), now);
    }
    if Terminate(s, text, now).Ok? {
      AppendAwake(s, ExecutionTerminated(text), now);
    }
    if TimeoutExecution(s, kind, now).Ok? {
      AppendAwake(s, ExecutionTimedOut(kind), now);
    }
  }

  lemma ArrivalsAwake(s: State, name: string, input: Payload, k: int, now: Time)
    requires Ready(s, now) && Awake(s)
    ensures name != "" && Signal(s, name, input, now).Ok? ==> Awake(Signal(s, name, input, now).value.state)
    ensures FireTimer(s, k, now).Ok? ==> Awake(FireTimer(s, k, now).value.state)
  {
    hide Durable, Awake, Append, AppendAndWake, Refers;
    if name != "" && Signal(s, name, input, now).Ok? {
      AppendAndWakeAwake(s, Signaled(name, input), now);
    }
    if k in s.timers.byId && FireTimer(s, k, now).Ok? {
      TimerRefs(s, k);
      AppendAndWakeAwake(s, TimerFired(s.timers.byId[k].timerId, k), now);
    }
  }

  lemma ActivityRequestsAwake(s: State, k: int, text: string, requestId: string, p: Payload, jitter: real, now: Time)
    requires Ready(s, now) && Awake(s)
    ensures StartActivity(s, k, text, requestId, jitter, now).Ok? ==> Awake(StartActivity(s, k, text, requestId, jitter, now).value)
    ensures CompleteActivity(s, k, p, now).Ok? ==> Awake(CompleteActivity(s, k, p, now).value.state)
    ensures CancelActivity(s, k, p, now).Ok? ==> Awake(CancelActivity(s, k, p, now).value.state)
    ensures RecordHeartbeat(s, k, p, now).Ok? ==> Awake(RecordHeartbeat(s, k, p, now).value)
  {
    hide Durable, Append, AppendAndWake, Refers, Get, Awake;
    if k in s.activities.byId {
      var a := s.activities.byId[k];
      ActivityRefs(s, k);
      if a.startedId == 0 && StartActivity(s, k, text, requestId, jitter, now).Ok? {
        AppendAwake(s, ActivityStarted(k, text, requestId, a.attempts.number, jitter), now);
      }
      if CompleteActivity(s, k, p, now).Ok? {
        AppendAndWakeAwake(s, ActivityCompleted(k, a.startedId, p), now);
      }
      if CancelActivity(s, k, p, now).Ok? {
        AppendAndWakeAwake(s, ActivityCanceled(k, a.startedId, p), now);
      }
      if RecordHeartbeat(s, k, p, now).Ok? {
        SameTaskAwake(s, RecordHeartbeat(s, k, p, now).value);
      }
    }
  }

  lemma RestoringAwake(r: Result<Step>, k: int, startedId: int)
    requires r.Ok? ==> Awake(r.value.state)
    ensures Restoring(r, k, startedId).Ok? ==> Awake(Restoring(r, k, startedId).value.state)
  {
    hide Awake, RestoreStarted;
    if r.Ok? {
      RestoreSame(r.value.state, k, startedId);
      SameTaskAwake(r.value.state, RestoreStarted(r.value.state, k, startedId));
    }
  }

  lemma RetrySame(s: State, a: Activity, failure: Failure, delay: Option<Duration>, now: Time)
    requires Awake(s)
    ensures delay.Some? ==> Awake(RetryActivity(s, a, failure, delay.value, now).state)
  {
  }

  lemma FailuresAwake(s: State, k: int, failure: Failure, kind: TimeoutKind, now: Time)
    requires Ready(s, now) && Awake(s)
    ensures FailActivity(s, k, failure, now).Ok? ==> Awake(FailActivity(s, k, failure, now).value.state)
    ensures TimeoutActivity(s, k, kind, now).Ok? ==> Awake(TimeoutActivity(s, k, kind, now).value.state)
  {
    hide Durable, AppendAndWake, Refers, RetryDelay, TimeoutFailure, Awake;
    if k in s.activities.byId {
      var a := s.activities.byId[k];
      ActivityRefs(s, k);
      RetrySame(s, a, failure, RetryDelay(s, a, failure, now), now);
      RetrySame(s, a, TimeoutFailure(kind), RetryDelay(s, a, TimeoutFailure(kind), now), now);
      if a.startedId != 0 && RetryDelay(s, a, failure, now).None? && FailActivity(s, k, failure, now).Ok? {
        var exhausted := a.options.retry.Some? && a.options.retry.value.maxAttempts > 0
                         && a.attempts.number >= a.options.retry.value.maxAttempts;
        AppendAndWakeAwake(s, ActivityFailed(k, a.startedId, Some(failure),
          if exhausted then MaximumAttemptsReached else NonRetryableFailure), now);
      }
      if RetryDelay(s, a, TimeoutFailure(kind), now).None? && TimeoutActivity(s, k, kind, now).Ok? {
        AppendAndWakeAwake(s, ActivityTimedOut(k, a.startedId, kind, a.attempts.heartbeat), now);
      }
    }
  }

  // ----- workflow task completion -----

  lemma CommandEventsQuiet(s: State, c: Command, decision: int, draw: Draw, now: Time)
    requires c.CancelTimer? ==> c.startedId in s.timers.byId
    requires c.FailWorkflow? ==> c.failure.Some?
    ensures QuietEvent(EventFor(s, c, decision, draw, now)) && !TaskEvent(EventFor(s, c, decision, draw, now))
  {
  }

  lemma {:induction false} CommandsAwake(s: State, cmds: seq<Command>, decision: int, draw: Draw, now: Time)
    requires Awake(s) && FailuresNamed(cmds) && ApplyCommands(s, cmds, decision, draw, now).Applied?
    ensures Awake(ApplyCommands(s, cmds, decision, draw, now).step.state)
    decreases |cmds|
  {
    hide Awake, EventFor, EffectsFor, Append;
    if cmds != [] {
      CommandEventsQuiet(s, cmds[0], decision, draw, now);
      AppendAwake(s, EventFor(s, cmds[0], decision, draw, now), now);
      CommandsAwake(ApplyCommand(s, cmds[0], decision, draw, now).step.state, cmds[1..], decision, draw, now);
    }
  }

  /** When nothing was buffered, the started event is the last one, so the completed task saw everything. */
  lemma CompletionSeesAll(s: State, identity: string, now: Time)
    requires Durable(s) && Started(s.task) && NextEventId(s.events) - s.task.startedId <= 1
    requires Append(s, TaskCompleted(s.task.scheduledId, s.task.startedId, identity), now).Ok?
    ensures Awake(Append(s, TaskCompleted(s.task.scheduledId, s.task.startedId, identity), now).value)
  {
    hide Replays, WellFormed, ActivitiesLinked, TimersLinked, ClosureLinked;
  }

  lemma CompleteTaskAwake(s: State, identity: string, cmds: seq<Command>, draw: Draw, now: Time)
    requires Durable(s) && NextEventId(s.events) - s.task.startedId <= 1
    requires CompleteTask(s, identity, cmds, draw, now).Applied?
    ensures Awake(CompleteTask(s, identity, cmds, draw, now).step.state)
  {
    hide Durable, Awake, Append, ValidBatch, Precheck, NormalizeBatch, ApplyCommands;
    CompletionSeesAll(s, identity, now);
    NormalizedShaped(cmds);
    CommandsAwake(Append(s, TaskCompleted(s.task.scheduledId, s.task.startedId, identity), now).value,
                  NormalizeBatch(cmds), NextEventId(s.events), draw, now);
  }

  lemma RespondAwake(s: State, cmds: seq<Command>, identity: string, draw: Draw, now: Time)
    requires Ready(s, now) && RespondWithCommands(s, cmds, identity, draw, now).Applied?
    ensures Awake(RespondWithCommands(s, cmds, identity, draw, now).step.state)
  {
    hide Durable, AllSeen, CompleteTask, ScheduleTask, Kept;
    CompleteTaskKept(s, identity, cmds, draw, now);
    var t := CompleteTask(s, identity, cmds, draw, now).step.state;
    KeptParts(s, t, now);
    ScheduleAwake(t, now);
    if NextEventId(s.events) - s.task.startedId <= 1 {
      CompleteTaskAwake(s, identity, cmds, draw, now);
    }
  }

  lemma FinalizeAwake(step: Step, draw: Draw)
    requires Durable(step.state) && Awake(step.state) && Finalize(step, draw).Write?
    ensures Awake(Finalize(step, draw).out.state)
  {
    hide Awake, RetryRows, Replays, WellFormed, TaskLinked, ActivitiesLinked, TimersLinked, RunsIn, OthersIn;
    var s := step.state;
    if PatchRunId(s, draw.freshId).Ok? {
      assert !Open(s);
      ClosedAwake(PatchRunId(s, draw.freshId).value);
    }
  }

  lemma ClosedAwake(s: State)
    requires !Open(s)
    ensures Awake(s)
  {
  }

  // ------------------------------------------------------------------
  // Every request, every run
  // ------------------------------------------------------------------

  lemma PollActivityAwake(s: State, k: int, attempt: int, identity: string, requestId: string, draw: Draw, now: Time)
    requires Ready(s, now) && Awake(s)
    ensures
      var v := StartActivityTask(s, k, attempt, identity, requestId, draw, now);
      v.Write? ==> Awake(v.out.state)
  {
    hide Durable, StartActivity, RetryRows, AllSeen;
    ActivityRequestsAwake(s, k, identity, requestId, NoPayload, draw.jitter, now);
  }

  lemma ActivityTimersAwake(s: State, key: TimerKey, row: TimerRow, now: Time)
    requires Ready(s, now) && Awake(s)
    ensures RedispatchActivity(s, key, row, now).Write? ==> Awake(RedispatchActivity(s, key, row, now).out.state)
    ensures TimeoutActivityTask(s, key, row, now).Write? ==> Awake(TimeoutActivityTask(s, key, row, now).out.state)
  {
    hide Durable, RetryRows, TimeoutActivity, ExpiredTimeout, Restoring, Open, AllSeen, Kept;
    var k := key.eventId;
    if k in s.activities.byId && TimeoutActivityTask(s, key, row, now).Write? {
      var a := s.activities.byId[k];
      var a' := if row.attempt > a.attempts.number then a.(attempts := a.attempts.(number := row.attempt)) else a;
      PatchedActivityKept(s, k, a', now);
      var s' := PutActivity(s, k, a');
      KeptParts(s, s', now);
      SameTaskAwake(s, s');
      FailuresAwake(s', k, Failure("", "", false), ExpiredTimeout(a', now), now);
      RestoringAwake(TimeoutActivity(s', k, ExpiredTimeout(a', now), now), k, a.startedId);
    }
  }

  lemma OnTimerAwake(s: State, key: TimerKey, row: TimerRow, now: Time)
    requires Ready(s, now) && Awake(s) && OnTimer(s, key, row, now).Write?
    ensures Awake(OnTimer(s, key, row, now).out.state)
  {
    hide Durable, Awake, RetryRows, TimeoutActivityTask, RedispatchActivity, FireTimer, ScheduleTask, TimeoutTask, TimeoutExecution;
    ArrivalsAwake(s, "", NoPayload, key.eventId, now);
    ActivityTimersAwake(s, key, row, now);
    TaskRequestsAwake(s, "", "", now);
    RunRequestsAwake(s, "", ScheduleToClose, now);
    RunRequestsAwake(s, "", StartToClose, now);
    ScheduleAwake(s, now);
  }

  lemma RespondTaskAwake(s: State, identity: string, cmds: seq<Command>, draw: Draw, now: Time)
    requires Ready(s, now) && draw.freshId != "" && Handle(s, RespondTask(identity, cmds), draw, now).Write?
    ensures Awake(Handle(s, RespondTask(identity, cmds), draw, now).out.state)
  {
    hide Durable, Awake, RespondWithCommands, Finalize, Kept, OwnsTask;
    var r := RespondWithCommands(s, cmds, identity, draw, now);
    RespondAwake(s, cmds, identity, draw, now);
    RespondKept(s, cmds, identity, draw, now);
    KeptParts(s, r.step.state, now);
    FinalizeAwake(r.step, draw);
  }

  lemma FailTaskActivityAwake(s: State, k: int, failure: Option<Failure>, draw: Draw, now: Time)
    requires Ready(s, now) && Awake(s) && Handle(s, RespondActivityFailed(k, failure), draw, now).Write?
    ensures Awake(Handle(s, RespondActivityFailed(k, failure), draw, now).out.state)
  {
    hide Durable, Awake, FailActivity, Restoring, RetryRows;
    FailuresAwake(s, k, failure.value, Unspecified, now);
    RestoringAwake(FailActivity(s, k, failure.value, now), k, s.activities.byId[k].startedId);
  }

  /** Every request keeps the run awake. */
  lemma HandleAwake(s: State, req: Request, draw: Draw, now: Time)
    requires Ready(s, now) && Awake(s) && draw.freshId != "" && Handle(s, req, draw, now).Write?
    ensures Awake(Handle(s, req, draw, now).out.state)
  {
    match req
    case RespondTask(identity, cmds) =>
      hide Handle, Durable, Awake;
      RespondTaskAwake(s, identity, cmds, draw, now);
    case RespondActivityFailed(k, failure) =>
      hide Handle, Durable, Awake;
      FailTaskActivityAwake(s, k, failure, draw, now);
    case TimerDue(key, row) =>
      hide Durable, Awake, OnTimer;
      OnTimerAwake(s, key, row, now);
    case _ =>
      hide Durable, Awake;
      OtherRequestsAwake(s, req, draw, now);
  }

  lemma OtherRequestsAwake(s: State, req: Request, draw: Draw, now: Time)
    requires Ready(s, now) && Awake(s) && Handle(s, req, draw, now).Write?
    requires !req.RespondTask? && !req.RespondActivityFailed? && !req.TimerDue?
    ensures Awake(Handle(s, req, draw, now).out.state)
  {
    hide Durable, Awake, RetryRows, StartActivityTask, Signal, RequestCancel, Terminate, StartTask, FailTask,
         CompleteActivity, CancelActivity, RecordHeartbeat, OwnsTask, FireTimer, TimeoutTask, TimeoutExecution, StartActivity;
    match req
    case SignalRun(name, input) => ArrivalsAwake(s, name, input, 0, now);
    case CancelRun(reason) => RunRequestsAwake(s, reason, Unspecified, now);
    case TerminateRun(reason) => RunRequestsAwake(s, reason, Unspecified, now);
    case PollTask(_, identity, requestId) => TaskRequestsAwake(s, identity, OrElse(requestId, draw.freshId), now);
    case RespondTaskFailed(_, cause) => TaskRequestsAwake(s, cause, "", now);
    case PollActivity(k, attempt, identity, requestId) =>
      PollActivityAwake(s, k, attempt, identity, OrElse(requestId, draw.freshId), draw, now);
    case RespondActivityCompleted(k, result) => ActivityRequestsAwake(s, k, "", "", result, 0.0, now);
    case RespondActivityCanceled(k, details) => ActivityRequestsAwake(s, k, "", "", details, 0.0, now);
    case HeartbeatActivity(k, details) => ActivityRequestsAwake(s, k, "", "", details, 0.0, now);
    case _ =>
  }

  lemma CreateAwake(runId: string, st: StartAttrs, birth: Birth, now: Time)
    requires now > 0 && st.workflowType != "" && st.taskQueue != "" && (birth.WithSignal? ==> birth.name != "")
    ensures Create(runId, st, birth, now).Ok? && Awake(Create(runId, st, birth, now).value.state)
  {
    hide Durable, Start, Append, ScheduleTask, Signal, AllSeen;
    CreateDurable(runId, st, birth, now);
    StartDurable(runId, st, now);
    var s := Start(Empty(runId), st, now).value;
    assert AllSeen(s.events) by { FirstSeen(s.events); }
    ScheduleAwake(s, now);
    if birth.WithSignal? {
      SignalSucceeds(s, birth.name, birth.input, now);
      SignalKept(s, birth.name, birth.input, now);
      var t := Signal(s, birth.name, birth.input, now).value.state;
      KeptParts(s, t, now);
      ScheduleAwake(t, now);
    }
  }

  lemma FirstSeen(h: seq<Event>)
    requires |h| == 1 && h[0].attrs.ExecutionStarted?
    ensures AllSeen(h)
  {
  }

  lemma NextAwake(s: State, turn: Turn)
    requires Ready(s, turn.now) && Awake(s) && turn.draw.freshId != "" && Next(s, turn).Some?
    ensures Awake(Next(s, turn).value)
  {
    hide Durable, Handle, Agree, Awake, Rebuild;
    ReloadAgrees(s);
    if Handle(s, turn.req, turn.draw, turn.now).Write? {
      HandleAwake(s, turn.req, turn.draw, turn.now);
    }
    if Reload(s).Some? {
      AgreeHistory(Reload(s).value, s);
      SameTaskAwake(s, Reload(s).value);
    }
  }

  lemma {:induction false} LivesAwake(o: Origin, states: seq<State>, turns: seq<Turn>, n: nat)
    requires Lives(o, states, turns) && n < |states|
    ensures Awake(states[n])
  {
    hide Durable, Next, Awake, Kept, Create;
    assert Arrives(o, states, turns, n);
    if n == 0 {
      CreateAwake(o.runId, o.start, o.birth, o.born);
    } else {
      LivesAwake(o, states, turns, n - 1);
      LivesDurable(o, states, turns, n);
      NextAwake(states[n - 1], turns[n - 1]);
    }
  }

  /** In every state a run can reach, an event the workflow must react to and has not been given yet has a workflow
      task scheduled or in flight, unless the run is over. */
  lemma NoLostWakeUp(o: Origin, states: seq<State>, turns: seq<Turn>, n: nat, i: nat)
    requires Lives(o, states, turns) && n < |states|
    requires i < |states[n].events| && Wakes(states[n].events[i].attrs) && states[n].events[i].id > LastSeen(states[n].events)
    ensures !Open(states[n]) || states[n].task.scheduledId != 0
  {
    hide Lives;
    LivesAwake(o, states, turns, n);
  }
}
