/** The engine's transition bodies: one request against one loaded state (internal/engine). */
module Engine {
  import opened Prelude
  import opened History
  import opened Execution

  // ------------------------------------------------------------------
  // The due-time index of one run
  // ------------------------------------------------------------------

  datatype TimerKind =
    | UserTimer | ActivityRetryTimer | ActivityTimeoutTimer | TaskTimeoutTimer | ExecutionTimeoutTimer | WorkflowRetryTimer

  datatype TimerKey = TimerKey(eventId: int, kind: TimerKind)

  datatype TimerRow = TimerRow(fireAt: Time, attempt: int, taskQueue: string)

  type Index = map<TimerKey, TimerRow>

  // ------------------------------------------------------------------
  // The four clocks of an activity
  // ------------------------------------------------------------------

  /** The smaller of two instants, where 0 means unset. */
  function Sooner(a: Time, b: Time): Time {
    if a == 0 then b else if b == 0 then a else if b < a then b else a
  }

  /** A worker holds the attempt exactly when it carries a request ID. */
  predicate Held(a: Activity) { a.attempts.requestId != "" }

  /** Schedule-to-start bounds the first attempt only. */
  function StartBound(a: Activity): Time {
    if a.options.scheduleToStart > 0 && a.attempts.number <= 1 then a.scheduledAt + a.options.scheduleToStart else 0
  }

  /** The next instant at which the activity must be looked at, or 0. */
  function ActivityDeadline(a: Activity): Time {
    if Held(a) then Sooner(Sooner(a.attempts.deadline, a.attempts.heartbeatDeadline), a.closeDeadline)
    else Sooner(Sooner(StartBound(a), a.attempts.deadline), a.closeDeadline)
  }

  predicate Expired(t: Time, now: Time) { t != 0 && t <= now }

  /** Which clock ran out, innermost first. */
  function ExpiredTimeout(a: Activity, now: Time): TimeoutKind {
    if Held(a) && Expired(a.attempts.heartbeatDeadline, now) then Heartbeat
    else if Held(a) && Expired(a.attempts.deadline, now) then StartToClose
    else if !Held(a) && Expired(a.attempts.deadline, now) then ScheduleToStart
    else if !Held(a) && a.options.scheduleToStart > 0 && a.attempts.number <= 1
            && Expired(a.scheduledAt + a.options.scheduleToStart, now) then ScheduleToStart
    else if Expired(a.closeDeadline, now) then ScheduleToClose
    else Unspecified
  }

  // ------------------------------------------------------------------
  // Requests and what they report to the write path
  // ------------------------------------------------------------------

  datatype Request =
    | SignalRun(name: string, input: Payload)
    | CancelRun(reason: string)
    | TerminateRun(reason: string)
    | PollTask(scheduledId: int, identity: string, requestId: string)
    | RespondTask(identity: string, commands: seq<Command>)
    | RespondTaskFailed(identity: string, cause: string)
    | PollActivity(scheduledId: int, attempt: int, identity: string, requestId: string)
    | RespondActivityCompleted(scheduledId: int, result: Payload)
    | RespondActivityFailed(scheduledId: int, failure: Option<Failure>)
    | RespondActivityCanceled(scheduledId: int, details: Payload)
    | HeartbeatActivity(scheduledId: int, details: Payload)
    | TimerDue(key: TimerKey, row: TimerRow)

  datatype Successor = Successor(runId: string, start: StartAttrs, delay: Duration)

  /** The new state, the post-commit effects, and the index entries the state does not imply. */
  datatype Outcome = Outcome(
    state: State, effects: seq<Effect>, rows: Index, drops: seq<TimerKey>, successor: Option<Successor>)

  /** `Crash` is a panic inside the transition: the request dies with the state half changed. */
  datatype Verdict = Noop | Rejected(error: Error) | Crash | Write(out: Outcome)

  /** A transition result with no index entry of its own. */
  function Plain(r: Result<Step>, drops: seq<TimerKey>): Verdict {
    match r
    case Ok(step) => Write(Outcome(step.state, step.effects, RetryRows(step.state, step.effects), drops, None))
    case Err(e) => Rejected(e)
  }

  function Quiet(r: Result<State>): Result<Step> {
    match r
    case Ok(s) => Ok(Step(s, []))
    case Err(e) => Err(e)
  }

  /** Index entries for the effects whose schedule the state cannot reproduce: activity backoffs. */
  function RetryRows(s: State, effects: seq<Effect>): Index {
    if effects == [] then map[]
    else
      var rest := RetryRows(s, effects[..|effects| - 1]);
      var e := effects[|effects| - 1];
      if e.ArmTimer? && e.eventId !in s.timers.byId && e.eventId in s.activities.byId then
        var a := s.activities.byId[e.eventId];
        rest[TimerKey(e.eventId, ActivityRetryTimer) :=
          TimerRow(e.fireAt, a.attempts.number, OrElse(e.taskQueue, a.options.taskQueue))]
      else rest
  }

  /** The identity recorded on the started event must not be someone else's. */
  predicate OwnsTask(s: State, identity: string) {
    && Open(s)
    && Started(s.task)
    && (identity != "" ==>
        var ev := Get(s.events, s.task.startedId);
        !(ev.Some? && ev.value.attrs.TaskStarted? && ev.value.attrs.identity != "" && ev.value.attrs.identity != identity))
  }

  /** Completes a task and, when something arrived while the worker was thinking, schedules the next one. */
  function RespondWithCommands(s: State, cmds: seq<Command>, identity: string, draw: Draw, now: Time): Completion {
    var buffered := NextEventId(s.events) - s.task.startedId > 1;
    match CompleteTask(s, identity, cmds, draw, now)
    case Applied(step) =>
      if buffered && Open(step.state) then
        match ScheduleTask(step.state, now)
        case Ok(more) => Applied(Step(more.state, step.effects + more.effects))
        case Err(e) => Torn(step.state, e)
      else Applied(step)
    case other => other
  }

  function SuccessorRunId(s: State): string {
    if s.events != [] && s.events[|s.events| - 1].attrs.ExecutionContinuedAsNew?
    then s.events[|s.events| - 1].attrs.newRunId else ""
  }

  /** Names the successor, turns its effect into a plan, and keeps the other effects. */
  function Finalize(step: Step, draw: Draw): Verdict {
    var runs := RunsIn(step.effects);
    if |runs| > 1 then Rejected(ErrInvalidCommand)
    else if runs == [] then
      Write(Outcome(step.state, step.effects, RetryRows(step.state, step.effects), [], None))
    else
      var patched := if SuccessorRunId(step.state) == PENDING_RUN_ID then PatchRunId(step.state, draw.freshId) else Ok(step.state);
      match patched
      case Err(e) => Rejected(e)
      case Ok(s) =>
        var named := SuccessorRunId(s);
        var runId := if named == "" || named == PENDING_RUN_ID then draw.freshId else named;
        Write(Outcome(s, OthersIn(step.effects), RetryRows(s, OthersIn(step.effects)), [],
                      Some(Successor(runId, runs[0].start, runs[0].delay))))
  }

  function RunsIn(effects: seq<Effect>): (r: seq<Effect>)
    ensures forall e :: e in r ==> e.StartRun?
  {
    if effects == [] then []
    else RunsIn(effects[..|effects| - 1]) + (if effects[|effects| - 1].StartRun? then [effects[|effects| - 1]] else [])
  }

  function OthersIn(effects: seq<Effect>): (r: seq<Effect>)
    ensures forall e :: e in r ==> !e.StartRun?
  {
    if effects == [] then []
    else OthersIn(effects[..|effects| - 1]) + (if effects[|effects| - 1].StartRun? then [] else [effects[|effects| - 1]])
  }

  /** The attempt a poll opens without an event of its own. */
  function BeginRetryAttempt(a: Activity, attempt: int, requestId: string, now: Time): Activity {
    a.(attempts := a.attempts.(
      number := if attempt > a.attempts.number then attempt else a.attempts.number,
      requestId := requestId, startedAt := now,
      deadline := Deadline(now, a.options.startToClose),
      heartbeatDeadline := Deadline(now, a.options.heartbeat)))
  }

  function StartActivityTask(s: State, sched: int, attempt: int, identity: string, requestId: string, draw: Draw, now: Time): Verdict {
    var drops := [TimerKey(sched, ActivityRetryTimer)];
    if !Open(s) || sched !in s.activities.byId then Noop
    else
      var a := s.activities.byId[sched];
      if a.startedId == 0 then Plain(Quiet(StartActivity(s, sched, identity, requestId, draw.jitter, now)), drops)
      else if attempt > a.attempts.number || (attempt == a.attempts.number && !Held(a)) then
        Plain(Ok(Step(PutActivity(s, sched, BeginRetryAttempt(a, attempt, requestId, now)), [])), drops)
      else Noop
  }

  /** Re-attaches the only started event an activity ever has, which the retry transition cleared. */
  function RestoreStarted(s: State, sched: int, startedId: int): State {
    if sched in s.activities.byId && startedId != 0 && s.activities.byId[sched].startedId == 0
    then PutActivity(s, sched, s.activities.byId[sched].(startedId := startedId)) else s
  }

  function Restoring(r: Result<Step>, sched: int, startedId: int): Result<Step> {
    match r
    case Ok(step) => Ok(Step(RestoreStarted(step.state, sched, startedId), step.effects))
    case Err(e) => Err(e)
  }

  predicate OwnsActivity(s: State, sched: int) {
    sched in s.activities.byId && Held(s.activities.byId[sched])
  }

  const REDISPATCH: Duration := 60 * 1_000_000_000

  /** A backed-off attempt becomes pollable again, bounded by a dispatch watchdog. */
  function RedispatchActivity(s: State, key: TimerKey, row: TimerRow, now: Time): Verdict {
    if !Open(s) || key.eventId !in s.activities.byId then Noop
    else
      var a := s.activities.byId[key.eventId];
      if row.attempt < a.attempts.number || (row.attempt == a.attempts.number && Held(a)) then Noop
      else
        var s' := PutActivity(s, key.eventId, a.(attempts := a.attempts.(
          number := row.attempt, requestId := "", heartbeatDeadline := 0, deadline := now + REDISPATCH)));
        Plain(Ok(Step(s', [DispatchActivity(OrElse(row.taskQueue, a.options.taskQueue), key.eventId)])), [key])
  }

  function TimeoutActivityTask(s: State, key: TimerKey, row: TimerRow, now: Time): Verdict {
    if !Open(s) || key.eventId !in s.activities.byId || row.attempt < s.activities.byId[key.eventId].attempts.number then Noop
    else
      var a := s.activities.byId[key.eventId];
      // the entry may know about an attempt a rebuilt state does not
      var a' := if row.attempt > a.attempts.number then a.(attempts := a.attempts.(number := row.attempt)) else a;
      var s' := PutActivity(s, key.eventId, a');
      var kind := ExpiredTimeout(a', now);
      if kind == Unspecified then Plain(Ok(Step(s', [])), [key])
      else Plain(Restoring(TimeoutActivity(s', key.eventId, kind, now), key.eventId, a.startedId), [key])
  }

  function TimeoutWorkflowTask(s: State, key: TimerKey, now: Time): Verdict {
    if !Open(s) || !Started(s.task) || s.task.startedId != key.eventId then Noop
    else if s.task.deadline != 0 && now < s.task.deadline then Plain(Ok(Step(s, [])), [key])
    else Plain(TimeoutTask(s, now), [key])
  }

  function TimeoutRun(s: State, key: TimerKey, now: Time): Verdict {
    if !Open(s) then Noop
    else if Expired(s.info.executionDeadline, now) then Plain(Quiet(TimeoutExecution(s, ScheduleToClose, now)), [key])
    else if Expired(s.info.runDeadline, now) then Plain(Quiet(TimeoutExecution(s, StartToClose, now)), [key])
    else Noop
  }

  function OnTimer(s: State, key: TimerKey, row: TimerRow, now: Time): Verdict {
    match key.kind
    case UserTimer => if !Open(s) then Noop else Plain(FireTimer(s, key.eventId, now), [key])
    case ActivityRetryTimer => RedispatchActivity(s, key, row, now)
    case ActivityTimeoutTimer => TimeoutActivityTask(s, key, row, now)
    case TaskTimeoutTimer => TimeoutWorkflowTask(s, key, now)
    case ExecutionTimeoutTimer => TimeoutRun(s, key, now)
    case WorkflowRetryTimer => if !Open(s) then Noop else Plain(ScheduleTask(s, now), [key])
  }

  function Handle(s: State, req: Request, draw: Draw, now: Time): Verdict {
    match req
    case SignalRun(name, input) =>
      if name == "" || !Open(s) then Rejected(ErrClosed) else Plain(Signal(s, name, input, now), [])
    case CancelRun(reason) => if !Open(s) then Rejected(ErrClosed) else Plain(RequestCancel(s, reason, now), [])
    case TerminateRun(reason) => if !Open(s) then Rejected(ErrClosed) else Plain(Quiet(Terminate(s, reason, now)), [])
    case PollTask(sched, identity, requestId) =>
      if !Open(s) || !Scheduled(s.task) || s.task.scheduledId != sched then Noop
      else Plain(Quiet(StartTask(s, identity, OrElse(requestId, draw.freshId), now)), [])
    case RespondTask(identity, cmds) =>
      if !OwnsTask(s, identity) then Rejected(ErrNoTask)
      else
        (match RespondWithCommands(s, cmds, identity, draw, now)
         case Applied(step) => Finalize(step, draw)
         case Refused(e) => Rejected(e)
         case Crashed(_) => Crash
         case Torn(_, e) => Rejected(e))
    case RespondTaskFailed(identity, cause) =>
      if !OwnsTask(s, identity) then Rejected(ErrNoTask) else Plain(FailTask(s, cause, now), [])
    case PollActivity(sched, attempt, identity, requestId) =>
      StartActivityTask(s, sched, attempt, identity, OrElse(requestId, draw.freshId), draw, now)
    case RespondActivityCompleted(sched, result) =>
      if !OwnsActivity(s, sched) then Rejected(ErrNotHeld) else Plain(CompleteActivity(s, sched, result, now), [])
    case RespondActivityFailed(sched, failure) =>
      if failure.None? || !OwnsActivity(s, sched) then Rejected(ErrNotHeld)
      else Plain(Restoring(FailActivity(s, sched, failure.value, now), sched, s.activities.byId[sched].startedId), [])
    case RespondActivityCanceled(sched, details) => Plain(CancelActivity(s, sched, details, now), [])
    case HeartbeatActivity(sched, details) =>
      if !OwnsActivity(s, sched) then Rejected(ErrNotHeld) else Plain(Quiet(RecordHeartbeat(s, sched, details, now)), [])
    case TimerDue(key, row) => OnTimer(s, key, row, now)
  }

  // ------------------------------------------------------------------
  // Creating a run
  // ------------------------------------------------------------------

  /** How a run begins: an ordinary start, a signal-with-start, or a retry serving its backoff. */
  datatype Birth = Immediate | WithSignal(name: string, input: Payload) | Deferred(delay: Duration)

  function Create(runId: string, st: StartAttrs, birth: Birth, now: Time): Result<Step> {
    match Start(Empty(runId), st, now)
    case Err(e) => Err(e)
    case Ok(s) =>
      match birth
      case Deferred(_) => Ok(Step(s, []))
      case Immediate => ScheduleTask(s, now)
      case WithSignal(name, input) =>
        match Signal(s, name, input, now)
        case Err(e) => Err(e)
        case Ok(step) =>
          match ScheduleTask(step.state, now)
          case Err(e) => Err(e)
          case Ok(more) => Ok(Step(more.state, step.effects + more.effects))
  }
}
