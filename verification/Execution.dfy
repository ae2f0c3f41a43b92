/** The execution state machine as functions: event application and transitions (internal/execution). */
module Execution {
  import opened Prelude
  import opened RetryPolicy
  import opened History

  datatype Status = Running | Completed | Failed | TimedOut | Canceled | Terminated | ContinuedAsNew

  const DEFAULT_TASK_TIMEOUT: Duration := 10 * SECOND
  const PENDING_RUN_ID := "<pending>"

  /** What event 1 fixes for the run, with its derived deadlines. */
  datatype Info = Info(
    workflowType: string, taskQueue: string, startedAt: Time, attempt: int, retry: Option<Policy>, seed: int,
    firstRunId: string, taskTimeout: Duration, runDeadline: Time, executionDeadline: Time)

  const NO_INFO := Info("", "", 0, 0, None, 0, "", 0, 0, 0)

  /** The at-most-one workflow task in flight; `scheduledId == 0` means there is none. */
  datatype Task = Task(
    scheduledId: int, startedId: int, attempt: int, scheduledAt: Time, startedAt: Time,
    deadline: Time, requestId: string, taskQueue: string, timeout: Duration)

  const NO_TASK := Task(0, 0, 0, 0, 0, 0, "", "", 0)

  datatype Activity = Activity(
    scheduledId: int, startedId: int, activityId: string, options: ActivityOptions, scheduledAt: Time,
    closeDeadline: Time, cancelRequested: bool, attempts: Attempt)

  /** The fields that belong to one attempt: a retry resets them without writing an event. */
  datatype Attempt = Attempt(
    number: int, startedAt: Time, deadline: Time, heartbeatDeadline: Time,
    heartbeat: Payload, requestId: string, lastFailure: Option<Failure>)

  const FIRST_ATTEMPT := Attempt(1, 0, 0, 0, NoPayload, "", None)

  datatype Timer = Timer(startedId: int, timerId: string, fireAt: Time)

  /** Pending work by the event that created it, and the user-visible IDs in use. */
  datatype Activities = Activities(byId: map<int, Activity>, ids: map<string, int>)
  datatype Timers = Timers(byId: map<int, Timer>, ids: map<string, int>)

  const NO_ACTIVITIES := Activities(map[], map[])
  const NO_TIMERS := Timers(map[], map[])

  datatype State = State(
    runId: string, events: seq<Event>, status: Status, closedAt: Time, info: Info,
    task: Task, activities: Activities, timers: Timers,
    signals: nat, cancelRequested: bool, cancelReason: string)

  function Empty(runId: string): State {
    State(runId, [], Running, 0, NO_INFO, NO_TASK, NO_ACTIVITIES, NO_TIMERS, 0, false, "")
  }

  predicate Scheduled(t: Task) { t.scheduledId != 0 && t.startedId == 0 }

  predicate Started(t: Task) { t.startedId != 0 }

  predicate Open(s: State) { s.status == Running }

  // ------------------------------------------------------------------
  // Event application: a pure function of state and event
  // ------------------------------------------------------------------

  predicate TaskEvent(a: Attrs) {
    a.TaskScheduled? || a.TaskStarted? || a.TaskCompleted? || a.TaskFailed? || a.TaskTimedOut?
  }

  predicate ActivityEvent(a: Attrs) {
    a.ActivityScheduled? || a.ActivityStarted? || a.ActivityCancelRequested? || ActivityCloser(a)
  }

  /** The four events that resolve an activity. */
  predicate ActivityCloser(a: Attrs) {
    a.ActivityCompleted? || a.ActivityFailed? || a.ActivityTimedOut? || a.ActivityCanceled?
  }

  predicate TimerEvent(a: Attrs) { a.TimerStarted? || TimerCloser(a) }

  predicate TimerCloser(a: Attrs) { a.TimerFired? || a.TimerCanceled? }

  function ApplyToTask(t: Task, ev: Event): Result<Task>
    requires TaskEvent(ev.attrs)
  {
    match ev.attrs
    case TaskScheduled(queue, timeout, attempt) =>
      if t.scheduledId != 0 then Err(ErrTaskPending)
      else Ok(Task(ev.id, 0, attempt, ev.time, 0, 0, "", queue, timeout))
    case TaskStarted(_, _, requestId) =>
      if !Scheduled(t) then Err(ErrNoTask)
      else Ok(t.(startedId := ev.id, startedAt := ev.time, requestId := requestId, deadline := ev.time + t.timeout))
    case _ => if !Started(t) then Err(ErrNoTask) else Ok(NO_TASK)
  }

  function NewActivity(id: int, time: Time, activityId: string, o: ActivityOptions): Activity {
    Activity(id, 0, activityId, o, time, Deadline(time, o.scheduleToClose), false, FIRST_ATTEMPT)
  }

  /** The attempt a started event opens: clocks it does not set keep their old value. */
  function OpenAttempt(a: Activity, time: Time, number: int, requestId: string): Attempt {
    a.attempts.(
      number := number, startedAt := time, requestId := requestId,
      deadline := if a.options.startToClose > 0 then time + a.options.startToClose else a.attempts.deadline,
      heartbeatDeadline := if a.options.heartbeat > 0 then time + a.options.heartbeat else a.attempts.heartbeatDeadline)
  }

  function ApplyToActivities(acts: Activities, ev: Event): Result<Activities>
    requires ActivityEvent(ev.attrs)
  {
    match ev.attrs
    case ActivityScheduled(aid, o, _) =>
      if aid in acts.ids then Err(ErrDuplicateId)
      else Ok(Activities(acts.byId[ev.id := NewActivity(ev.id, ev.time, aid, o)], acts.ids[aid := ev.id]))
    case ActivityStarted(sched, _, requestId, attempt, _) =>
      if sched !in acts.byId then Err(ErrNotPending)
      else if acts.byId[sched].startedId != 0 then Err(ErrNotHeld)
      else
        var a := acts.byId[sched];
        Ok(acts.(byId := acts.byId[sched :=
          a.(startedId := ev.id, attempts := OpenAttempt(a, ev.time, attempt, requestId))]))
    case ActivityCancelRequested(sched, _) =>
      if sched !in acts.byId then Err(ErrNotPending)
      else Ok(acts.(byId := acts.byId[sched := acts.byId[sched].(cancelRequested := true)]))
    case _ => CloseActivity(acts, ev.attrs.scheduledId)
  }

  function CloseActivity(acts: Activities, sched: int): Result<Activities> {
    if sched !in acts.byId then Err(ErrNotPending)
    else Ok(Activities(acts.byId - {sched}, acts.ids - {acts.byId[sched].activityId}))
  }

  function ApplyToTimers(timers: Timers, ev: Event): Result<Timers>
    requires TimerEvent(ev.attrs)
  {
    match ev.attrs
    case TimerStarted(tid, d, _) =>
      if tid in timers.ids then Err(ErrDuplicateId)
      else Ok(Timers(timers.byId[ev.id := Timer(ev.id, tid, ev.time + d)], timers.ids[tid := ev.id]))
    case _ => CloseTimer(timers, ev.attrs.startedId)
  }

  function CloseTimer(timers: Timers, st: int): Result<Timers> {
    if st !in timers.byId then Err(ErrNotPending)
    else Ok(Timers(timers.byId - {st}, timers.ids - {timers.byId[st].timerId}))
  }

  /** The status a terminal event leaves. */
  function StatusAfter(a: Attrs): Status {
    match a
    case ExecutionCompleted(_, _) => Completed
    case ExecutionFailed(_, _, _) => Failed
    case ExecutionTimedOut(_) => TimedOut
    case ExecutionCanceled(_, _) => Canceled
    case ExecutionTerminated(_) => Terminated
    case _ => ContinuedAsNew
  }

  /** Closing abandons everything still pending. */
  function Close(s: State, status: Status, at: Time): State {
    s.(status := status, closedAt := at, task := NO_TASK, activities := NO_ACTIVITIES, timers := NO_TIMERS)
  }

  function InfoFrom(runId: string, time: Time, st: StartAttrs): Info {
    Info(st.workflowType, st.taskQueue, time, st.attempt, st.retry, st.seed,
         if st.firstRunId == "" then runId else st.firstRunId, st.taskTimeout,
         Deadline(time, st.runTimeout), Deadline(time, st.executionTimeout))
  }

  /** The events that only touch run-level fields. */
  function ApplyToRun(s: State, ev: Event): Result<State>
    requires !TaskEvent(ev.attrs) && !ActivityEvent(ev.attrs) && !TimerEvent(ev.attrs)
  {
    match ev.attrs
    case ExecutionStarted(st) =>
      if s.events != [] then Err(ErrAlreadyStarted) else Ok(s.(info := InfoFrom(s.runId, ev.time, st)))
    case MarkerRecorded(_, _, _, _) => Ok(s)
    case Signaled(_, _) => Ok(s.(signals := s.signals + 1))
    case CancelRequested(reason) =>
      Ok(if s.cancelRequested then s else s.(cancelRequested := true, cancelReason := reason))
    case _ => Ok(Close(s, StatusAfter(ev.attrs), ev.time))
  }

  function Apply(s: State, ev: Event): Result<State> {
    if TaskEvent(ev.attrs) then
      match ApplyToTask(s.task, ev)
      case Ok(t) => Ok(s.(task := t))
      case Err(e) => Err(e)
    else if ActivityEvent(ev.attrs) then
      match ApplyToActivities(s.activities, ev)
      case Ok(a) => Ok(s.(activities := a))
      case Err(e) => Err(e)
    else if TimerEvent(ev.attrs) then
      match ApplyToTimers(s.timers, ev)
      case Ok(t) => Ok(s.(timers := t))
      case Err(e) => Err(e)
    else ApplyToRun(s, ev)
  }

  /** Applies an event, then records it: a rejected event leaves no trace. */
  function Record(s: State, ev: Event): Result<State> {
    match Apply(s, ev)
    case Ok(s') => Ok(s'.(events := s.events + [ev]))
    case Err(e) => Err(e)
  }

  /** Stamps `a` with the next ID and the clock, and records it. */
  function Append(s: State, a: Attrs, now: Time): Result<State> {
    if !Open(s) then Err(ErrClosed) else Record(s, Event(NextEventId(s.events), now, a))
  }

  /** The fold of a history, from the empty state. */
  function Replay(runId: string, h: seq<Event>): Result<State> {
    if h == [] then Ok(Empty(runId))
    else
      match Replay(runId, h[..|h| - 1])
      case Ok(s) => Record(s, h[|h| - 1])
      case Err(e) => Err(e)
  }

  /** Loading validates the history, then folds it. */
  function Rebuild(runId: string, h: seq<Event>): Result<State> {
    if ValidHistory(h) then Replay(runId, h) else Err(ErrInvalidHistory)
  }

  // ------------------------------------------------------------------
  // Transitions
  // ------------------------------------------------------------------

  /** Post-commit work, returned rather than performed. */
  datatype Effect =
    | DispatchTask(taskQueue: string, scheduledId: int)
    | DispatchActivity(taskQueue: string, scheduledId: int)
    | ArmTimer(eventId: int, fireAt: Time, taskQueue: string)
    | StartRun(start: StartAttrs, delay: Duration)

  datatype Step = Step(state: State, effects: seq<Effect>)

  /** Values drawn outside the history: recorded jitter, the successor's seed and a fresh identifier. */
  datatype Draw = Draw(jitter: real, seed: int, freshId: string)

  function Start(s: State, st: StartAttrs, now: Time): Result<State> {
    if s.events != [] then Err(ErrAlreadyStarted)
    else
      Append(s, ExecutionStarted(st.(
        attempt := if st.attempt == 0 then 1 else st.attempt,
        firstRunId := if st.firstRunId == "" then s.runId else st.firstRunId)), now)
  }

  /** Makes sure the workflow gets a turn; a task already outstanding is enough. */
  function ScheduleTask(s: State, now: Time): Result<Step> {
    if !Open(s) || s.task.scheduledId != 0 then Ok(Step(s, []))
    else
      var timeout := if s.info.taskTimeout <= 0 then DEFAULT_TASK_TIMEOUT else s.info.taskTimeout;
      match Append(s, TaskScheduled(s.info.taskQueue, timeout, 1), now)
      case Ok(s') => Ok(Step(s', [DispatchTask(s.info.taskQueue, NextEventId(s.events))]))
      case Err(e) => Err(e)
  }

  function AppendAndWake(s: State, a: Attrs, now: Time): Result<Step> {
    match Append(s, a, now)
    case Ok(s') => ScheduleTask(s', now)
    case Err(e) => Err(e)
  }

  function StartTask(s: State, identity: string, requestId: string, now: Time): Result<State> {
    if !Scheduled(s.task) then Err(ErrNoTask)
    else Append(s, TaskStarted(s.task.scheduledId, identity, requestId), now)
  }

  function FailTask(s: State, cause: string, now: Time): Result<Step> {
    if !Started(s.task) then Err(ErrNoTask)
    else AppendAndWake(s, TaskFailed(s.task.scheduledId, s.task.startedId, cause), now)
  }

  function TimeoutTask(s: State, now: Time): Result<Step> {
    if !Started(s.task) then Ok(Step(s, []))
    else AppendAndWake(s, TaskTimedOut(s.task.scheduledId, s.task.startedId), now)
  }

  function Signal(s: State, name: string, input: Payload, now: Time): Result<Step> {
    AppendAndWake(s, Signaled(name, input), now)
  }

  function RequestCancel(s: State, reason: string, now: Time): Result<Step> {
    if s.cancelRequested then Ok(Step(s, [])) else AppendAndWake(s, CancelRequested(reason), now)
  }

  function Terminate(s: State, reason: string, now: Time): Result<State> {
    Append(s, ExecutionTerminated(reason), now)
  }

  function TimeoutExecution(s: State, kind: TimeoutKind, now: Time): Result<State> {
    Append(s, ExecutionTimedOut(kind), now)
  }

  /** Firing a timer that was cancelled meanwhile is a silent no-op. */
  function FireTimer(s: State, st: int, now: Time): Result<Step> {
    if st !in s.timers.byId then Ok(Step(s, []))
    else AppendAndWake(s, TimerFired(s.timers.byId[st].timerId, st), now)
  }

  // ----- activities -----

  function StartActivity(s: State, sched: int, identity: string, requestId: string, jitter: real, now: Time): Result<State> {
    if sched !in s.activities.byId then Err(ErrNotPending)
    else
      var a := s.activities.byId[sched];
      if a.startedId != 0 then
        // a poll retried with the same request ID gets the same answer
        if Get(s.events, a.startedId).Some? && a.attempts.requestId == requestId then Ok(s) else Err(ErrNotHeld)
      else Append(s, ActivityStarted(sched, identity, requestId, a.attempts.number, jitter), now)
  }

  function CompleteActivity(s: State, sched: int, result: Payload, now: Time): Result<Step> {
    if sched !in s.activities.byId then Err(ErrNotPending)
    else if s.activities.byId[sched].startedId == 0 then Err(ErrNotHeld)
    else AppendAndWake(s, ActivityCompleted(sched, s.activities.byId[sched].startedId, result), now)
  }

  function CancelActivity(s: State, sched: int, details: Payload, now: Time): Result<Step> {
    if sched !in s.activities.byId then Err(ErrNotPending)
    else AppendAndWake(s, ActivityCanceled(sched, s.activities.byId[sched].startedId, details), now)
  }

  /** The jitter recorded on the started event, or 0 when there is none. */
  function StartedJitter(s: State, startedId: int): real {
    var ev := Get(s.events, startedId);
    if ev.Some? && ev.value.attrs.ActivityStarted? then ev.value.attrs.jitter else 0.0
  }

  /** The delay before another attempt, unless the policy or the schedule-to-close budget forbids one. */
  function RetryDelay(s: State, a: Activity, failure: Failure, now: Time): (r: Option<Duration>)
    ensures r.Some? && a.options.retry.Some? && a.options.retry.value.maxAttempts > 0
            ==> a.attempts.number + 1 <= a.options.retry.value.maxAttempts
    ensures r.Some? && a.closeDeadline != 0 ==> now + r.value <= a.closeDeadline
  {
    var delay := ShouldRetry(a.options.retry, a.attempts.number, failure, StartedJitter(s, a.startedId));
    if delay.Some? && a.closeDeadline != 0 && now + delay.value > a.closeDeadline then None else delay
  }

  function PutActivity(s: State, sched: int, a: Activity): State {
    s.(activities := s.activities.(byId := s.activities.byId[sched := a]))
  }

  /** Retry writes no event: the activity stays pending with its attempt reset. */
  function RetryActivity(s: State, a: Activity, failure: Failure, delay: Duration, now: Time): Step {
    Step(PutActivity(s, a.scheduledId, a.(startedId := 0, attempts := a.attempts.(
           number := a.attempts.number + 1, startedAt := 0, deadline := 0, heartbeatDeadline := 0,
           requestId := "", lastFailure := Some(failure)))),
         [ArmTimer(a.scheduledId, now + delay, a.options.taskQueue)])
  }

  function FailActivity(s: State, sched: int, failure: Failure, now: Time): Result<Step> {
    if sched !in s.activities.byId then Err(ErrNotPending)
    else
      var a := s.activities.byId[sched];
      if a.startedId == 0 then Err(ErrNotHeld)
      else
        match RetryDelay(s, a, failure, now)
        case Some(delay) => Ok(RetryActivity(s, a, failure, delay, now))
        case None =>
          var exhausted := a.options.retry.Some? && a.options.retry.value.maxAttempts > 0
                           && a.attempts.number >= a.options.retry.value.maxAttempts;
          AppendAndWake(s, ActivityFailed(sched, a.startedId, Some(failure),
            if exhausted then MaximumAttemptsReached else NonRetryableFailure), now)
  }

  /** A schedule-to-close expiry is the outer budget, so it is never retried. */
  function TimeoutFailure(kind: TimeoutKind): Failure {
    Failure("TimeoutError:" + TimeoutName(kind), "skald: activity timed out (" + TimeoutName(kind) + ")",
            kind == ScheduleToClose)
  }

  function TimeoutActivity(s: State, sched: int, kind: TimeoutKind, now: Time): Result<Step> {
    if sched !in s.activities.byId then Err(ErrNotPending)
    else
      var a := s.activities.byId[sched];
      match RetryDelay(s, a, TimeoutFailure(kind), now)
      case Some(delay) => Ok(RetryActivity(s, a, TimeoutFailure(kind), delay, now))
      case None => AppendAndWake(s, ActivityTimedOut(sched, a.startedId, kind, a.attempts.heartbeat), now)
  }

  /** Extends the heartbeat clock and keeps the checkpoint; writes no event. */
  function RecordHeartbeat(s: State, sched: int, details: Payload, now: Time): Result<State> {
    if sched !in s.activities.byId then Err(ErrNotPending)
    else
      var a := s.activities.byId[sched];
      if a.startedId == 0 then Err(ErrNotHeld)
      else Ok(PutActivity(s, sched, a.(attempts := a.attempts.(
        heartbeat := details,
        heartbeatDeadline := if a.options.heartbeat > 0 then now + a.options.heartbeat
                             else a.attempts.heartbeatDeadline))))
  }

  // ----- workflow task completion -----

  /** The batch is checked against the state before any event is written. */
  predicate Precheck(s: State, cmds: seq<Command>) {
    forall i :: 0 <= i < |cmds| ==> PrecheckAt(s, cmds, i)
  }

  predicate PrecheckAt(s: State, cmds: seq<Command>, i: nat)
    requires i < |cmds|
  {
    match cmds[i]
    case ScheduleActivity(aid, _) => aid !in s.activities.ids && aid !in ActivityIdsIn(cmds[..i])
    case StartTimer(tid, _) => tid !in s.timers.ids && tid !in TimerIdsIn(cmds[..i])
    case CancelTimer(st) => st in s.timers.byId
    case RequestCancelActivity(sched) => sched in s.activities.byId
    case _ => true
  }

  function ActivityIdsIn(cmds: seq<Command>): set<string> {
    set c | c in cmds && c.ScheduleActivity? :: c.activityId
  }

  function TimerIdsIn(cmds: seq<Command>): set<string> {
    set c | c in cmds && c.StartTimer? :: c.timerId
  }

  lemma IdsInAppend(cmds: seq<Command>, c: Command)
    ensures ActivityIdsIn(cmds + [c]) == ActivityIdsIn(cmds) + (if c.ScheduleActivity? then {c.activityId} else {})
    ensures TimerIdsIn(cmds + [c]) == TimerIdsIn(cmds) + (if c.StartTimer? then {c.timerId} else {})
  {
    assert forall x :: x in cmds + [c] <==> x in cmds || x == c;
  }

  function Started1(h: seq<Event>): Option<StartAttrs> {
    if h != [] && h[0].attrs.ExecutionStarted? then Some(h[0].attrs.start) else None
  }

  /** The start attributes of the run that follows this one; event 1 supplies what the state does not keep. */
  function SuccessorAttrs(s: State, input: Payload, attempt: int, seed: int): StartAttrs {
    var started := Started1(s.events);
    var zero := StartAttrs("", "", NoPayload, 0, 0, 0, None, 0, "", "", 0);
    var first := if started.Some? then started.value else zero;
    StartAttrs(s.info.workflowType, s.info.taskQueue, if input == NoPayload then first.input else input,
               first.runTimeout, first.executionTimeout, first.taskTimeout,
               s.info.retry, attempt, s.runId, s.info.firstRunId, seed)
  }

  /** Whether a failing run is retried as a new one, and with which recorded reason. */
  function FailureVerdict(s: State, failure: Failure, draw: Draw, now: Time): (RetryState, Option<Duration>) {
    if s.info.retry.None? then (RetryPolicyNotSet, None)
    else
      var p := s.info.retry.value;
      match ShouldRetry(s.info.retry, s.info.attempt, failure, draw.jitter)
      case Some(delay) =>
        if s.info.executionDeadline == 0 || now + delay < s.info.executionDeadline
        then (InProgress, Some(delay)) else (RetryTimeout, None)
      case None =>
        (if p.maxAttempts > 0 && s.info.attempt >= p.maxAttempts then MaximumAttemptsReached
         else NonRetryableFailure, None)
  }

  function OrElse(s: string, default: string): string { if s == "" then default else s }

  function SuccessorOf(s: State, c: Command, seed: int): StartAttrs
    requires c.ContinueAsNew?
  {
    var base := SuccessorAttrs(s, c.input, 1, seed);
    base.(workflowType := OrElse(c.workflowType, s.info.workflowType),
          taskQueue := OrElse(c.taskQueue, s.info.taskQueue),
          runTimeout := c.runTimeout, taskTimeout := c.taskTimeout,
          retry := if c.retry.Some? then c.retry else base.retry)
  }

  /** The event a command turns into. */
  function EventFor(s: State, c: Command, decision: int, draw: Draw, now: Time): Attrs
    requires c.CancelTimer? ==> c.startedId in s.timers.byId
    requires c.FailWorkflow? ==> c.failure.Some?
  {
    match c
    case ScheduleActivity(aid, o) =>
      ActivityScheduled(aid, o.(taskQueue := OrElse(o.taskQueue, s.info.taskQueue),
        retry := if o.retry.Some? then o.retry else Some(DEFAULT_POLICY)), decision)
    case RequestCancelActivity(sched) => ActivityCancelRequested(sched, decision)
    case StartTimer(tid, d) => TimerStarted(tid, d, decision)
    case CancelTimer(st) => TimerCanceled(s.timers.byId[st].timerId, st, decision)
    case RecordMarker(k, details, failure) => MarkerRecorded(k, details, failure, decision)
    case CompleteWorkflow(result) => ExecutionCompleted(result, decision)
    case FailWorkflow(failure) => ExecutionFailed(failure, decision, FailureVerdict(s, failure.value, draw, now).0)
    case CancelWorkflow(details) => ExecutionCanceled(details, decision)
    case ContinueAsNew(_, _, input, _, _, _) =>
      var next := SuccessorOf(s, c, draw.seed);
      ExecutionContinuedAsNew(PENDING_RUN_ID, next.workflowType, next.taskQueue, input,
                              next.runTimeout, next.taskTimeout, next.retry, decision)
  }

  /** The post-commit work a command asks for, given the state before it and its event. */
  function EffectsFor(s: State, c: Command, ev: Event, draw: Draw): seq<Effect>
    requires c.FailWorkflow? ==> c.failure.Some?
  {
    match c
    case ScheduleActivity(_, o) => [DispatchActivity(OrElse(o.taskQueue, s.info.taskQueue), ev.id)]
    case StartTimer(_, d) => [ArmTimer(ev.id, ev.time + d, "")]
    case FailWorkflow(failure) =>
      var delay := FailureVerdict(s, failure.value, draw, ev.time).1;
      if delay.Some? then [StartRun(SuccessorAttrs(s, NoPayload, s.info.attempt + 1, draw.seed), delay.value)] else []
    case ContinueAsNew(_, _, _, _, _, _) => [StartRun(SuccessorOf(s, c, draw.seed), 0)]
    case _ => []
  }

  /** What applying a batch leaves behind; `Crashed` is the nil dereference of a timer that is gone. */
  datatype Completion =
    | Applied(step: Step)
    | Refused(error: Error)
    | Crashed(debris: State)
    | Torn(debris: State, error: Error)

  function ApplyCommand(s: State, c: Command, decision: int, draw: Draw, now: Time): Completion
    requires c.FailWorkflow? ==> c.failure.Some?
  {
    if c.CancelTimer? && c.startedId !in s.timers.byId then Crashed(s)
    else
      match Append(s, EventFor(s, c, decision, draw, now), now)
      case Ok(s') => Applied(Step(s', EffectsFor(s, c, Event(NextEventId(s.events), now, EventFor(s, c, decision, draw, now)), draw)))
      case Err(e) => Torn(s, e)
  }

  /** Every failing command carries its failure. */
  predicate FailuresNamed(cmds: seq<Command>) {
    forall c :: c in cmds && c.FailWorkflow? ==> c.failure.Some?
  }

  function ApplyCommands(s: State, cmds: seq<Command>, decision: int, draw: Draw, now: Time): Completion
    requires FailuresNamed(cmds)
    decreases |cmds|
  {
    if cmds == [] then Applied(Step(s, []))
    else
      match ApplyCommand(s, cmds[0], decision, draw, now)
      case Applied(step) =>
        (match ApplyCommands(step.state, cmds[1..], decision, draw, now)
         case Applied(rest) => Applied(Step(rest.state, step.effects + rest.effects))
         case other => other)
      case other => other
  }

  function CompleteTask(s: State, identity: string, cmds: seq<Command>, draw: Draw, now: Time): Completion {
    if !Started(s.task) then Refused(ErrNoTask)
    else if !ValidBatch(cmds) || !Precheck(s, cmds) then Refused(ErrInvalidCommand)
    else
      match Append(s, TaskCompleted(s.task.scheduledId, s.task.startedId, identity), now)
      case Ok(s') => ApplyCommands(s', NormalizeBatch(cmds), NextEventId(s.events), draw, now)
      case Err(e) => Refused(e)
  }

  /** Names the successor in the closing event, which is still uncommitted. */
  function PatchRunId(s: State, newRunId: string): Result<State> {
    if s.events == [] || !s.events[|s.events| - 1].attrs.ExecutionContinuedAsNew? then Err(ErrNotPatchable)
    else
      var last := s.events[|s.events| - 1];
      Ok(s.(events := s.events[|s.events| - 1 := last.(attrs := last.attrs.(newRunId := newRunId))]))
  }
}
