/** What every request writes, event by event, stated on the request's own fields and the state before it. */
module Written {
  import opened Prelude
  import opened RetryPolicy
  import opened History
  import opened Execution
  import opened Durability
  import opened Engine
  import opened Rebuilding

  /** `attrs` were recorded next, in order, at `now`. */
  ghost predicate Appended(s: State, t: State, attrs: seq<Attrs>, now: Time) {
    && |t.events| == |s.events| + |attrs| && s.events <= t.events
    && forall i :: 0 <= i < |attrs| ==> t.events[|s.events| + i] == Event(|s.events| + i + 1, now, attrs[i])
  }

  /** A workflow task for the run's own queue, with its own timeout or ten seconds. */
  function NextTask(s: State): Attrs {
    TaskScheduled(s.info.taskQueue, if s.info.taskTimeout > 0 then s.info.taskTimeout else 10_000_000_000, 1)
  }

  /** What goes out beside the state: the effects, the index rows the state does not imply, and no successor. */
  predicate Reports(out: Outcome, effects: seq<Effect>, rows: Index) {
    out.effects == effects && out.rows == rows && out.successor == None
  }

  /** `a` was recorded, and behind it a task unless one was outstanding and stays so; a new task is dispatched. */
  ghost predicate Woken(s: State, out: Outcome, a: Attrs, now: Time) {
    if s.task.scheduledId == 0 || a.TaskFailed? || a.TaskTimedOut? then
      && Appended(s, out.state, [a, NextTask(s)], now)
      && Reports(out, [DispatchTask(s.info.taskQueue, |s.events| + 2)], map[])
    else Silent(s, out, a, now)
  }

  /** Exactly `a` was recorded, and nothing is dispatched. */
  ghost predicate Silent(s: State, out: Outcome, a: Attrs, now: Time) {
    Appended(s, out.state, [a], now) && Reports(out, [], map[])
  }

  /** Nothing was recorded, changed or dispatched. */
  predicate Still(s: State, out: Outcome) { out.state == s && Reports(out, [], map[]) }

  /** No event; activity `k` alone is different. */
  predicate Patched(s: State, out: Outcome, k: int, b: Attempt)
    requires k in s.activities.byId
  {
    out.state == s.(activities := s.activities.(byId := s.activities.byId[k := s.activities.byId[k].(attempts := b)]))
  }

  predicate Due(t: Time, now: Time) { t != 0 && t <= now }

  /** The clock that is due, innermost first: heartbeat and start-to-close for an attempt a worker holds, schedule-to-start for
      one that waits, and the outer budget last. */
  predicate DueClock(a: Activity, now: Time, kind: TimeoutKind) {
    var held := a.attempts.requestId != "";
    var beat := held && Due(a.attempts.heartbeatDeadline, now);
    var close := held && !beat && Due(a.attempts.deadline, now);
    var wait := !held && (Due(a.attempts.deadline, now)
                          || (a.options.scheduleToStart > 0 && a.attempts.number <= 1 && Due(a.scheduledAt + a.options.scheduleToStart, now)));
    && (kind == Heartbeat <==> beat)
    && (kind == StartToClose <==> close)
    && (kind == ScheduleToStart <==> wait)
    && (kind == ScheduleToClose <==> !beat && !close && !wait && Due(a.closeDeadline, now))
  }

  /** The activity goes on with its next attempt: no event, the attempt counted up and reset, the failure kept, and a timer for
      the granted delay. */
  predicate Rearms(s: State, out: Outcome, k: int, a: Activity, failure: Failure, delay: Duration, now: Time)
    requires k in s.activities.byId
  {
    && Patched(s, out, k, Attempt(a.attempts.number + 1, 0, 0, 0, a.attempts.heartbeat, "", Some(failure)))
    && Reports(out, [ArmTimer(k, now + delay, a.options.taskQueue)],
               map[TimerKey(k, ActivityRetryTimer) := TimerRow(now + delay, a.attempts.number + 1, a.options.taskQueue)])
  }

  function PolicyOf(a: Activity): Policy { if a.options.retry.Some? then a.options.retry.value else DEFAULT_POLICY }

  /** The failure forbids a retry by itself, by its type, or because the attempts are used up. */
  predicate Final(a: Activity, f: Failure) {
    || f.nonRetryable
    || (f.typ != "" && f.typ in PolicyOf(a).nonRetryable)
    || (0 < PolicyOf(a).maxAttempts <= a.attempts.number)
  }

  /** The jitter its started event recorded, which every backoff of the activity uses. */
  function RecordedJitter(s: State, a: Activity): real {
    if 1 <= a.startedId <= |s.events| && s.events[a.startedId - 1].attrs.ActivityStarted?
    then s.events[a.startedId - 1].attrs.jitter else 0.0
  }

  /** The activity may go on after `delay`: the failure is not final and the wait ends within the outer budget. */
  predicate Grants(s: State, a: Activity, f: Failure, now: Time, delay: Duration) {
    && !Final(a, f)
    && delay == Backoff(PolicyOf(a), a.attempts.number, RecordedJitter(s, a))
    && (a.closeDeadline == 0 || now + delay <= a.closeDeadline)
  }

  /** Why an attempt that is not retried was the last. */
  predicate LastBecause(a: Activity, state: RetryState) {
    var spent := a.options.retry.Some? && 0 < a.options.retry.value.maxAttempts <= a.attempts.number;
    state == if spent then MaximumAttemptsReached else NonRetryableFailure
  }

  /** The failure a timeout counts as; only the outer budget is final. */
  function CountsAs(kind: TimeoutKind): Failure {
    Failure("TimeoutError:" + TimeoutName(kind), "skald: activity timed out (" + TimeoutName(kind) + ")", kind == ScheduleToClose)
  }

  function Fresh(given: string, draw: Draw): string { if given != "" then given else draw.freshId }

  // ------------------------------------------------------------------
  // Which requests are taken, and what they write
  // ------------------------------------------------------------------

  /** The started event names nobody, or the one who answers. */
  predicate Answerable(s: State, identity: string) {
    && Open(s) && s.task.startedId != 0
    && (identity != "" && 1 <= s.task.startedId <= |s.events| && s.events[s.task.startedId - 1].attrs.TaskStarted? ==>
          s.events[s.task.startedId - 1].attrs.identity in {"", identity})
  }

  predicate HeldStarted(s: State, k: int) {
    k in s.activities.byId && s.activities.byId[k].attempts.requestId != "" && s.activities.byId[k].startedId != 0
  }

  /** The requests, other than a worker's task response, that are not refused or ignored. */
  predicate Admits(s: State, req: Request, now: Time) {
    match req
    case SignalRun(name, _) => name != "" && Open(s)
    case CancelRun(_) => Open(s)
    case TerminateRun(_) => Open(s)
    case PollTask(sched, _, _) => Open(s) && sched != 0 && s.task.scheduledId == sched && s.task.startedId == 0
    case RespondTask(_, _) => false
    case RespondTaskFailed(identity, _) => Answerable(s, identity)
    case PollActivity(k, attempt, _, _) =>
      Open(s) && k in s.activities.byId
      && var a := s.activities.byId[k];
         a.startedId == 0 || attempt > a.attempts.number || (attempt == a.attempts.number && a.attempts.requestId == "")
    case RespondActivityCompleted(k, _) => HeldStarted(s, k)
    case RespondActivityFailed(k, failure) => failure.Some? && HeldStarted(s, k)
    case RespondActivityCanceled(k, _) => k in s.activities.byId
    case HeartbeatActivity(k, _) => HeldStarted(s, k)
    case TimerDue(key, row) => Open(s) && AdmitsTimer(s, key, row, now)
  }

  predicate AdmitsTimer(s: State, key: TimerKey, row: TimerRow, now: Time) {
    var k := key.eventId;
    match key.kind
    case UserTimer => true
    case WorkflowRetryTimer => true
    case TaskTimeoutTimer => s.task.startedId != 0 && s.task.startedId == k
    case ExecutionTimeoutTimer => Due(s.info.executionDeadline, now) || Due(s.info.runDeadline, now)
    case ActivityRetryTimer =>
      k in s.activities.byId
      && var a := s.activities.byId[k].attempts; row.attempt > a.number || (row.attempt == a.number && a.requestId == "")
    case ActivityTimeoutTimer => k in s.activities.byId && row.attempt >= s.activities.byId[k].attempts.number
  }

  ghost predicate Writes(s: State, req: Request, draw: Draw, now: Time, out: Outcome) {
    match req
    case SignalRun(name, input) => Woken(s, out, Signaled(name, input), now)
    case CancelRun(reason) =>
      if s.cancelRequested then Still(s, out) else Woken(s, out, CancelRequested(reason), now)
    case TerminateRun(reason) => Silent(s, out, ExecutionTerminated(reason), now)
    case PollTask(sched, identity, id) => Silent(s, out, TaskStarted(sched, identity, Fresh(id, draw)), now)
    case RespondTask(_, _) => true
    case RespondTaskFailed(_, cause) => Woken(s, out, TaskFailed(s.task.scheduledId, s.task.startedId, cause), now)
    case PollActivity(k, attempt, identity, id) =>
      k in s.activities.byId && WritesPoll(s, k, attempt, identity, Fresh(id, draw), draw.jitter, now, out)
    case RespondActivityCompleted(k, result) =>
      k in s.activities.byId && Woken(s, out, ActivityCompleted(k, s.activities.byId[k].startedId, result), now)
    case RespondActivityFailed(k, failure) =>
      k in s.activities.byId && failure.Some? && WritesFailure(s, k, failure.value, now, out)
    case RespondActivityCanceled(k, details) =>
      k in s.activities.byId && Woken(s, out, ActivityCanceled(k, s.activities.byId[k].startedId, details), now)
    case HeartbeatActivity(k, details) =>
      k in s.activities.byId && Reports(out, [], map[])
      && var a := s.activities.byId[k];
         Patched(s, out, k, a.attempts.(
           heartbeat := details,
           heartbeatDeadline := if a.options.heartbeat > 0 then now + a.options.heartbeat else a.attempts.heartbeatDeadline))
    case TimerDue(key, row) => WritesTimer(s, key, row, now, out)
  }

  /** The first start is recorded, with the attempt the activity is in; a later one only opens the attempt. */
  ghost predicate WritesPoll(s: State, k: int, attempt: int, identity: string, id: string, jitter: real, now: Time, out: Outcome)
    requires k in s.activities.byId
  {
    var a := s.activities.byId[k];
    && Reports(out, [], map[])
    && if a.startedId == 0 then
         && Silent(s, out, ActivityStarted(k, identity, id, a.attempts.number, jitter), now)
         && k in out.state.activities.byId
         && out.state.activities.byId[k].attempts == a.attempts.(
              startedAt := now, requestId := id,
              deadline := if a.options.startToClose > 0 then now + a.options.startToClose else a.attempts.deadline,
              heartbeatDeadline := if a.options.heartbeat > 0 then now + a.options.heartbeat else a.attempts.heartbeatDeadline)
       else
         Patched(s, out, k, a.attempts.(
           number := if attempt > a.attempts.number then attempt else a.attempts.number, startedAt := now, requestId := id,
           deadline := if a.options.startToClose > 0 then now + a.options.startToClose else 0,
           heartbeatDeadline := if a.options.heartbeat > 0 then now + a.options.heartbeat else 0))
  }

  /** A failed attempt is retried in place if its policy and budget grant a delay, and recorded as the last one otherwise. */
  ghost predicate WritesFailure(s: State, k: int, failure: Failure, now: Time, out: Outcome)
    requires k in s.activities.byId
  {
    var a := s.activities.byId[k];
    && (forall delay :: Grants(s, a, failure, now, delay) ==> Rearms(s, out, k, a, failure, delay, now))
    && ((forall delay :: !Grants(s, a, failure, now, delay)) ==>
          exists state :: LastBecause(a, state) && Woken(s, out, ActivityFailed(k, a.startedId, Some(failure), state), now))
  }

  ghost predicate WritesTimer(s: State, key: TimerKey, row: TimerRow, now: Time, out: Outcome) {
    var k := key.eventId;
    match key.kind
    case UserTimer =>
      if k in s.timers.byId then Woken(s, out, TimerFired(s.timers.byId[k].timerId, k), now) else Still(s, out)
    case WorkflowRetryTimer =>
      if s.task.scheduledId == 0
      then Appended(s, out.state, [NextTask(s)], now) && Reports(out, [DispatchTask(s.info.taskQueue, |s.events| + 1)], map[])
      else Still(s, out)
    case TaskTimeoutTimer =>
      if s.task.deadline != 0 && now < s.task.deadline then Still(s, out)
      else Woken(s, out, TaskTimedOut(s.task.scheduledId, s.task.startedId), now)
    case ExecutionTimeoutTimer =>
      Silent(s, out, ExecutionTimedOut(if Due(s.info.executionDeadline, now) then ScheduleToClose else StartToClose), now)
    case ActivityRetryTimer =>
      k in s.activities.byId
      && var a := s.activities.byId[k];
      && Patched(s, out, k, a.attempts.(number := row.attempt, requestId := "", heartbeatDeadline := 0, deadline := now + 60_000_000_000))
      && Reports(out, [DispatchActivity(if row.taskQueue != "" then row.taskQueue else a.options.taskQueue, k)], map[])
    case ActivityTimeoutTimer => k in s.activities.byId && WritesExpiry(s, k, row, now, out)
  }

  /** The row may know of an attempt the state does not; then the clock that is due decides, if one is. */
  ghost predicate WritesExpiry(s: State, k: int, row: TimerRow, now: Time, out: Outcome)
    requires k in s.activities.byId
  {
    var a := s.activities.byId[k].(attempts := s.activities.byId[k].attempts.(number := row.attempt));
    exists kind :: DueClock(a, now, kind) &&
      if kind == Unspecified then Patched(s, out, k, a.attempts) && Reports(out, [], map[])
      else WritesTimedOut(s, k, a, kind, now, out)
  }

  ghost predicate WritesTimedOut(s: State, k: int, a: Activity, kind: TimeoutKind, now: Time, out: Outcome)
    requires k in s.activities.byId
  {
    && (forall delay :: Grants(s, a, CountsAs(kind), now, delay) ==> Rearms(s, out, k, a, CountsAs(kind), delay, now))
    && ((forall delay :: !Grants(s, a, CountsAs(kind), now, delay)) ==>
          Woken(s, out, ActivityTimedOut(k, a.startedId, kind, a.attempts.heartbeat), now))
  }

  /** The index rows a request takes away: the row it was delivered from, or the backoff of the attempt it starts. */
  function Dropped(req: Request): seq<TimerKey> {
    match req
    case PollActivity(k, _, _, _) => [TimerKey(k, ActivityRetryTimer)]
    case TimerDue(key, _) => [key]
    case _ => []
  }

  // ------------------------------------------------------------------
  // Recording
  // ------------------------------------------------------------------

  lemma AppendWrites(s: State, a: Attrs, now: Time)
    requires Dense(s.events) && Append(s, a, now).Ok?
    ensures Appended(s, Append(s, a, now).value, [a], now)
    ensures !TaskEvent(a) && !Terminal(TypeOf(a)) ==> Append(s, a, now).value.task == s.task
    ensures a.TaskFailed? || a.TaskTimedOut? ==> Append(s, a, now).value.task == NO_TASK
    ensures !a.ExecutionStarted? ==> Append(s, a, now).value.info == s.info
    ensures !Terminal(TypeOf(a)) ==> Open(Append(s, a, now).value)
  {
    hide ApplyToActivities, ApplyToTimers, InfoFrom, StatusAfter;
  }

  /** The events that wake the workflow. */
  predicate Wakeful(a: Attrs) {
    a.Signaled? || a.CancelRequested? || a.TaskFailed? || a.TaskTimedOut? || a.TimerFired? || ActivityCloser(a)
  }

  lemma WakeWrites(s: State, a: Attrs, now: Time, drops: seq<TimerKey>)
    requires Dense(s.events) && Wakeful(a) && AppendAndWake(s, a, now).Ok?
    ensures Woken(s, Plain(AppendAndWake(s, a, now), drops).out, a, now)
    ensures Plain(AppendAndWake(s, a, now), drops).out.drops == drops
  {
    hide Append, Dense, Appended;
    var t := Append(s, a, now).value;
    AppendWrites(s, a, now);
    AppendedDense(s, t, a, now);
    if t.task.scheduledId == 0 {
      var b := TaskScheduled(s.info.taskQueue, if s.info.taskTimeout <= 0 then DEFAULT_TASK_TIMEOUT else s.info.taskTimeout, 1);
      AppendWrites(t, b, now);
      var u := Append(t, b, now).value;
      AppendedTwice(s, t, u, a, b, now);
      NoRows(u, DispatchTask(s.info.taskQueue, |s.events| + 2));
    }
  }

  lemma AppendedDense(s: State, t: State, a: Attrs, now: Time)
    requires Dense(s.events) && Appended(s, t, [a], now)
    ensures Dense(t.events) && NextEventId(t.events) == |s.events| + 2
  {
    assert [a][0] == a;
  }

  lemma AppendedTwice(s: State, t: State, u: State, a: Attrs, b: Attrs, now: Time)
    requires Appended(s, t, [a], now) && Appended(t, u, [b], now)
    ensures Appended(s, u, [a, b], now)
  {
    assert [a][0] == a;
    assert [b][0] == b;
    assert u.events[|s.events|] == t.events[|s.events|];
  }

  lemma NoRows(s: State, e: Effect)
    requires !e.ArmTimer?
    ensures RetryRows(s, [e]) == map[]
  {
    assert [e][..0] == [];
  }

  /** Recording succeeds when what the event names is there. */
  predicate Recordable(s: State, a: Attrs) {
    match a
    case Signaled(_, _) => true
    case CancelRequested(_) => true
    case ExecutionTerminated(_) => true
    case ExecutionTimedOut(_) => true
    case TaskStarted(_, _, _) => Scheduled(s.task)
    case TaskFailed(_, _, _) => Started(s.task)
    case TaskTimedOut(_, _) => Started(s.task)
    case ActivityStarted(k, _, _, _, _) => k in s.activities.byId && s.activities.byId[k].startedId == 0
    case ActivityCompleted(k, _, _) => k in s.activities.byId
    case ActivityFailed(k, _, _, _) => k in s.activities.byId
    case ActivityTimedOut(k, _, _, _) => k in s.activities.byId
    case ActivityCanceled(k, _, _) => k in s.activities.byId
    case TimerFired(_, st) => st in s.timers.byId
    case _ => false
  }

  lemma AppendSucceeds(s: State, a: Attrs, now: Time)
    requires Open(s) && Recordable(s, a)
    ensures Append(s, a, now).Ok?
  {
    hide InfoFrom, StatusAfter;
  }

  lemma WakeSucceeds(s: State, a: Attrs, now: Time)
    requires Open(s) && Dense(s.events) && Wakeful(a) && Recordable(s, a)
    ensures AppendAndWake(s, a, now).Ok?
  {
    hide Apply;
    AppendSucceeds(s, a, now);
    AppendWrites(s, a, now);
    var t := Append(s, a, now).value;
    if t.task.scheduledId == 0 {
      SchedulingSucceeds(t, t.info.taskQueue, if t.info.taskTimeout <= 0 then DEFAULT_TASK_TIMEOUT else t.info.taskTimeout, now);
    }
  }

  // ------------------------------------------------------------------
  // One request at a time
  // ------------------------------------------------------------------

  /** The verdict is a write of exactly this shape, and it takes away these rows. */
  lemma Wakes(s: State, a: Attrs, now: Time, drops: seq<TimerKey>)
    requires Open(s) && Dense(s.events) && Wakeful(a) && Recordable(s, a)
    ensures
      var v := Plain(AppendAndWake(s, a, now), drops);
      v.Write? && Woken(s, v.out, a, now) && v.out.drops == drops
  {
    hide Append, ScheduleTask, Appended;
    WakeSucceeds(s, a, now);
    WakeWrites(s, a, now, drops);
  }

  lemma Records(s: State, a: Attrs, now: Time, drops: seq<TimerKey>)
    requires Open(s) && Dense(s.events) && Recordable(s, a)
    ensures
      var v := Plain(Quiet(Append(s, a, now)), drops);
      v.Write? && Silent(s, v.out, a, now) && v.out.drops == drops
  {
    hide Append, Appended;
    AppendSucceeds(s, a, now);
    AppendWrites(s, a, now);
  }

  lemma ReadyParts(s: State, now: Time)
    requires Ready(s, now)
    ensures Dense(s.events)
    ensures s.activities.byId.Keys != {} ==> Open(s)
    ensures forall k :: k in s.activities.byId ==> s.activities.byId[k].scheduledId == k && k !in s.timers.byId
  {
    hide Replays, WellFormed, TaskLinked;
    forall k | k in s.activities.byId ensures s.activities.byId[k].scheduledId == k && k !in s.timers.byId {
      assert ActivityLinked(k, s.activities.byId[k], s.events);
    }
  }

  lemma PendingOpen(s: State, k: int, now: Time)
    requires Ready(s, now) && k in s.activities.byId
    ensures Open(s)
  {
    hide Ready;
    ReadyParts(s, now);
    assert k in s.activities.byId.Keys;
  }

  /** The retry decision, both ways: a delay is granted exactly by `Grants`. */
  lemma RetryDelayGrants(s: State, a: Activity, f: Failure, now: Time, delay: Duration)
    requires Dense(s.events)
    ensures RetryDelay(s, a, f, now) == Some(delay) <==> Grants(s, a, f, now, delay)
  {
    hide Backoff;
  }

  /** A granted retry of a pending activity, once its started event is attached again. */
  lemma RetryWrites(s: State, a: Activity, k: int, failure: Failure, delay: Duration, now: Time, drops: seq<TimerKey>)
    requires k in s.activities.byId && a.scheduledId == k && k !in s.timers.byId
    requires a == s.activities.byId[k].(attempts := a.attempts)
    ensures
      var v := Plain(Restoring(Ok(RetryActivity(s, a, failure, delay, now)), k, a.startedId), drops);
      v.Write? && Rearms(s, v.out, k, a, failure, delay, now) && v.out.drops == drops
  {
    var m := s.activities.byId;
    var step := RetryActivity(s, a, failure, delay, now);
    var b := step.state.activities.byId[k];
    assert m[k := b][k := b.(startedId := a.startedId)] == m[k := b.(startedId := a.startedId)];
    var t := RestoreStarted(step.state, k, a.startedId);
    assert step.effects[..0] == [];
    assert RetryRows(t, step.effects) == map[TimerKey(k, ActivityRetryTimer) := TimerRow(now + delay, a.attempts.number + 1, a.options.taskQueue)];
  }

  /** A recorded resolution leaves nothing to re-attach. */
  lemma ResolutionWrites(s: State, a: Attrs, now: Time, startedId: int, drops: seq<TimerKey>)
    requires Open(s) && Dense(s.events) && ActivityCloser(a) && Recordable(s, a)
    ensures
      var v := Plain(Restoring(AppendAndWake(s, a, now), a.scheduledId, startedId), drops);
      v.Write? && Woken(s, v.out, a, now) && v.out.drops == drops
  {
    hide AppendAndWake, Woken, RetryRows, RestoreStarted;
    Wakes(s, a, now, drops);
    CloserRemoves(s, a, now);
    RestoreClosed(AppendAndWake(s, a, now).value.state, a.scheduledId, startedId);
  }

  lemma FailureWrites(s: State, k: int, failure: Failure, now: Time)
    requires Ready(s, now) && HeldStarted(s, k)
    ensures
      var v := Plain(Restoring(FailActivity(s, k, failure, now), k, s.activities.byId[k].startedId), []);
      v.Write? && WritesFailure(s, k, failure, now, v.out) && v.out.drops == []
  {
    hide Ready, AppendAndWake, Woken, Rearms, Grants, RetryDelay, RetryActivity, Restoring, Plain;
    ReadyParts(s, now);
    PendingOpen(s, k, now);
    var a := s.activities.byId[k];
    forall delay ensures RetryDelay(s, a, failure, now) == Some(delay) <==> Grants(s, a, failure, now, delay) {
      RetryDelayGrants(s, a, failure, now, delay);
    }
    match RetryDelay(s, a, failure, now)
    case Some(delay) => RetryWrites(s, a, k, failure, delay, now, []);
    case None =>
      var exhausted := a.options.retry.Some? && a.options.retry.value.maxAttempts > 0
                       && a.attempts.number >= a.options.retry.value.maxAttempts;
      var state := if exhausted then MaximumAttemptsReached else NonRetryableFailure;
      assert LastBecause(a, state);
      ResolutionWrites(s, ActivityFailed(k, a.startedId, Some(failure), state), now, a.startedId, []);
  }

  lemma TimedOutWrites(s: State, k: int, kind: TimeoutKind, now: Time, drops: seq<TimerKey>)
    requires Open(s) && Dense(s.events) && k in s.activities.byId
    requires s.activities.byId[k].scheduledId == k && k !in s.timers.byId
    ensures
      var a := s.activities.byId[k];
      var v := Plain(Restoring(TimeoutActivity(s, k, kind, now), k, a.startedId), drops);
      v.Write? && WritesTimedOut(s, k, a, kind, now, v.out) && v.out.drops == drops
  {
    hide AppendAndWake, Woken, Rearms, Grants, RetryDelay, RetryActivity, Restoring, Plain, Open;
    var a := s.activities.byId[k];
    var failure := TimeoutFailure(kind);
    assert failure == CountsAs(kind);
    forall delay ensures RetryDelay(s, a, failure, now) == Some(delay) <==> Grants(s, a, failure, now, delay) {
      RetryDelayGrants(s, a, failure, now, delay);
    }
    match RetryDelay(s, a, failure, now)
    case Some(delay) => RetryWrites(s, a, k, failure, delay, now, drops);
    case None => ResolutionWrites(s, ActivityTimedOut(k, a.startedId, kind, a.attempts.heartbeat), now, a.startedId, drops);
  }

  /** Catching up with the attempt the row knows does not change what is written. */
  lemma CaughtUp(s: State, k: int, a: Activity, kind: TimeoutKind, now: Time, out: Outcome)
    requires k in s.activities.byId && a == s.activities.byId[k].(attempts := a.attempts)
    requires WritesTimedOut(PutActivity(s, k, a), k, a, kind, now, out)
    ensures WritesTimedOut(s, k, a, kind, now, out)
  {
    hide Backoff, Final, Reports;
    var s' := PutActivity(s, k, a);
    var b := a.(attempts := Attempt(a.attempts.number + 1, 0, 0, 0, a.attempts.heartbeat, "", Some(CountsAs(kind))));
    assert s.activities.byId[k := a][k := b] == s.activities.byId[k := b];
    assert forall delay :: Grants(s', a, CountsAs(kind), now, delay) == Grants(s, a, CountsAs(kind), now, delay);
  }

  lemma ExpiryDecides(a: Activity, now: Time)
    ensures DueClock(a, now, ExpiredTimeout(a, now))
  {
  }

  lemma ExpiryWrites(s: State, key: TimerKey, row: TimerRow, now: Time)
    requires Ready(s, now)
    ensures
      var v := TimeoutActivityTask(s, key, row, now);
      && (v.Write? <==> Open(s) && key.eventId in s.activities.byId && row.attempt >= s.activities.byId[key.eventId].attempts.number)
      && (v.Write? ==> WritesExpiry(s, key.eventId, row, now, v.out) && v.out.drops == [key])
  {
    hide Ready, TimeoutActivity, ExpiredTimeout, Restoring, WritesTimedOut, DueClock, Dense;
    ReadyParts(s, now);
    var k := key.eventId;
    if k in s.activities.byId && row.attempt >= s.activities.byId[k].attempts.number {
      PendingOpen(s, k, now);
      var a := s.activities.byId[k].(attempts := s.activities.byId[k].attempts.(number := row.attempt));
      var kind := ExpiredTimeout(a, now);
      ExpiryDecides(a, now);
      if kind != Unspecified {
        TimedOutWrites(PutActivity(s, k, a), k, kind, now, [key]);
        CaughtUp(s, k, a, kind, now, TimeoutActivityTask(s, key, row, now).out);
      }
    }
  }

  lemma RedispatchWrites(s: State, key: TimerKey, row: TimerRow, now: Time)
    requires Ready(s, now) && key.kind == ActivityRetryTimer
    ensures
      var v := RedispatchActivity(s, key, row, now);
      && (v.Write? <==> Open(s) && AdmitsTimer(s, key, row, now))
      && (v.Write? ==> WritesTimer(s, key, row, now, v.out) && v.out.drops == [key])
  {
    hide Ready;
    var k := key.eventId;
    if k in s.activities.byId {
      var a := s.activities.byId[k];
      NoRows(PutActivity(s, k, a.(attempts := a.attempts.(number := row.attempt, requestId := "", heartbeatDeadline := 0,
                                                          deadline := now + REDISPATCH))),
             DispatchActivity(OrElse(row.taskQueue, a.options.taskQueue), k));
    }
  }

  lemma PollWrites(s: State, k: int, attempt: int, identity: string, requestId: string, draw: Draw, now: Time)
    requires Ready(s, now)
    ensures
      var v := StartActivityTask(s, k, attempt, identity, requestId, draw, now);
      && (v.Write? <==> Admits(s, PollActivity(k, attempt, identity, requestId), now))
      && (v.Write? ==> WritesPoll(s, k, attempt, identity, requestId, draw.jitter, now, v.out)
                       && v.out.drops == [TimerKey(k, ActivityRetryTimer)])
  {
    hide Ready, Append, Appended;
    ReadyParts(s, now);
    if k in s.activities.byId && Open(s) && s.activities.byId[k].startedId == 0 {
      var e := ActivityStarted(k, identity, requestId, s.activities.byId[k].attempts.number, draw.jitter);
      Records(s, e, now, [TimerKey(k, ActivityRetryTimer)]);
      StartOpens(s, k, e, now);
    }
  }

  lemma StartOpens(s: State, k: int, e: Attrs, now: Time)
    requires k in s.activities.byId && e.ActivityStarted? && e.scheduledId == k && e.attempt == s.activities.byId[k].attempts.number
    requires Append(s, e, now).Ok?
    ensures
      var a := s.activities.byId[k];
      var t := Append(s, e, now).value;
      k in t.activities.byId
      && t.activities.byId[k].attempts == a.attempts.(
           startedAt := now, requestId := e.requestId,
           deadline := if a.options.startToClose > 0 then now + a.options.startToClose else a.attempts.deadline,
           heartbeatDeadline := if a.options.heartbeat > 0 then now + a.options.heartbeat else a.attempts.heartbeatDeadline)
  {
  }

  lemma TimerWrites(s: State, key: TimerKey, row: TimerRow, now: Time)
    requires Ready(s, now)
    ensures
      var v := OnTimer(s, key, row, now);
      && (v.Write? <==> Open(s) && AdmitsTimer(s, key, row, now))
      && (v.Write? ==> WritesTimer(s, key, row, now, v.out) && v.out.drops == [key])
  {
    hide Ready, AppendAndWake, Append, Appended, RedispatchActivity, TimeoutActivityTask, WritesExpiry, Woken, Silent, RetryRows;
    ReadyParts(s, now);
    match key.kind
    case UserTimer =>
      if Open(s) && key.eventId in s.timers.byId {
        Wakes(s, TimerFired(s.timers.byId[key.eventId].timerId, key.eventId), now, [key]);
      } else {
        NoRowsAtAll(s);
      }
    case ActivityRetryTimer => RedispatchWrites(s, key, row, now);
    case ActivityTimeoutTimer => ExpiryWrites(s, key, row, now);
    case TaskTimeoutTimer =>
      NoRowsAtAll(s);
      if Open(s) && Started(s.task) {
        Wakes(s, TaskTimedOut(s.task.scheduledId, s.task.startedId), now, [key]);
      }
    case ExecutionTimeoutTimer =>
      if Open(s) {
        Records(s, ExecutionTimedOut(ScheduleToClose), now, [key]);
        Records(s, ExecutionTimedOut(StartToClose), now, [key]);
      }
    case WorkflowRetryTimer =>
      if Open(s) { RetryTurnWrites(s, key, row, now); }
  }

  lemma NoRowsAtAll(s: State)
    ensures RetryRows(s, []) == map[]
  {
  }

  lemma RetryTurnWrites(s: State, key: TimerKey, row: TimerRow, now: Time)
    requires Open(s) && Dense(s.events) && key.kind == WorkflowRetryTimer
    ensures
      var v := Plain(ScheduleTask(s, now), [key]);
      v.Write? && WritesTimer(s, key, row, now, v.out) && v.out.drops == [key]
  {
    hide Append, Appended, Dense;
    if s.task.scheduledId == 0 {
      var timeout := if s.info.taskTimeout <= 0 then DEFAULT_TASK_TIMEOUT else s.info.taskTimeout;
      SchedulingSucceeds(s, s.info.taskQueue, timeout, now);
      AppendWrites(s, TaskScheduled(s.info.taskQueue, timeout, 1), now);
      NoRows(Append(s, TaskScheduled(s.info.taskQueue, timeout, 1), now).value, DispatchTask(s.info.taskQueue, NextEventId(s.events)));
      assert NextEventId(s.events) == |s.events| + 1 by { DenseNext(s.events); }
    }
  }

  lemma DenseNext(h: seq<Event>)
    requires Dense(h)
    ensures NextEventId(h) == |h| + 1
  {
  }

  lemma AnswerableIsOwning(s: State, identity: string, now: Time)
    requires Ready(s, now)
    ensures OwnsTask(s, identity) <==> Answerable(s, identity)
    ensures s.task.startedId != 0 ==> s.task.scheduledId != 0
  {
    hide Replays, WellFormed, ActivitiesLinked, TimersLinked;
  }

  // ------------------------------------------------------------------
  // Every request
  // ------------------------------------------------------------------

  /** Apart from a worker's task response, a request is written exactly when it is admitted, and then it writes exactly the
      events, the patch, the effects and the rows that its own fields and the state call for. */
  lemma HandleWrites(s: State, req: Request, draw: Draw, now: Time)
    requires Ready(s, now) && !req.RespondTask?
    ensures
      var v := Handle(s, req, draw, now);
      && (v.Write? <==> Admits(s, req, now))
      && (v.Write? ==> Writes(s, req, draw, now, v.out) && v.out.drops == Dropped(req))
  {
    hide Ready, AppendAndWake, Append, Woken, Silent, RetryRows, OnTimer, StartActivityTask, Restoring, FailActivity, AdmitsTimer,
         WritesTimer, WritesPoll, WritesFailure, Dense, OwnsTask, Answerable;
    ReadyParts(s, now);
    match req
    case SignalRun(name, input) => if name != "" && Open(s) { Wakes(s, Signaled(name, input), now, []); }
    case CancelRun(reason) =>
      NoRowsAtAll(s);
      if Open(s) { Wakes(s, CancelRequested(reason), now, []); }
    case TerminateRun(reason) => if Open(s) { Records(s, ExecutionTerminated(reason), now, []); }
    case PollTask(sched, identity, id) =>
      if Open(s) && Scheduled(s.task) { Records(s, TaskStarted(s.task.scheduledId, identity, OrElse(id, draw.freshId)), now, []); }
    case RespondTaskFailed(identity, cause) =>
      AnswerableIsOwning(s, identity, now);
      OwnerHolds(s, identity);
      if Answerable(s, identity) { Wakes(s, TaskFailed(s.task.scheduledId, s.task.startedId, cause), now, []); }
    case PollActivity(k, attempt, identity, id) => PollWrites(s, k, attempt, identity, OrElse(id, draw.freshId), draw, now);
    case RespondActivityCompleted(k, result) =>
      if HeldStarted(s, k) {
        PendingOpen(s, k, now);
        Wakes(s, ActivityCompleted(k, s.activities.byId[k].startedId, result), now, []);
      }
    case RespondActivityFailed(k, failure) => FailedWrites(s, k, failure, now);
    case RespondActivityCanceled(k, details) =>
      if k in s.activities.byId {
        PendingOpen(s, k, now);
        Wakes(s, ActivityCanceled(k, s.activities.byId[k].startedId, details), now, []);
      }
    case HeartbeatActivity(k, details) =>
      if HeldStarted(s, k) { NoRowsAtAll(RecordHeartbeat(s, k, details, now).value); }
    case TimerDue(key, row) => TimerWrites(s, key, row, now);
  }

  lemma OwnerHolds(s: State, identity: string)
    ensures Answerable(s, identity) ==> Open(s) && Started(s.task)
  {
  }

  lemma FailedWrites(s: State, k: int, failure: Option<Failure>, now: Time)
    requires Ready(s, now)
    ensures
      var v := Handle(s, RespondActivityFailed(k, failure), Draw(0.0, 0, ""), now);
      && (v.Write? <==> failure.Some? && HeldStarted(s, k))
      && (v.Write? ==> WritesFailure(s, k, failure.value, now, v.out) && v.out.drops == [])
  {
    hide Ready, RetryDelay, AppendAndWake, RetryActivity, RetryRows, WritesFailure, RestoreStarted;
    if failure.Some? && HeldStarted(s, k) { FailureWrites(s, k, failure.value, now); }
  }

  // ------------------------------------------------------------------
  // Creating a run
  // ------------------------------------------------------------------

  /** Event 1, with the attempt and the first run filled in. */
  function FirstEvent(runId: string, st: StartAttrs, now: Time): Event {
    Event(1, now, ExecutionStarted(st.(attempt := if st.attempt == 0 then 1 else st.attempt,
                                       firstRunId := if st.firstRunId == "" then runId else st.firstRunId)))
  }

  /** Event 1, the signal the run is started with, and the first task; a run serving its backoff has none yet. */
  function FirstEvents(runId: string, st: StartAttrs, birth: Birth, now: Time): seq<Event> {
    var task := TaskScheduled(st.taskQueue, if st.taskTimeout > 0 then st.taskTimeout else 10_000_000_000, 1);
    [FirstEvent(runId, st, now)] +
      (match birth
       case Deferred(_) => []
       case Immediate => [Event(2, now, task)]
       case WithSignal(name, input) => [Event(2, now, Signaled(name, input)), Event(3, now, task)])
  }

  lemma StartWrites(runId: string, st: StartAttrs, now: Time)
    ensures
      var r := Start(Empty(runId), st, now);
      && r.Ok? && r.value.events == [FirstEvent(runId, st, now)] && Open(r.value) && r.value.task == NO_TASK
      && r.value.info.taskQueue == st.taskQueue && r.value.info.taskTimeout == st.taskTimeout
  {
  }

  /** A created run holds exactly these events, and its first task is dispatched if it has one. */
  lemma CreateWrites(runId: string, st: StartAttrs, birth: Birth, now: Time)
    ensures
      var r := Create(runId, st, birth, now);
      var h := FirstEvents(runId, st, birth, now);
      && r.Ok? && r.value.state.events == h
      && r.value.effects == (if birth.Deferred? then [] else [DispatchTask(st.taskQueue, |h|)])
  {
    hide Start, Append, AppendAndWake, FirstEvent, RetryRows;
    StartWrites(runId, st, now);
    var s := Start(Empty(runId), st, now).value;
    assert Dense(s.events) by { FirstDense(runId, st, now); }
    match birth
    case Deferred(_) =>
    case Immediate =>
      var timeout := if s.info.taskTimeout <= 0 then DEFAULT_TASK_TIMEOUT else s.info.taskTimeout;
      SchedulingSucceeds(s, s.info.taskQueue, timeout, now);
      AppendWrites(s, TaskScheduled(s.info.taskQueue, timeout, 1), now);
      var u := Append(s, TaskScheduled(s.info.taskQueue, timeout, 1), now).value;
      assert [TaskScheduled(s.info.taskQueue, timeout, 1)][0] == u.events[1].attrs;
    case WithSignal(name, input) =>
      var a := Signaled(name, input);
      Wakes(s, a, now, []);
      var step := AppendAndWake(s, a, now).value;
      assert [a, NextTask(s)][0] == a && [a, NextTask(s)][1] == NextTask(s);
      ScheduledNow(s, a, now);
  }

  lemma FirstDense(runId: string, st: StartAttrs, now: Time)
    ensures Dense([FirstEvent(runId, st, now)])
  {
  }

  lemma ScheduledNow(s: State, a: Attrs, now: Time)
    requires Dense(s.events) && AppendAndWake(s, a, now).Ok?
    ensures ScheduleTask(AppendAndWake(s, a, now).value.state, now) == Ok(Step(AppendAndWake(s, a, now).value.state, []))
  {
    hide Apply;
    var t := Append(s, a, now).value;
    if Open(t) && t.task.scheduledId == 0 {
      SchedulingSucceeds(t, t.info.taskQueue, if t.info.taskTimeout <= 0 then DEFAULT_TASK_TIMEOUT else t.info.taskTimeout, now);
    }
  }
}
