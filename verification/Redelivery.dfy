/** Timers are delivered at least once: what a second delivery does. */
module Redelivery {
  import opened Prelude
  import opened History
  import opened Execution
  import opened Durability
  import opened ExactlyOnce
  import opened Engine
  import opened Rebuilding
  import opened Runs

  /** Delivering the timer to this state writes no event. */
  predicate Quiescent(s: State, key: TimerKey, row: TimerRow, now: Time) {
    var v := OnTimer(s, key, row, now);
    v.Noop? || (v.Write? && v.out.state.events == s.events)
  }

  /** The entry may know about an attempt the state does not. */
  function Caught(a: Activity, row: TimerRow): Activity {
    if row.attempt > a.attempts.number then a.(attempts := a.attempts.(number := row.attempt)) else a
  }

  /** The delivery finds nothing due: a heartbeat or a longer deadline moved the instant out after the row was written. */
  predicate TooEarly(s: State, key: TimerKey, row: TimerRow, now: Time) {
    match key.kind
    case ActivityTimeoutTimer =>
      key.eventId in s.activities.byId && ExpiredTimeout(Caught(s.activities.byId[key.eventId], row), now) == Unspecified
    case TaskTimeoutTimer => s.task.deadline != 0 && now < s.task.deadline
    case _ => false
  }

  /** The delivery ends an attempt and opens the next, which writes no event. */
  predicate RetriesInPlace(s: State, key: TimerKey, row: TimerRow, now: Time) {
    && key.kind.ActivityTimeoutTimer? && key.eventId in s.activities.byId
    && var a := Caught(s.activities.byId[key.eventId], row);
    && ExpiredTimeout(a, now) != Unspecified
    && RetryDelay(PutActivity(s, key.eventId, a), a, TimeoutFailure(ExpiredTimeout(a, now)), now).Some?
  }

  // ------------------------------------------------------------------
  // Twice in a row
  // ------------------------------------------------------------------

  lemma FiredTimerGone(s: State, st: int, now: Time)
    requires FireTimer(s, st, now).Ok?
    ensures st !in FireTimer(s, st, now).value.state.timers.byId
  {
    hide ApplyToActivities, InfoFrom, StatusAfter;
  }

  lemma UserTimerTwice(s: State, key: TimerKey, row: TimerRow, now: Time, later: Time)
    requires key.kind.UserTimer? && OnTimer(s, key, row, now).Write?
    ensures Quiescent(OnTimer(s, key, row, now).out.state, key, row, later)
  {
    hide FireTimer, RetryRows;
    FiredTimerGone(s, key.eventId, now);
    GoneTimerQuiet(OnTimer(s, key, row, now).out.state, key, row, later);
  }

  lemma GoneTimerQuiet(s: State, key: TimerKey, row: TimerRow, now: Time)
    requires key.kind.UserTimer? && key.eventId !in s.timers.byId
    ensures Quiescent(s, key, row, now)
  {
    hide AppendAndWake, RetryRows;
  }

  lemma ScheduledTwice(s: State, key: TimerKey, row: TimerRow, now: Time, later: Time)
    requires Ready(s, now) && key.kind.WorkflowRetryTimer? && OnTimer(s, key, row, now).Write?
    ensures Quiescent(OnTimer(s, key, row, now).out.state, key, row, later)
  {
    hide Durable, ScheduleTask, RetryRows, Kept;
    ScheduleKept(s, now);
    var t := ScheduleTask(s, now).value.state;
    assert OnTimer(s, key, row, now).out.state == t;
    ScheduledQuiet(t, key, row, later);
  }

  lemma ScheduledQuiet(s: State, key: TimerKey, row: TimerRow, now: Time)
    requires key.kind.WorkflowRetryTimer? && (Open(s) ==> s.task.scheduledId != 0)
    ensures Quiescent(s, key, row, now)
  {
    hide RetryRows;
  }

  lemma RedispatchQuiet(s: State, key: TimerKey, row: TimerRow, now: Time)
    requires key.kind.ActivityRetryTimer?
    ensures Quiescent(s, key, row, now)
  {
    hide RetryRows;
  }

  lemma TaskTimeoutTwice(s: State, key: TimerKey, row: TimerRow, now: Time, later: Time)
    requires Ready(s, now) && key.kind.TaskTimeoutTimer? && OnTimer(s, key, row, now).Write? && !TooEarly(s, key, row, now)
    ensures Quiescent(OnTimer(s, key, row, now).out.state, key, row, later)
  {
    hide Durable, TimeoutTask, RetryRows;
    TimedOutTaskGone(s, now);
    StaleTaskQuiet(OnTimer(s, key, row, now).out.state, key, row, later);
  }

  lemma EarlyTaskTimeout(s: State, key: TimerKey, row: TimerRow, now: Time, later: Time)
    requires key.kind.TaskTimeoutTimer? && OnTimer(s, key, row, now).Write? && TooEarly(s, key, row, now)
    ensures OnTimer(s, key, row, now).out.state == s
    ensures Quiescent(s, key, row, later) <==> TooEarly(s, key, row, later)
  {
    hide RetryRows, ApplyToActivities, ApplyToTimers, ApplyToTask, InfoFrom, StatusAfter;
  }

  lemma TimedOutTaskGone(s: State, now: Time)
    requires Ready(s, now) && Started(s.task) && TimeoutTask(s, now).Ok?
    ensures TimeoutTask(s, now).value.state.task.startedId == 0
  {
    hide Durable, Append;
    var a := TaskTimedOut(s.task.scheduledId, s.task.startedId);
    var t := Append(s, a, now).value;
    assert t.task == NO_TASK by { TimedOutClears(s, a, now); }
    FreshTaskUnstarted(t, now);
  }

  lemma TimedOutClears(s: State, a: Attrs, now: Time)
    requires a.TaskTimedOut? && Append(s, a, now).Ok?
    ensures Append(s, a, now).value.task == NO_TASK
  {
  }

  lemma FreshTaskUnstarted(t: State, now: Time)
    requires t.task == NO_TASK && ScheduleTask(t, now).Ok?
    ensures ScheduleTask(t, now).value.state.task.startedId == 0
  {
  }

  lemma StaleTaskQuiet(s: State, key: TimerKey, row: TimerRow, now: Time)
    requires key.kind.TaskTimeoutTimer? && (s.task.startedId == 0 || s.task.startedId != key.eventId)
    ensures Quiescent(s, key, row, now)
  {
  }

  lemma RunTimeoutTwice(s: State, key: TimerKey, row: TimerRow, now: Time, later: Time)
    requires key.kind.ExecutionTimeoutTimer? && OnTimer(s, key, row, now).Write?
    ensures Quiescent(OnTimer(s, key, row, now).out.state, key, row, later)
  {
    hide RetryRows, ApplyToActivities, ApplyToTimers, ApplyToTask;
  }

  lemma ClosedQuiet(s: State, key: TimerKey, row: TimerRow, now: Time)
    requires !Open(s)
    ensures Quiescent(s, key, row, now)
  {
  }

  // ----- activity timeouts -----

  lemma StaleActivityQuiet(s: State, key: TimerKey, row: TimerRow, now: Time)
    requires key.kind.ActivityTimeoutTimer?
    requires key.eventId !in s.activities.byId || row.attempt < s.activities.byId[key.eventId].attempts.number
    ensures Quiescent(s, key, row, now)
  {
  }

  /** After a timeout the activity is gone, or waits for an attempt the row does not know. */
  lemma TimeoutMovesOn(s: State, k: int, kind: TimeoutKind, now: Time)
    requires Ready(s, now) && k in s.activities.byId
    ensures
      var r := Restoring(TimeoutActivity(s, k, kind, now), k, s.activities.byId[k].startedId);
      r.Ok? ==> k !in r.value.state.activities.byId || r.value.state.activities.byId[k].attempts.number == s.activities.byId[k].attempts.number + 1
  {
    hide Durable, AppendAndWake, RetryDelay, TimeoutFailure;
    ActivityRefs(s, k);
    var a := s.activities.byId[k];
    if RetryDelay(s, a, TimeoutFailure(kind), now).None? {
      var e := ActivityTimedOut(k, a.startedId, kind, a.attempts.heartbeat);
      if AppendAndWake(s, e, now).Ok? {
        CloserRemoves(s, e, now);
      }
    }
  }

  lemma ActivityTimeoutTwice(s: State, key: TimerKey, row: TimerRow, now: Time, later: Time)
    requires Ready(s, now) && key.kind.ActivityTimeoutTimer? && OnTimer(s, key, row, now).Write? && !TooEarly(s, key, row, now)
    ensures Quiescent(OnTimer(s, key, row, now).out.state, key, row, later)
  {
    hide Durable, TimeoutActivity, RetryRows, ExpiredTimeout, Restoring, Kept, Quiescent;
    var k := key.eventId;
    var a' := Caught(s.activities.byId[k], row);
    var s' := PutActivity(s, k, a');
    PatchedActivityKept(s, k, a', now);
    KeptParts(s, s', now);
    TimeoutMovesOn(s', k, ExpiredTimeout(a', now), now);
    StaleActivityQuiet(OnTimer(s, key, row, now).out.state, key, row, later);
  }

  lemma EarlyActivityTimeout(s: State, key: TimerKey, row: TimerRow, now: Time, later: Time)
    requires key.kind.ActivityTimeoutTimer? && OnTimer(s, key, row, now).Write? && TooEarly(s, key, row, now)
    ensures
      var t := OnTimer(s, key, row, now).out.state;
      && t.events == s.events
      && (Quiescent(t, key, row, later) <==> TooEarly(t, key, row, later) || RetriesInPlace(t, key, row, later))
  {
    hide ExpiredTimeout, RetryRows, RetryDelay, AppendAndWake, TimeoutFailure, Quiescent;
    var t := OnTimer(s, key, row, now).out.state;
    var k := key.eventId;
    assert t == PutActivity(s, k, Caught(s.activities.byId[k], row));
    assert Caught(t.activities.byId[k], row) == t.activities.byId[k];
    assert PutActivity(t, k, t.activities.byId[k]) == t;
    WaitingActivityTimeout(t, key, row, later);
  }

  /** What a delivery does to an activity whose attempt the entry names. */
  lemma WaitingActivityTimeout(t: State, key: TimerKey, row: TimerRow, now: Time)
    requires key.kind.ActivityTimeoutTimer? && Open(t) && key.eventId in t.activities.byId
    requires row.attempt == t.activities.byId[key.eventId].attempts.number
    ensures Quiescent(t, key, row, now) <==> TooEarly(t, key, row, now) || RetriesInPlace(t, key, row, now)
  {
    hide ExpiredTimeout, RetryRows, RetryDelay, TimeoutFailure, AppendAndWake;
    var k := key.eventId;
    var a := t.activities.byId[k];
    assert PutActivity(t, k, a) == t;
    var kind := ExpiredTimeout(a, now);
    if kind != Unspecified && RetryDelay(t, a, TimeoutFailure(kind), now).None? {
      AppendWritesEvent(t, ActivityTimedOut(k, a.startedId, kind, a.attempts.heartbeat), now);
    }
  }

  lemma AppendWritesEvent(s: State, a: Attrs, now: Time)
    ensures AppendAndWake(s, a, now).Ok? ==> |AppendAndWake(s, a, now).value.state.events| > |s.events|
  {
    hide ApplyToActivities, ApplyToTimers, ApplyToTask, InfoFrom, StatusAfter;
  }

  /** Delivering any timer again, at any later instant: a delivery that found its timer due leaves nothing for a second one
      to write. One that came too early wrote nothing, and the second writes an event exactly when by then something is due
      that is not retried in place. */
  lemma SecondDelivery(s: State, key: TimerKey, row: TimerRow, now: Time, later: Time)
    requires Ready(s, now) && OnTimer(s, key, row, now).Write?
    ensures
      var t := OnTimer(s, key, row, now).out.state;
      if !TooEarly(s, key, row, now) then Quiescent(t, key, row, later)
      else
        && t.events == s.events
        && (Quiescent(t, key, row, later) <==> TooEarly(t, key, row, later) || RetriesInPlace(t, key, row, later))
  {
    hide Durable, OnTimer, Quiescent, ExpiredTimeout, RetryDelay, Caught;
    match key.kind
    case UserTimer => UserTimerTwice(s, key, row, now, later);
    case ActivityRetryTimer => RedispatchQuiet(OnTimer(s, key, row, now).out.state, key, row, later);
    case ActivityTimeoutTimer =>
      if TooEarly(s, key, row, now) {
        EarlyActivityTimeout(s, key, row, now, later);
      } else {
        ActivityTimeoutTwice(s, key, row, now, later);
      }
    case TaskTimeoutTimer =>
      if TooEarly(s, key, row, now) {
        EarlyTaskTimeout(s, key, row, now, later);
      } else {
        TaskTimeoutTwice(s, key, row, now, later);
      }
    case ExecutionTimeoutTimer => RunTimeoutTwice(s, key, row, now, later);
    case WorkflowRetryTimer => ScheduledTwice(s, key, row, now, later);
  }

  // ------------------------------------------------------------------
  // At any later point of the run
  // ------------------------------------------------------------------

  predicate TaskCloser(a: Attrs) { a.TaskCompleted? || a.TaskFailed? || a.TaskTimedOut? }

  /** The timer's business is settled: its timer resolved, its task closed, or the whole run over. */
  predicate SettledBy(key: TimerKey, a: Attrs) {
    match key.kind
    case UserTimer => ResolvesTimer(a, key.eventId)
    case TaskTimeoutTimer => TaskCloser(a) && a.startedId == key.eventId
    case ExecutionTimeoutTimer => Terminal(TypeOf(a))
    case _ => false
  }

  lemma {:induction false} CurrentTaskIsLast(t: Task, h: seq<Event>, i: nat)
    requires TaskPhase(t, h) && Started(t) && i < |h| && TaskCloser(h[i].attrs)
    requires forall j :: 0 <= j < |h| ==> h[j].id == j + 1
    ensures t.startedId > i + 1
    decreases |h|
  {
    var n := |h| - 1;
    if !h[n].attrs.TaskStarted? {
      assert !TaskEvent(h[n].attrs);
      CurrentTaskIsLast(t, h[..n], i);
    }
  }

  lemma ClosedTaskNotCurrent(s: State, i: nat)
    requires Durable(s) && Open(s) && i < |s.events| && TaskCloser(s.events[i].attrs)
    ensures s.task.startedId != s.events[i].attrs.startedId || s.task.startedId == 0
  {
    hide Linked, Replay, RefsOk, TypeOf, Terminal, AgreeActivities;
    var h := s.events;
    forall j | 0 <= j < |h| ensures !Terminal(TypeOf(h[j].attrs)) && h[j].id == j + 1 {
      assert WellPlaced(h, j);
      if j == |h| - 1 { OpenLast(s); }
    }
    ReplayPhase(s.runId, h);
    if Started(s.task) {
      CurrentTaskIsLast(s.task, h, i);
      CloserNamesEarlier(h, i);
    }
  }

  lemma OpenLast(s: State)
    requires Linked(s) && Open(s) && s.events != []
    ensures !Terminal(TypeOf(s.events[|s.events| - 1].attrs))
  {
  }

  lemma CloserNamesEarlier(h: seq<Event>, i: nat)
    requires WellFormed(h) && i < |h| && TaskCloser(h[i].attrs)
    ensures h[i].attrs.startedId <= i
  {
    assert WellPlaced(h, i);
  }

  lemma ResolvedTimerGone(s: State, i: nat, st: int)
    requires Durable(s) && i < |s.events| && ResolvesTimer(s.events[i].attrs, st)
    ensures st !in s.timers.byId
  {
    hide Linked, WellFormed, Replay, AgreeActivities;
    ReplaySpends(s.runId, s.events);
    var r := Replay(s.runId, s.events).value;
    assert Spent(r.activities, r.timers, r.events[i].attrs, i + 1);
  }

  lemma TerminalClosed(s: State, i: nat)
    requires Durable(s) && i < |s.events| && Terminal(TypeOf(s.events[i].attrs))
    ensures !Open(s)
  {
    hide RefsOk, Replays, TypeOf, Terminal, TaskLinked, ActivitiesLinked, TimersLinked;
    assert WellPlaced(s.events, i);
  }

  /** Once the history holds the event that settles a user timer, a task timeout or a run timeout, delivering that timer
      writes nothing, whenever it happens. */
  lemma SettledTimerStaysQuiet(s: State, key: TimerKey, row: TimerRow, i: nat, now: Time)
    requires Durable(s) && i < |s.events| && SettledBy(key, s.events[i].attrs)
    ensures Quiescent(s, key, row, now)
  {
    hide Durable, Quiescent, Terminal, TypeOf;
    match key.kind
    case UserTimer =>
      ResolvedTimerGone(s, i, key.eventId);
      GoneTimerQuiet(s, key, row, now);
    case TaskTimeoutTimer =>
      if Open(s) {
        ClosedTaskNotCurrent(s, i);
        StaleTaskQuiet(s, key, row, now);
      } else {
        ClosedQuiet(s, key, row, now);
      }
    case ExecutionTimeoutTimer =>
      TerminalClosed(s, i);
      ClosedQuiet(s, key, row, now);
    case _ =>
  }

  // ----- over whole runs -----

  /** At every later point of a run in which a timer's business was settled, delivering it writes nothing. */
  lemma SettledTimerNeverWritesAgain(o: Origin, states: seq<State>, turns: seq<Turn>, m: nat, n: nat,
                                     key: TimerKey, row: TimerRow, i: nat, now: Time)
    requires Lives(o, states, turns) && m <= n < |states|
    requires i < |states[m].events| && SettledBy(key, states[m].events[i].attrs)
    ensures Quiescent(states[n], key, row, now)
  {
    hide Lives, Durable, Quiescent, SettledBy;
    HistoryGrows(o, states, turns, m, n);
    LivesDurable(o, states, turns, n);
    assert states[n].events[i] == states[m].events[i];
    SettledTimerStaysQuiet(states[n], key, row, i, now);
  }

  predicate SettlesForGood(key: TimerKey) { key.kind.UserTimer? || key.kind.TaskTimeoutTimer? || key.kind.ExecutionTimeoutTimer? }

  /** What a user timer, task timeout or run timeout writes is what settles it. */
  lemma DeliverySettles(s: State, key: TimerKey, row: TimerRow, now: Time)
    requires SettlesForGood(key) && OnTimer(s, key, row, now).Write? && OnTimer(s, key, row, now).out.state.events != s.events
    ensures
      var h := OnTimer(s, key, row, now).out.state.events;
      |s.events| < |h| && SettledBy(key, h[|s.events|].attrs)
  {
    hide ApplyToActivities, ApplyToTimers, ApplyToTask, InfoFrom, StatusAfter, RetryRows;
  }

  /** A user timer, task timeout or run timeout that wrote something when it was delivered writes nothing at any later point
      of the run, however often it is delivered again. */
  lemma DeliveredOnceForAll(o: Origin, states: seq<State>, turns: seq<Turn>, m: nat, n: nat, key: TimerKey, row: TimerRow, now: Time)
    requires Lives(o, states, turns) && m < n < |states|
    requires SettlesForGood(key) && turns[m].req == TimerDue(key, row) && states[m + 1].events != states[m].events
    ensures Quiescent(states[n], key, row, now)
  {
    hide Durable, Quiescent, SettledBy, OnTimer, Create;
    assert Arrives(o, states, turns, m + 1);
    LivesDurable(o, states, turns, m);
    ReloadAgrees(states[m]);
    if Reload(states[m]).Some? {
      AgreeHistory(Reload(states[m]).value, states[m]);
    }
    DeliverySettles(states[m], key, row, turns[m].now);
    SettledTimerNeverWritesAgain(o, states, turns, m + 1, n, key, row, |states[m].events|, now);
  }
}
