/** The due-time index means what it says: which rows a run has, when they are due, and that each does its work once it is. */
module Deadlines {
  import opened Prelude
  import opened History
  import opened Execution
  import opened Durability
  import opened ExactlyOnce
  import opened Engine
  import opened Rebuilding
  import opened Runs
  import opened TimerIndex
  import opened Written
  import Clocks

  // ------------------------------------------------------------------
  // Which rows, and when
  // ------------------------------------------------------------------

  /** The earliest of the instants that are set. */
  predicate FirstOf(t: Time, clocks: set<Time>) { t != 0 && t in clocks && forall c :: c in clocks && c != 0 ==> t <= c }

  predicate AnySet(clocks: set<Time>) { exists c :: c in clocks && c != 0 }

  /** The clocks that run for an activity: those of the attempt a worker holds, or the bound on waiting for one; and the outer
      budget. */
  function RunningClocks(a: Activity): set<Time> {
    if a.attempts.requestId != "" then {a.attempts.deadline, a.attempts.heartbeatDeadline, a.closeDeadline}
    else {if a.options.scheduleToStart > 0 && a.attempts.number <= 1 then a.scheduledAt + a.options.scheduleToStart else 0,
          a.attempts.deadline, a.closeDeadline}
  }

  /** What an open run has a row for. */
  predicate Awaits(s: State, key: TimerKey) {
    match key.kind
    case UserTimer => key.eventId in s.timers.byId
    case TaskTimeoutTimer => s.task.startedId != 0 && key.eventId == s.task.startedId && s.task.deadline != 0
    case ExecutionTimeoutTimer => key.eventId == 1 && AnySet({s.info.runDeadline, s.info.executionDeadline})
    case ActivityTimeoutTimer => key.eventId in s.activities.byId && AnySet(RunningClocks(s.activities.byId[key.eventId]))
    case _ => false
  }

  /** When the row is due, and the attempt and queue it carries. */
  predicate DueAs(s: State, key: TimerKey, row: TimerRow)
    requires Awaits(s, key)
  {
    match key.kind
    case UserTimer => row == TimerRow(s.timers.byId[key.eventId].fireAt, 0, "")
    case TaskTimeoutTimer => row == TimerRow(s.task.deadline, s.task.attempt, s.task.taskQueue)
    case ExecutionTimeoutTimer => FirstOf(row.fireAt, {s.info.runDeadline, s.info.executionDeadline}) && row.attempt == 0 && row.taskQueue == ""
    case ActivityTimeoutTimer =>
      var a := s.activities.byId[key.eventId];
      FirstOf(row.fireAt, RunningClocks(a)) && row.attempt == a.attempts.number && row.taskQueue == a.options.taskQueue
    case _ => true
  }

  lemma SoonerIsFirst(x: Time, y: Time)
    ensures Sooner(x, y) != 0 <==> AnySet({x, y})
    ensures Sooner(x, y) != 0 ==> FirstOf(Sooner(x, y), {x, y})
  {
    var clocks := {x, y};
    assert x in clocks && y in clocks;
  }

  lemma DeadlineIsFirst(a: Activity)
    ensures ActivityDeadline(a) != 0 <==> AnySet(RunningClocks(a))
    ensures ActivityDeadline(a) != 0 ==> FirstOf(ActivityDeadline(a), RunningClocks(a))
  {
    var x, y, z := if Held(a) then a.attempts.deadline else StartBound(a), if Held(a) then a.attempts.heartbeatDeadline else a.attempts.deadline,
                   a.closeDeadline;
    ThreeClocks(x, y, z);
    assert RunningClocks(a) == {x, y, z};
  }

  lemma ThreeClocks(x: Time, y: Time, z: Time)
    ensures Sooner(Sooner(x, y), z) != 0 <==> AnySet({x, y, z})
    ensures Sooner(Sooner(x, y), z) != 0 ==> FirstOf(Sooner(Sooner(x, y), z), {x, y, z})
  {
    var clocks := {x, y, z};
    assert x in clocks && y in clocks && z in clocks;
  }

  lemma RunRowsHold(s: State, key: TimerKey)
    ensures key in RunRows(s) <==> key.kind.ExecutionTimeoutTimer? && Awaits(s, key)
    ensures key in RunRows(s) ==> DueAs(s, key, RunRows(s)[key])
  {
    hide Sooner, FirstOf, AnySet;
    SoonerIsFirst(s.info.runDeadline, s.info.executionDeadline);
  }

  lemma TaskRowsHold(s: State, key: TimerKey)
    ensures key in TaskRows(s.task) <==> key.kind.TaskTimeoutTimer? && Awaits(s, key)
    ensures key in TaskRows(s.task) ==> DueAs(s, key, TaskRows(s.task)[key])
  {
  }

  lemma UserRowsHold(s: State, key: TimerKey)
    ensures
      var rows := UserRows(s.timers.byId, s.timers.byId.Keys);
      && (key in rows <==> key.kind.UserTimer? && Awaits(s, key))
      && (key in rows ==> DueAs(s, key, rows[key]))
  {
    assert key == TimerKey(key.eventId, key.kind);
  }

  lemma ActivityRowsHold(s: State, key: TimerKey)
    ensures
      var rows := ActivityRows(s.activities.byId, s.activities.byId.Keys);
      && (key in rows <==> key.kind.ActivityTimeoutTimer? && Awaits(s, key))
      && (key in rows ==> DueAs(s, key, rows[key]))
  {
    hide ActivityDeadline, RunningClocks, FirstOf, AnySet;
    assert key == TimerKey(key.eventId, key.kind);
    if key.eventId in s.activities.byId {
      DeadlineIsFirst(s.activities.byId[key.eventId]);
    }
  }

  /** An open run implies a row exactly for what it awaits, due at the first of the clocks that run for it. */
  lemma ImpliedRows(s: State, key: TimerKey)
    requires Open(s)
    ensures key in DerivedRows(s) <==> Awaits(s, key)
    ensures key in DerivedRows(s) ==> DueAs(s, key, DerivedRows(s)[key])
  {
    hide RunRows, TaskRows, UserRows, ActivityRows, Awaits, DueAs;
    RunRowsHold(s, key);
    TaskRowsHold(s, key);
    UserRowsHold(s, key);
    ActivityRowsHold(s, key);
    AwaitsKinds(s, key);
  }

  lemma AwaitsKinds(s: State, key: TimerKey)
    ensures Awaits(s, key) ==>
      key.kind.UserTimer? || key.kind.TaskTimeoutTimer? || key.kind.ExecutionTimeoutTimer? || key.kind.ActivityTimeoutTimer?
  {
  }

  /** A closed run implies none. */
  lemma NoImpliedRows(s: State)
    requires !Open(s)
    ensures DerivedRows(s) == map[]
  {
  }

  // ------------------------------------------------------------------
  // Delivering them
  // ------------------------------------------------------------------

  lemma FirstIsDue(a: Activity, t: Time, now: Time, kind: TimeoutKind)
    requires FirstOf(t, RunningClocks(a)) && DueClock(a, now, kind)
    ensures kind == Unspecified <==> now < t
  {
  }

  /** What an implied row does when it is delivered at or after its instant. */
  ghost predicate TakesEffect(s: State, key: TimerKey, now: Time, out: Outcome)
    requires Awaits(s, key)
  {
    match key.kind
    case UserTimer => Woken(s, out, TimerFired(s.timers.byId[key.eventId].timerId, key.eventId), now)
    case TaskTimeoutTimer => Woken(s, out, TaskTimedOut(s.task.scheduledId, s.task.startedId), now)
    case ExecutionTimeoutTimer =>
      Silent(s, out, ExecutionTimedOut(if Due(s.info.executionDeadline, now) then ScheduleToClose else StartToClose), now)
    case ActivityTimeoutTimer =>
      var a := s.activities.byId[key.eventId];
      exists kind :: kind != Unspecified && DueClock(a, now, kind) && WritesTimedOut(s, key.eventId, a, kind, now, out)
    case _ => true
  }

  lemma SameNumber(a: Activity)
    ensures a.(attempts := a.attempts.(number := a.attempts.number)) == a
  {
  }

  /** Every implied row, delivered once it is due, is written and does what it is there for. */
  lemma DueRowTakesEffect(s: State, key: TimerKey, draw: Draw, now: Time)
    requires Ready(s, now) && Open(s) && Awaits(s, key) && key in DerivedRows(s) && DerivedRows(s)[key].fireAt <= now
    ensures
      var v := Handle(s, TimerDue(key, DerivedRows(s)[key]), draw, now);
      v.Write? && TakesEffect(s, key, now, v.out)
  {
    hide Ready, Handle, DerivedRows, Woken, Silent, WritesTimedOut, DueClock, RunningClocks, Durable;
    var row := DerivedRows(s)[key];
    ImpliedRows(s, key);
    HandleWrites(s, TimerDue(key, row), draw, now);
    var out := Handle(s, TimerDue(key, row), draw, now).out;
    if key.kind.ActivityTimeoutTimer? {
      var a := s.activities.byId[key.eventId];
      SameNumber(a);
      var kind :| DueClock(a, now, kind) &&
        if kind == Unspecified then Patched(s, out, key.eventId, a.attempts) && Reports(out, [], map[])
        else WritesTimedOut(s, key.eventId, a, kind, now, out);
      FirstIsDue(a, row.fireAt, now, kind);
    }
  }

  /** Delivered early, a row changes nothing, and a run timeout is not even written; but a user timer fires whenever its row is
      delivered. */
  lemma EarlyRowWaits(s: State, key: TimerKey, draw: Draw, now: Time)
    requires Ready(s, now) && Open(s) && Awaits(s, key) && key in DerivedRows(s) && now < DerivedRows(s)[key].fireAt
    ensures
      var v := Handle(s, TimerDue(key, DerivedRows(s)[key]), draw, now);
      match key.kind
      case UserTimer => v.Write? && TakesEffect(s, key, now, v.out)
      case ExecutionTimeoutTimer => !v.Write?
      case _ => v.Write? && v.out.state == s && Reports(v.out, [], map[])
  {
    hide Ready, Handle, DerivedRows, Woken, Silent, WritesTimedOut, DueClock, RunningClocks, Durable;
    var row := DerivedRows(s)[key];
    ImpliedRows(s, key);
    HandleWrites(s, TimerDue(key, row), draw, now);
    if key.kind.ActivityTimeoutTimer? {
      var out := Handle(s, TimerDue(key, row), draw, now).out;
      var a := s.activities.byId[key.eventId];
      SameNumber(a);
      var kind :| DueClock(a, now, kind) &&
        if kind == Unspecified then Patched(s, out, key.eventId, a.attempts) && Reports(out, [], map[])
        else WritesTimedOut(s, key.eventId, a, kind, now, out);
      FirstIsDue(a, row.fireAt, now, kind);
      PatchedSame(s, out, key.eventId);
    }
  }

  lemma PatchedSame(s: State, out: Outcome, k: int)
    requires k in s.activities.byId && Patched(s, out, k, s.activities.byId[k].attempts)
    ensures out.state == s
  {
    var m := s.activities.byId;
    assert m[k := m[k].(attempts := m[k].attempts)] == m;
  }

  // ------------------------------------------------------------------
  // At any point of any run
  // ------------------------------------------------------------------

  /** A workflow's sleep ends when it should: at any point of any run, an open run has a row for a timer exactly if the history
      started it and has not resolved it, the row is due the timer's duration after it was started, and delivering it then
      records that the timer fired. */
  lemma SleepsEndOnTime(o: Origin, states: seq<State>, turns: seq<Turn>, n: nat, st: int, draw: Draw, now: Time)
    requires Lives(o, states, turns) && n < |states| && Open(states[n]) && LastTime(states[n]) <= now
    ensures
      var h := states[n].events;
      var key := TimerKey(st, UserTimer);
      && (key in DerivedRows(states[n]) <==> Clocks.TimerPending(h, st))
      && (Clocks.TimerPending(h, st) ==>
            && DerivedRows(states[n])[key].fireAt == h[st - 1].time + h[st - 1].attrs.duration
            && var v := Handle(states[n], TimerDue(key, DerivedRows(states[n])[key]), draw, now);
               v.Write? && Woken(states[n], v.out, TimerFired(h[st - 1].attrs.timerId, st), now))
  {
    hide Lives, Handle, DerivedRows, Woken, Durable, Clocks.TimerPending, Clocks.ActivitiesFollow, Clocks.TaskFollows, Clocks.InfoFollows,
         Clocks.StatusFollows, Clocks.RequestsFollow;
    var s := states[n];
    LivesDurable(o, states, turns, n);
    Clocks.StateFollowsHistory(o, states, turns, n);
    var key := TimerKey(st, UserTimer);
    ImpliedRows(s, key);
    if st in s.timers.byId {
      assert Clocks.TimerFollows(s.events, st, s.timers.byId[st]);
      HandleWrites(s, TimerDue(key, DerivedRows(s)[key]), draw, now);
    }
  }

  // ------------------------------------------------------------------
  // Runs that serve a backoff
  // ------------------------------------------------------------------

  /** The row a run that serves a backoff is created with. */
  function BackoffRow(st: StartAttrs, delay: Duration, now: Time): Index {
    map[TimerKey(1, WorkflowRetryTimer) := TimerRow(now + delay, st.attempt, "")]
  }

  /** No other row of the index, and no commit that does not drop it, touches that row. */
  lemma BackoffRowSurvives(s: State, armed: Index, rows: Index, drops: seq<TimerKey>)
    ensures
      var key := TimerKey(1, WorkflowRetryTimer);
      var want := Desired(s, armed, rows, drops);
      && (key in armed && key !in rows && key !in drops ==> key in want && want[key] == armed[key])
      && (key in rows && key !in drops ==> key in want && want[key] == rows[key])
      && (key in drops || (key !in armed && key !in rows) ==> key !in want)
  {
    hide RunRows, TaskRows, UserRows, ActivityRows, Awaits, DueAs;
    var key := TimerKey(1, WorkflowRetryTimer);
    if Open(s) {
      ImpliedRows(s, key);
      AwaitsKinds(s, key);
    } else {
      NoImpliedRows(s);
    }
  }

  /** A retried run waits for its backoff and then goes: it is created with no task and one row that is due after the delay; the
      row stays through every commit that does not deliver it; and delivering it gives the workflow its first task, unless
      something else has woken it meanwhile. */
  lemma BackedOffRunWakes(runId: string, st: StartAttrs, delay: Duration, now: Time, s: State, armed: Index, draw: Draw, later: Time)
    requires Ready(s, later) && Open(s) && TimerKey(1, WorkflowRetryTimer) in armed
    ensures
      var key := TimerKey(1, WorkflowRetryTimer);
      var born := Create(runId, st, Deferred(delay), now);
      && born.Ok? && born.value.effects == [] && |born.value.state.events| == 1
      && var index := Desired(born.value.state, map[], BackoffRow(st, delay, now), []);
         key in index && index[key].fireAt == now + delay
    ensures
      var key := TimerKey(1, WorkflowRetryTimer);
      Desired(s, armed, map[], []).Keys * {key} == {key} && Desired(s, armed, map[], [])[key] == armed[key]
    ensures
      var key := TimerKey(1, WorkflowRetryTimer);
      var v := Handle(s, TimerDue(key, armed[key]), draw, later);
      && v.Write? && v.out.drops == [key]
      && (if s.task.scheduledId == 0
          then Appended(s, v.out.state, [NextTask(s)], later) && v.out.effects == [DispatchTask(s.info.taskQueue, |s.events| + 1)]
          else v.out.state == s && v.out.effects == [])
  {
    hide Ready, Handle, Create, Desired, Appended;
    CreateWrites(runId, st, Deferred(delay), now);
    BackoffRowSurvives(Create(runId, st, Deferred(delay), now).value.state, map[], BackoffRow(st, delay, now), []);
    BackoffRowSurvives(s, armed, map[], []);
    HandleWrites(s, TimerDue(TimerKey(1, WorkflowRetryTimer), armed[TimerKey(1, WorkflowRetryTimer)]), draw, later);
  }
}
