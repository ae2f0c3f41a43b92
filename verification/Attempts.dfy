/** Over whole runs no activity's attempt number ever exceeds its policy's maximum. */
module Attempts {
  import opened Prelude
  import opened RetryPolicy
  import opened History
  import opened Execution
  import opened Durability
  import opened ExactlyOnce
  import opened Engine
  import opened Rebuilding
  import opened Runs
  import opened Retries
  import opened Policies

  /** Attempts count from one, up to a positive maximum. */
  predicate Within(number: int, o: ActivityOptions) {
    1 <= number && (PolicyOf(o).maxAttempts > 0 ==> number <= PolicyOf(o).maxAttempts)
  }

  predicate AllWithin(s: State) {
    forall k :: k in s.activities.byId ==> Within(s.activities.byId[k].attempts.number, s.activities.byId[k].options)
  }

  /** The history says which activity it started, and with an attempt within that activity's policy. */
  predicate StartWithin(h: seq<Event>, i: nat)
    requires i < |h|
  {
    h[i].attrs.ActivityStarted? ==>
      var k := h[i].attrs.scheduledId;
      1 <= k <= i && h[k - 1].attrs.ActivityScheduled? && Within(h[i].attrs.attempt, h[k - 1].attrs.options)
  }

  predicate StartsWithin(h: seq<Event>) { forall i :: 0 <= i < |h| ==> StartWithin(h, i) }

  // ------------------------------------------------------------------
  // Steps that touch no attempt
  // ------------------------------------------------------------------

  /** Every activity is new or as many attempts in as before, and no activity was started. */
  predicate Calm(s: State, t: State) {
    && s.events <= t.events
    && (forall i :: |s.events| <= i < |t.events| ==> !t.events[i].attrs.ActivityStarted?)
    && forall k :: k in t.activities.byId ==> CalmAt(s, t.activities.byId[k], k)
  }

  predicate CalmAt(s: State, a: Activity, k: int) {
    a.attempts.number == 1
    || (k in s.activities.byId && a.attempts.number == s.activities.byId[k].attempts.number && a.options == s.activities.byId[k].options)
  }

  lemma CalmKeeps(s: State, t: State)
    requires Calm(s, t) && AllWithin(s) && StartsWithin(s.events)
    ensures AllWithin(t) && StartsWithin(t.events)
  {
    forall k | k in t.activities.byId ensures Within(t.activities.byId[k].attempts.number, t.activities.byId[k].options) {
      assert CalmAt(s, t.activities.byId[k], k);
    }
    forall i | 0 <= i < |t.events| ensures StartWithin(t.events, i) {
      if i < |s.events| {
        assert StartWithin(s.events, i);
        assert t.events[..|s.events|] == s.events;
      }
    }
  }

  lemma CalmSelf(s: State)
    ensures Calm(s, s)
  {
  }

  lemma CalmChain(s: State, t: State, u: State)
    requires Calm(s, t) && Calm(t, u)
    ensures Calm(s, u)
  {
    forall k | k in u.activities.byId ensures CalmAt(s, u.activities.byId[k], k) {
      assert CalmAt(t, u.activities.byId[k], k);
      if k in t.activities.byId { assert CalmAt(s, t.activities.byId[k], k); }
    }
    forall i | |s.events| <= i < |u.events| ensures !u.events[i].attrs.ActivityStarted? {
      if i < |t.events| { assert u.events[i] == t.events[i]; }
    }
  }

  lemma AppendCalm(s: State, a: Attrs, now: Time)
    requires Append(s, a, now).Ok? && !a.ActivityStarted?
    ensures Calm(s, Append(s, a, now).value)
  {
    hide InfoFrom, StatusAfter, ApplyToTimers, ApplyToTask;
  }

  lemma ScheduleCalm(s: State, now: Time)
    requires ScheduleTask(s, now).Ok?
    ensures Calm(s, ScheduleTask(s, now).value.state)
  {
    hide Append, Calm;
    CalmSelf(s);
    var timeout := if s.info.taskTimeout <= 0 then DEFAULT_TASK_TIMEOUT else s.info.taskTimeout;
    if Append(s, TaskScheduled(s.info.taskQueue, timeout, 1), now).Ok? {
      AppendCalm(s, TaskScheduled(s.info.taskQueue, timeout, 1), now);
    }
  }

  lemma WakeCalm(s: State, a: Attrs, now: Time)
    requires AppendAndWake(s, a, now).Ok? && !a.ActivityStarted?
    ensures Calm(s, AppendAndWake(s, a, now).value.state)
  {
    hide Append, ScheduleTask, Calm;
    AppendCalm(s, a, now);
    ScheduleCalm(Append(s, a, now).value, now);
    CalmChain(s, Append(s, a, now).value, ScheduleTask(Append(s, a, now).value, now).value.state);
  }

  lemma {:induction false} CommandsCalm(s: State, cmds: seq<Command>, decision: int, draw: Draw, now: Time)
    requires FailuresNamed(cmds) && ApplyCommands(s, cmds, decision, draw, now).Applied?
    ensures Calm(s, ApplyCommands(s, cmds, decision, draw, now).step.state)
    decreases |cmds|
  {
    hide EventFor, EffectsFor, Append, Calm;
    if cmds == [] {
      CalmSelf(s);
    } else {
      var t := ApplyCommand(s, cmds[0], decision, draw, now).step.state;
      CommandStartsNothing(s, cmds[0], decision, draw, now);
      AppendCalm(s, EventFor(s, cmds[0], decision, draw, now), now);
      CommandsCalm(t, cmds[1..], decision, draw, now);
      CalmChain(s, t, ApplyCommands(t, cmds[1..], decision, draw, now).step.state);
    }
  }

  lemma CommandStartsNothing(s: State, c: Command, decision: int, draw: Draw, now: Time)
    requires (c.CancelTimer? ==> c.startedId in s.timers.byId) && (c.FailWorkflow? ==> c.failure.Some?)
    ensures !EventFor(s, c, decision, draw, now).ActivityStarted?
  {
    hide FailureVerdict, SuccessorOf;
  }

  lemma ResponseCalm(s: State, cmds: seq<Command>, identity: string, draw: Draw, now: Time)
    requires RespondWithCommands(s, cmds, identity, draw, now).Applied?
    ensures Calm(s, RespondWithCommands(s, cmds, identity, draw, now).step.state)
  {
    hide Append, ApplyCommands, ScheduleTask, ValidBatch, Precheck, Calm;
    var a := TaskCompleted(s.task.scheduledId, s.task.startedId, identity);
    var t := Append(s, a, now).value;
    AppendCalm(s, a, now);
    NormalizedShaped(cmds);
    CommandsCalm(t, NormalizeBatch(cmds), NextEventId(s.events), draw, now);
    var u := ApplyCommands(t, NormalizeBatch(cmds), NextEventId(s.events), draw, now).step.state;
    CalmChain(s, t, u);
    if ScheduleTask(u, now).Ok? {
      ScheduleCalm(u, now);
      CalmChain(s, u, ScheduleTask(u, now).value.state);
    }
  }

  /** Naming a successor touches neither activities nor started events. */
  lemma FinalizeWithin(step: Step, draw: Draw)
    requires AllWithin(step.state) && StartsWithin(step.state.events) && Finalize(step, draw).Write?
    ensures AllWithin(Finalize(step, draw).out.state) && StartsWithin(Finalize(step, draw).out.state.events)
  {
    hide RetryRows, RunsIn, OthersIn, Within;
    var t, u := step.state, Finalize(step, draw).out.state;
    forall i | 0 <= i < |u.events| ensures StartWithin(u.events, i) {
      assert StartWithin(t.events, i);
    }
  }

  // ------------------------------------------------------------------
  // Steps that count attempts
  // ------------------------------------------------------------------

  predicate Sound(s: State) { Durable(s) && AllWithin(s) && StartsWithin(s.events) }

  lemma PutWithin(s: State, k: int, a: Activity)
    requires AllWithin(s) && Within(a.attempts.number, a.options)
    ensures AllWithin(PutActivity(s, k, a))
  {
    hide Within;
  }

  lemma StartKeeps(s: State, k: int, identity: string, requestId: string, jitter: real, now: Time)
    requires Sound(s) && StartActivity(s, k, identity, requestId, jitter, now).Ok?
    ensures
      var t := StartActivity(s, k, identity, requestId, jitter, now).value;
      AllWithin(t) && StartsWithin(t.events)
  {
    hide Durable, Within, InfoFrom, StatusAfter, ApplyToTimers, ApplyToTask;
    PendingIsRecorded(s, k);
    var a, t := s.activities.byId[k], StartActivity(s, k, identity, requestId, jitter, now).value;
    assert Within(a.attempts.number, a.options);
    if a.startedId == 0 {
      forall i | 0 <= i < |t.events| ensures StartWithin(t.events, i) {
        if i < |s.events| { assert StartWithin(s.events, i); }
      }
    }
  }

  lemma RetryWithin(s: State, k: int, failure: Failure, now: Time)
    requires AllWithin(s) && k in s.activities.byId && RetryDelay(s, s.activities.byId[k], failure, now).Some?
    ensures Within(s.activities.byId[k].attempts.number + 1, s.activities.byId[k].options)
  {
    hide Get, Backoff;
    var a := s.activities.byId[k];
    assert Within(a.attempts.number, a.options);
  }

  lemma RestoreKeeps(s: State, k: int, startedId: int)
    requires AllWithin(s)
    ensures AllWithin(RestoreStarted(s, k, startedId)) && RestoreStarted(s, k, startedId).events == s.events
  {
    hide Within;
  }

  lemma FailureKeeps(s: State, k: int, failure: Failure, startedId: int, now: Time)
    requires Sound(s) && Restoring(FailActivity(s, k, failure, now), k, startedId).Ok?
    ensures
      var t := Restoring(FailActivity(s, k, failure, now), k, startedId).value.state;
      AllWithin(t) && StartsWithin(t.events)
  {
    hide Durable, AppendAndWake, RetryDelay, AllWithin, StartsWithin, Calm, RestoreStarted;
    ActivityRefs(s, k);
    var a := s.activities.byId[k];
    var t := FailActivity(s, k, failure, now).value.state;
    if RetryDelay(s, a, failure, now).Some? {
      RetryWithin(s, k, failure, now);
      PutWithin(s, k, t.activities.byId[k]);
      assert t == PutActivity(s, k, t.activities.byId[k]);
    } else {
      var exhausted := a.options.retry.Some? && a.options.retry.value.maxAttempts > 0
                       && a.attempts.number >= a.options.retry.value.maxAttempts;
      WakeCalm(s, ActivityFailed(k, a.startedId, Some(failure), if exhausted then MaximumAttemptsReached else NonRetryableFailure), now);
      CalmKeeps(s, t);
    }
    RestoreKeeps(t, k, startedId);
  }

  lemma TimeoutKeeps(s: State, k: int, kind: TimeoutKind, startedId: int, now: Time)
    requires Sound(s) && Restoring(TimeoutActivity(s, k, kind, now), k, startedId).Ok?
    ensures
      var t := Restoring(TimeoutActivity(s, k, kind, now), k, startedId).value.state;
      AllWithin(t) && StartsWithin(t.events)
  {
    hide Durable, AppendAndWake, RetryDelay, AllWithin, StartsWithin, Calm, RestoreStarted, TimeoutFailure;
    ActivityRefs(s, k);
    var a := s.activities.byId[k];
    var t := TimeoutActivity(s, k, kind, now).value.state;
    if RetryDelay(s, a, TimeoutFailure(kind), now).Some? {
      RetryWithin(s, k, TimeoutFailure(kind), now);
      PutWithin(s, k, t.activities.byId[k]);
      assert t == PutActivity(s, k, t.activities.byId[k]);
    } else {
      WakeCalm(s, ActivityTimedOut(k, a.startedId, kind, a.attempts.heartbeat), now);
      CalmKeeps(s, t);
    }
    RestoreKeeps(t, k, startedId);
  }

  // ------------------------------------------------------------------
  // Every request
  // ------------------------------------------------------------------

  /** The attempt a request brings along for an activity, from a dispatched reference or an index row. */
  function Brought(req: Request): Option<(int, int)> {
    match req
    case PollActivity(k, attempt, _, _) => Some((k, attempt))
    case TimerDue(key, row) =>
      if key.kind.ActivityRetryTimer? || key.kind.ActivityTimeoutTimer? then Some((key.eventId, row.attempt)) else None
    case _ => None
  }

  predicate BringsWithin(s: State, req: Request) {
    Brought(req).Some? && Brought(req).value.0 in s.activities.byId ==>
      var p := PolicyOf(s.activities.byId[Brought(req).value.0].options);
      p.maxAttempts > 0 ==> Brought(req).value.1 <= p.maxAttempts
  }

  lemma PollKeeps(s: State, k: int, attempt: int, identity: string, requestId: string, draw: Draw, now: Time)
    requires Sound(s) && BringsWithin(s, PollActivity(k, attempt, identity, requestId))
    ensures
      var v := StartActivityTask(s, k, attempt, identity, requestId, draw, now);
      v.Write? ==> AllWithin(v.out.state) && StartsWithin(v.out.state.events)
  {
    hide Durable, StartActivity, AllWithin, StartsWithin, RetryRows;
    if k in s.activities.byId {
      var a := s.activities.byId[k];
      if a.startedId == 0 {
        if StartActivity(s, k, identity, requestId, draw.jitter, now).Ok? {
          StartKeeps(s, k, identity, requestId, draw.jitter, now);
        }
      } else {
        assert Within(a.attempts.number, a.options) by { assert AllWithin(s); WithinAt(s, k); }
        PutWithin(s, k, BeginRetryAttempt(a, attempt, requestId, now));
      }
    }
  }

  lemma WithinAt(s: State, k: int)
    requires AllWithin(s) && k in s.activities.byId
    ensures Within(s.activities.byId[k].attempts.number, s.activities.byId[k].options)
  {
  }

  lemma ActivityTimersKeep(s: State, key: TimerKey, row: TimerRow, now: Time)
    requires Ready(s, now) && Sound(s) && BringsWithin(s, TimerDue(key, row)) && (key.kind.ActivityRetryTimer? || key.kind.ActivityTimeoutTimer?)
    ensures
      var v := OnTimer(s, key, row, now);
      v.Write? ==> AllWithin(v.out.state) && StartsWithin(v.out.state.events)
  {
    hide Durable, TimeoutActivity, Restoring, AllWithin, StartsWithin, RetryRows, ExpiredTimeout, Kept;
    var k := key.eventId;
    if k in s.activities.byId && OnTimer(s, key, row, now).Write? {
      var a := s.activities.byId[k];
      WithinAt(s, k);
      if key.kind.ActivityRetryTimer? {
        PutWithin(s, k, OnTimer(s, key, row, now).out.state.activities.byId[k]);
      } else {
        var a' := if row.attempt > a.attempts.number then a.(attempts := a.attempts.(number := row.attempt)) else a;
        PutWithin(s, k, a');
        PatchedActivityKept(s, k, a', now);
        KeptParts(s, PutActivity(s, k, a'), now);
        if ExpiredTimeout(a', now) != Unspecified {
          TimeoutKeeps(PutActivity(s, k, a'), k, ExpiredTimeout(a', now), a.startedId, now);
        }
      }
    }
  }

  lemma OtherTimersCalm(s: State, key: TimerKey, row: TimerRow, now: Time)
    requires !key.kind.ActivityRetryTimer? && !key.kind.ActivityTimeoutTimer?
    ensures
      var v := OnTimer(s, key, row, now);
      v.Write? ==> Calm(s, v.out.state)
  {
    hide AppendAndWake, Append, ScheduleTask, Calm, RetryRows;
    CalmSelf(s);
    forall a: Attrs | !a.ActivityStarted? ensures AppendAndWake(s, a, now).Ok? ==> Calm(s, AppendAndWake(s, a, now).value.state) {
      if AppendAndWake(s, a, now).Ok? { WakeCalm(s, a, now); }
    }
    forall a: Attrs | !a.ActivityStarted? ensures Append(s, a, now).Ok? ==> Calm(s, Append(s, a, now).value) {
      if Append(s, a, now).Ok? { AppendCalm(s, a, now); }
    }
    if ScheduleTask(s, now).Ok? { ScheduleCalm(s, now); }
  }

  /** Requests that bring no attempt along and fail none. */
  lemma PlainRequestsCalm(s: State, req: Request, draw: Draw, now: Time)
    requires !req.PollActivity? && !req.TimerDue? && !req.RespondTask? && !req.RespondActivityFailed?
    ensures
      var v := Handle(s, req, draw, now);
      v.Write? ==> Calm(s, v.out.state)
  {
    hide AppendAndWake, Append, ScheduleTask, Calm, RetryRows, OwnsTask;
    CalmSelf(s);
    forall a: Attrs | !a.ActivityStarted? ensures AppendAndWake(s, a, now).Ok? ==> Calm(s, AppendAndWake(s, a, now).value.state) {
      if AppendAndWake(s, a, now).Ok? { WakeCalm(s, a, now); }
    }
    forall a: Attrs | !a.ActivityStarted? ensures Append(s, a, now).Ok? ==> Calm(s, Append(s, a, now).value) {
      if Append(s, a, now).Ok? { AppendCalm(s, a, now); }
    }
    if req.HeartbeatActivity? && req.scheduledId in s.activities.byId && RecordHeartbeat(s, req.scheduledId, req.details, now).Ok? {
      HeartbeatCalm(s, req.scheduledId, req.details, now);
    }
  }

  lemma HeartbeatCalm(s: State, k: int, details: Payload, now: Time)
    requires RecordHeartbeat(s, k, details, now).Ok?
    ensures Calm(s, RecordHeartbeat(s, k, details, now).value)
  {
  }

  /** No request takes an attempt past its policy, as long as it brings none along that is. */
  lemma HandleKeepsWithin(s: State, req: Request, draw: Draw, now: Time)
    requires Ready(s, now) && Sound(s) && BringsWithin(s, req) && Handle(s, req, draw, now).Write?
    ensures
      var t := Handle(s, req, draw, now).out.state;
      AllWithin(t) && StartsWithin(t.events)
  {
    hide Durable, AllWithin, StartsWithin, Calm, RespondWithCommands, Finalize, OwnsTask, StartActivityTask, OnTimer, FailActivity, Restoring, Plain,
         Signal, RequestCancel, Terminate, StartTask, FailTask, CompleteActivity, CancelActivity, RecordHeartbeat;
    match req
    case PollActivity(k, attempt, identity, requestId) =>
      PollKeeps(s, k, attempt, identity, OrElse(requestId, draw.freshId), draw, now);
    case TimerDue(key, row) =>
      if key.kind.ActivityRetryTimer? || key.kind.ActivityTimeoutTimer? {
        ActivityTimersKeep(s, key, row, now);
      } else {
        OtherTimersCalm(s, key, row, now);
        CalmKeeps(s, OnTimer(s, key, row, now).out.state);
      }
    case RespondTask(identity, cmds) =>
      ResponseCalm(s, cmds, identity, draw, now);
      var step := RespondWithCommands(s, cmds, identity, draw, now).step;
      CalmKeeps(s, step.state);
      FinalizeWithin(step, draw);
    case RespondActivityFailed(k, failure) =>
      PlainState(Restoring(FailActivity(s, k, failure.value, now), k, s.activities.byId[k].startedId));
      FailureKeeps(s, k, failure.value, s.activities.byId[k].startedId, now);
    case _ =>
      PlainRequestsCalm(s, req, draw, now);
      CalmKeeps(s, Handle(s, req, draw, now).out.state);
  }

  lemma PlainState(r: Result<Step>)
    ensures Plain(r, []).Write? ==> r.Ok? && Plain(r, []).out.state == r.value.state
  {
    hide RetryRows;
  }

  // ------------------------------------------------------------------
  // Runs
  // ------------------------------------------------------------------

  lemma RecordWithin(s: State, e: Event)
    requires Record(s, e).Ok? && e.id == |s.events| + 1 && AllWithin(s) && StartWithin(s.events + [e], |s.events|)
    requires forall k :: k in s.activities.byId ==> Recorded(k, s.activities.byId[k], s.events)
    ensures AllWithin(Record(s, e).value)
  {
    hide InfoFrom, StatusAfter, ApplyToTimers, ApplyToTask;
  }

  /** What a cold replay makes of the attempts is within the policies, if what the history says of them is. */
  lemma {:induction false} ReplayWithin(runId: string, h: seq<Event>)
    requires WellFormed(h) && Replay(runId, h).Ok? && StartsWithin(h)
    ensures AllWithin(Replay(runId, h).value)
    decreases |h|
  {
    hide Record, RefsOk, AllWithin, Policies.Recorded;
    if h == [] {
      assert AllWithin(Empty(runId)) by { NoneWithin(runId); }
    } else {
      var n := |h| - 1;
      WellFormedPrefix(h, n);
      forall i | 0 <= i < n ensures StartWithin(h[..n], i) {
        assert StartWithin(h, i);
      }
      ReplayWithin(runId, h[..n]);
      ReplayKeepsOptions(runId, h[..n]);
      assert WellPlaced(h, n) && StartWithin(h, n);
      assert h == h[..n] + [h[n]];
      RecordWithin(Replay(runId, h[..n]).value, h[n]);
    }
  }

  lemma NoneWithin(runId: string)
    ensures AllWithin(Empty(runId))
  {
  }

  lemma ReloadWithin(s: State)
    requires Sound(s) && Reload(s).Some?
    ensures AllWithin(Reload(s).value) && Reload(s).value.events == s.events
  {
    hide Linked, Agree, AllWithin, StartsWithin, Replay, WellFormed;
    ReplayWithin(s.runId, s.events);
    ReplayKeepsOptions(s.runId, s.events);
  }

  /** The run has been that many attempts into the activity before: dispatched references and index rows carry the attempt
      the state had when they were made. */
  predicate Known(states: seq<State>, n: nat, k: int, attempt: int)
    requires n < |states|
  {
    exists m :: 0 <= m <= n && KnownAt(states[m], k, attempt)
  }

  predicate KnownAt(s: State, k: int, attempt: int) { k in s.activities.byId && attempt <= s.activities.byId[k].attempts.number }

  predicate Faithful(states: seq<State>, turns: seq<Turn>)
    requires |states| == |turns| + 1
  {
    forall n :: 0 <= n < |turns| && Brought(turns[n].req).Some? ==>
      Known(states, n, Brought(turns[n].req).value.0, Brought(turns[n].req).value.1)
  }

  lemma CreateWithin(o: Origin)
    requires Startable(o)
    ensures Create(o.runId, o.start, o.birth, o.born).Ok?
    ensures
      var s := Create(o.runId, o.start, o.birth, o.born).value.state;
      AllWithin(s) && StartsWithin(s.events)
  {
    hide Start, ScheduleTask, Signal, AppendAndWake, Durable, Calm, AllWithin, StartsWithin;
    CreateDurable(o.runId, o.start, o.birth, o.born);
    StartDurable(o.runId, o.start, o.born);
    var s := Start(Empty(o.runId), o.start, o.born).value;
    FirstWithin(o);
    CalmSelf(s);
    match o.birth
    case Deferred(_) => CalmKeeps(s, s);
    case Immediate =>
      ScheduleCalm(s, o.born);
      CalmKeeps(s, ScheduleTask(s, o.born).value.state);
    case WithSignal(name, input) =>
      SignalCalm(s, name, input, o.born);
      var t := Signal(s, name, input, o.born).value.state;
      CalmKeeps(s, t);
      ScheduleCalm(t, o.born);
      CalmKeeps(t, ScheduleTask(t, o.born).value.state);
  }

  lemma SignalCalm(s: State, name: string, input: Payload, now: Time)
    ensures Signal(s, name, input, now).Ok? ==> Calm(s, Signal(s, name, input, now).value.state)
  {
    hide AppendAndWake, Calm;
    if Signal(s, name, input, now).Ok? { WakeCalm(s, Signaled(name, input), now); }
  }

  lemma FirstWithin(o: Origin)
    requires Start(Empty(o.runId), o.start, o.born).Ok?
    ensures
      var s := Start(Empty(o.runId), o.start, o.born).value;
      AllWithin(s) && StartsWithin(s.events)
  {
  }

  lemma NextWithin(s: State, turn: Turn)
    requires Ready(s, turn.now) && Sound(s) && BringsWithin(s, turn.req) && Next(s, turn).Some?
    ensures AllWithin(Next(s, turn).value) && StartsWithin(Next(s, turn).value.events)
  {
    hide Durable, AllWithin, StartsWithin, Handle, Reload, BringsWithin;
    if Handle(s, turn.req, turn.draw, turn.now).Write? {
      HandleKeepsWithin(s, turn.req, turn.draw, turn.now);
    }
    if Reload(s).Some? { ReloadWithin(s); }
  }

  /** What an earlier state of the run knew is within the policy, which has not changed since. */
  lemma KnownWithin(o: Origin, states: seq<State>, turns: seq<Turn>, m: nat, n: nat, k: int, attempt: int)
    requires Lives(o, states, turns) && m <= n < |states| && AllWithin(states[m]) && k in states[n].activities.byId
    requires KnownAt(states[m], k, attempt)
    ensures
      var p := PolicyOf(states[n].activities.byId[k].options);
      p.maxAttempts > 0 ==> attempt <= p.maxAttempts
  {
    hide Lives, Durable;
    LivesDurable(o, states, turns, m);
    LivesDurable(o, states, turns, n);
    HistoryGrows(o, states, turns, m, n);
    PendingIsRecorded(states[m], k);
    PendingIsRecorded(states[n], k);
    assert states[m].events[k - 1] == states[n].events[k - 1];
    WithinAt(states[m], k);
  }

  /** At every point of every run whose polls and timers carry attempts the run has known: no activity is further into its
      attempts than its policy allows, and neither is any start the history records. */
  lemma {:induction false} AttemptsStayWithin(o: Origin, states: seq<State>, turns: seq<Turn>, n: nat)
    requires Lives(o, states, turns) && Faithful(states, turns) && n < |states|
    ensures AllWithin(states[n]) && StartsWithin(states[n].events)
    decreases n
  {
    hide Durable, Next, AllWithin, StartsWithin, Kept, Create, KnownAt;
    assert Arrives(o, states, turns, n);
    if n == 0 {
      CreateWithin(o);
    } else {
      var s, turn := states[n - 1], turns[n - 1];
      AttemptsStayWithin(o, states, turns, n - 1);
      LivesDurable(o, states, turns, n);
      LivesDurable(o, states, turns, n - 1);
      if Brought(turn.req).Some? && Brought(turn.req).value.0 in s.activities.byId {
        var k, attempt := Brought(turn.req).value.0, Brought(turn.req).value.1;
        assert Known(states, n - 1, k, attempt);
        var m :| 0 <= m <= n - 1 && KnownAt(states[m], k, attempt);
        AttemptsStayWithin(o, states, turns, m);
        KnownWithin(o, states, turns, m, n - 1, k, attempt);
      }
      NextWithin(s, turn);
    }
  }
}
