/** Recovery: after a cold load, nothing an open run waits for is left without a reference or an index row. */
module Recovery {
  import opened Prelude
  import opened History
  import opened Execution
  import opened Durability
  import opened ExactlyOnce
  import opened Engine
  import opened Rebuilding
  import opened Runs
  import opened Batches
  import opened Agreement
  import opened Appends
  import opened TimerIndex

  // ------------------------------------------------------------------
  // What recovery does
  // ------------------------------------------------------------------

  /** References for those of the named activities that no worker has ever started. */
  function UnstartedRefs(acts: map<int, Activity>, ids: set<int>): set<Effect>
    requires ids <= acts.Keys
  {
    set k | k in ids && acts[k].startedId == 0 :: DispatchActivity(acts[k].options.taskQueue, k)
  }

  /** The references recovery hands to matching: the scheduled task, and every activity that was never started. */
  function Redispatched(s: State): set<Effect> {
    (if Scheduled(s.task) then {DispatchTask(s.task.taskQueue, s.task.scheduledId)} else {})
    + UnstartedRefs(s.activities.byId, s.activities.byId.Keys)
  }

  method RedispatchUnstarted(acts: map<int, Activity>) returns (refs: set<Effect>)
    ensures refs == UnstartedRefs(acts, acts.Keys)
  {
    refs := {};
    var todo: set<int> := acts.Keys;
    ghost var seen: set<int> := {};
    while todo != {}
      invariant seen <= acts.Keys && todo == acts.Keys - seen
      invariant refs == UnstartedRefs(acts, seen)
      decreases |todo|
    {
      var k := AnyOf(todo);
      if acts[k].startedId == 0 {
        refs := refs + {DispatchActivity(acts[k].options.taskQueue, k)};
      }
      todo := todo - {k};
      seen := seen + {k};
    }
    assert seen == acts.Keys;
  }

  /** The index once every desired row that is not armed has been upserted. */
  function Reconciled(s: State, armed: Index, index: Index): Index {
    var want := Desired(s, armed, map[], []);
    index + (want - armed.Keys)
  }

  /** Recovery of one execution: dispatch what has no holder, then re-arm every deadline the state implies. */
  method RecoverExecution(s: State, armed: Index, index: Index) returns (dispatched: set<Effect>, after: Index)
    ensures dispatched == (if Open(s) then Redispatched(s) else {})
    ensures after == (if Open(s) then Reconciled(s, armed, index) else index)
  {
    hide Desired;
    if !Open(s) { return {}, index; }
    dispatched := RedispatchUnstarted(s.activities.byId);
    if Scheduled(s.task) {
      dispatched := {DispatchTask(s.task.taskQueue, s.task.scheduledId)} + dispatched;
    }
    var want := DesiredTimers(s, armed, map[], []);
    after := index + (want - armed.Keys);
  }

  // ------------------------------------------------------------------
  // What an open run waits for
  // ------------------------------------------------------------------

  /** Every scheduled task and unstarted activity has a reference; every started task, started activity, user timer and
      run deadline has a row at its deadline. */
  predicate Covered(s: State, dispatched: set<Effect>, index: Index) {
    && (Scheduled(s.task) ==> DispatchTask(s.task.taskQueue, s.task.scheduledId) in dispatched)
    && (Started(s.task) ==> ArmedAt(index, s.task.startedId, TaskTimeoutTimer, s.task.deadline))
    && (forall k :: k in s.activities.byId ==> ActivityCovered(s.activities.byId[k], k, dispatched, index))
    && (forall st :: st in s.timers.byId ==> ArmedAt(index, st, UserTimer, s.timers.byId[st].fireAt))
    && (Sooner(s.info.runDeadline, s.info.executionDeadline) != 0 ==>
          ArmedAt(index, 1, ExecutionTimeoutTimer, Sooner(s.info.runDeadline, s.info.executionDeadline)))
  }

  predicate ActivityCovered(a: Activity, k: int, dispatched: set<Effect>, index: Index) {
    if a.startedId == 0 then DispatchActivity(a.options.taskQueue, k) in dispatched
    else ActivityDeadline(a) != 0 && ArmedAt(index, k, ActivityTimeoutTimer, ActivityDeadline(a))
  }

  // ----- clocks are running -----

  predicate TimelyTask(t: Task) {
    (t.scheduledId != 0 ==> t.timeout > 0) && (t.startedId != 0 ==> t.deadline > 0 && t.scheduledId != 0)
  }

  predicate TimelyActivity(a: Activity) {
    && (a.options.scheduleToClose > 0 || a.options.startToClose > 0)
    && (a.options.scheduleToClose > 0 ==> a.closeDeadline > 0)
    && (a.startedId != 0 && a.options.startToClose > 0 ==> a.attempts.deadline > 0)
  }

  predicate Timely(s: State) {
    TimelyTask(s.task) && forall k :: k in s.activities.byId ==> TimelyActivity(s.activities.byId[k])
  }

  predicate AllTimeoutsSet(h: seq<Event>) { forall i :: 0 <= i < |h| ==> TimeoutsSet(h[i].attrs) }

  lemma TimelyStep(s: State, e: Event)
    requires Timely(s) && Record(s, e).Ok? && TimeoutsSet(e.attrs) && e.time > 0
    ensures Timely(Record(s, e).value)
  {
    hide InfoFrom, StatusAfter;
  }

  lemma {:induction false} ReplayTimely(runId: string, h: seq<Event>)
    requires WellFormed(h) && Replay(runId, h).Ok? && AllTimeoutsSet(h)
    ensures Timely(Replay(runId, h).value)
    decreases |h|
  {
    hide Record, RefsOk, TimeoutsSet;
    if h != [] {
      var n := |h| - 1;
      WellFormedPrefix(h, n);
      assert forall i :: 0 <= i < n ==> h[..n][i] == h[i];
      ReplayTimely(runId, h[..n]);
      assert WellPlaced(h, n);
      TimelyStep(Replay(runId, h[..n]).value, h[n]);
    }
  }

  lemma StartedHasDeadline(a: Activity)
    requires TimelyActivity(a) && a.startedId != 0
    ensures ActivityDeadline(a) != 0
  {
  }

  lemma ReconciledRows(s: State, index: Index, eventId: int, kind: TimerKind, t: Time)
    requires ArmedAt(Desired(s, map[], map[], []), eventId, kind, t)
    ensures ArmedAt(Reconciled(s, map[], index), eventId, kind, t)
  {
    hide Desired;
    var empty: Index := map[];
    assert empty.Keys == {};
  }

  /** Recovering a cold load of any open run whose history bounds what it waits for covers everything. */
  lemma RecoveryCovers(runId: string, h: seq<Event>, index: Index)
    requires Rebuild(runId, h).Ok? && Open(Rebuild(runId, h).value) && AllTimeoutsSet(h)
    ensures
      var s := Rebuild(runId, h).value;
      Covered(s, Redispatched(s), Reconciled(s, map[], index))
  {
    hide Replay, WellFormed, AllTimeoutsSet, Reconciled, Desired, ActivityDeadline, Sooner, ArmedAt;
    var s := Rebuild(runId, h).value;
    ReplayTimely(runId, h);
    var after := Reconciled(s, map[], index);
    forall k | k in s.activities.byId ensures ActivityCovered(s.activities.byId[k], k, Redispatched(s), after) {
      var a := s.activities.byId[k];
      if a.startedId == 0 {
        assert DispatchActivity(a.options.taskQueue, k) in UnstartedRefs(s.activities.byId, s.activities.byId.Keys);
      } else {
        StartedHasDeadline(a);
        ActivityTimerRows(s, map[], k);
        ReconciledRows(s, index, k, ActivityTimeoutTimer, ActivityDeadline(a));
      }
    }
    forall st | st in s.timers.byId ensures ArmedAt(after, st, UserTimer, s.timers.byId[st].fireAt) {
      UserTimerRows(s, map[], st);
      ReconciledRows(s, index, st, UserTimer, s.timers.byId[st].fireAt);
    }
    if Started(s.task) {
      TaskTimerRows(s, map[]);
      ReconciledRows(s, index, s.task.startedId, TaskTimeoutTimer, s.task.deadline);
    }
    var d := Sooner(s.info.runDeadline, s.info.executionDeadline);
    if d != 0 {
      RunTimerRows(s, map[]);
      ReconciledRows(s, index, 1, ExecutionTimeoutTimer, d);
    }
  }

  // ------------------------------------------------------------------
  // Every run bounds what it waits for
  // ------------------------------------------------------------------

  lemma AddsTimely(s: State, t: State)
    requires AllTimeoutsSet(s.events) && Adds(s, t)
    ensures AllTimeoutsSet(t.events)
  {
    hide TimeoutsSet, External;
    forall i | 0 <= i < |t.events| ensures TimeoutsSet(t.events[i].attrs) {
      if i < |s.events| { assert t.events[i] == s.events[i]; }
    }
  }

  lemma CommandTimely(c: Command, a: Attrs, decision: int)
    requires ValidCommand(c) && Records(c, a, decision)
    ensures TimeoutsSet(a)
  {
    hide ValidTypeName, UsableOnceNormalized;
  }

  lemma WroteTimely(s: State, t: State, cmds: seq<Command>, identity: string, now: Time)
    requires AllTimeoutsSet(s.events) && Wrote(s, t, cmds, identity, now) && ValidBatch(cmds)
    ensures AllTimeoutsSet(t.events)
  {
    hide Records, ValidCommand;
    var n := |s.events|;
    forall i | 0 <= i < |t.events| ensures TimeoutsSet(t.events[i].attrs) {
      if i < n {
        assert t.events[i] == t.events[..n][i] == s.events[i];
      } else if i > n {
        var j := i - (n + 1);
        assert RecordsAt(cmds[j], t.events[n + 1 + j], n + 1 + j, n + 1, now) && ValidCommand(cmds[j]);
        CommandTimely(cmds[j], t.events[i].attrs, n + 1);
      }
    }
  }

  lemma RespondTimely(s: State, cmds: seq<Command>, identity: string, draw: Draw, now: Time)
    requires Ready(s, now) && AllTimeoutsSet(s.events) && RespondWithCommands(s, cmds, identity, draw, now).Applied?
    ensures AllTimeoutsSet(RespondWithCommands(s, cmds, identity, draw, now).step.state.events)
  {
    hide Durable, CompleteTask, ScheduleTask, AllTimeoutsSet, Wrote, CancelsOnce, ValidBatch, Precheck, Adds;
    BatchAtomic(s, identity, cmds, draw, now);
    var t := CompleteTask(s, identity, cmds, draw, now).step.state;
    WroteTimely(s, t, cmds, identity, now);
    if ScheduleTask(t, now).Ok? {
      ScheduleAdds(t, now);
      AddsTimely(t, ScheduleTask(t, now).value.state);
    }
  }

  lemma FinalizeTimely(step: Step, draw: Draw)
    requires AllTimeoutsSet(step.state.events) && Finalize(step, draw).Write?
    ensures AllTimeoutsSet(Finalize(step, draw).out.state.events)
  {
    hide RetryRows, RunsIn, OthersIn;
  }

  lemma NextTimely(s: State, turn: Turn)
    requires Ready(s, turn.now) && AllTimeoutsSet(s.events) && Next(s, turn).Some?
    ensures AllTimeoutsSet(Next(s, turn).value.events)
  {
    hide Durable, AllTimeoutsSet, Adds, Rebuild, Agree, RespondWithCommands, Finalize, OwnsTask, Plain, OnTimer, StartActivityTask;
    ReloadAgrees(s);
    if Reload(s).Some? {
      AgreeHistory(Reload(s).value, s);
    }
    if Handle(s, turn.req, turn.draw, turn.now).Write? {
      if turn.req.RespondTask? {
        RespondTimely(s, turn.req.commands, turn.req.identity, turn.draw, turn.now);
        FinalizeTimely(RespondWithCommands(s, turn.req.commands, turn.req.identity, turn.draw, turn.now).step, turn.draw);
      } else {
        HandleAdds(s, turn.req, turn.draw, turn.now);
        AddsTimely(s, Handle(s, turn.req, turn.draw, turn.now).out.state);
      }
    }
  }

  lemma CreateTimely(runId: string, st: StartAttrs, birth: Birth, now: Time)
    requires now > 0 && st.workflowType != "" && st.taskQueue != "" && (birth.WithSignal? ==> birth.name != "")
    ensures Create(runId, st, birth, now).Ok? && AllTimeoutsSet(Create(runId, st, birth, now).value.state.events)
  {
    hide Start, ScheduleTask, Signal, Adds, AllTimeoutsSet, Durable;
    CreateDurable(runId, st, birth, now);
    StartDurable(runId, st, now);
    var s := Start(Empty(runId), st, now).value;
    assert AllTimeoutsSet(s.events) by { FirstTimely(s.events); }
    match birth
    case Immediate =>
      ScheduleAdds(s, now);
      AddsTimely(s, ScheduleTask(s, now).value.state);
    case Deferred(_) =>
    case WithSignal(name, input) =>
      ArrivalsAdd(s, name, input, 0, now);
      var t := Signal(s, name, input, now).value.state;
      AddsTimely(s, t);
      ScheduleAdds(t, now);
      AddsTimely(t, ScheduleTask(t, now).value.state);
  }

  lemma FirstTimely(h: seq<Event>)
    requires |h| == 1 && h[0].attrs.ExecutionStarted?
    ensures AllTimeoutsSet(h)
  {
  }

  lemma {:induction false} LivesTimely(o: Origin, states: seq<State>, turns: seq<Turn>, n: nat)
    requires Lives(o, states, turns) && n < |states|
    ensures AllTimeoutsSet(states[n].events)
  {
    hide Durable, Next, AllTimeoutsSet, Kept, Create;
    assert Arrives(o, states, turns, n);
    if n == 0 {
      CreateTimely(o.runId, o.start, o.birth, o.born);
    } else {
      LivesTimely(o, states, turns, n - 1);
      LivesDurable(o, states, turns, n);
      NextTimely(states[n - 1], turns[n - 1]);
    }
  }

  /** At any point of any run, whatever the index has lost or kept: if the run is open and can still be loaded, recovery
      on a cold replica leaves everything it waits for with a reference or a row. */
  lemma RecoveryIsComplete(o: Origin, states: seq<State>, turns: seq<Turn>, n: nat, index: Index)
    requires Lives(o, states, turns) && n < |states|
    requires Open(states[n]) && |states[n].events| <= MAX_EVENTS
    ensures Rebuild(o.runId, states[n].events).Ok?
    ensures
      var s := Rebuild(o.runId, states[n].events).value;
      Open(s) && Covered(s, Redispatched(s), Reconciled(s, map[], index))
  {
    hide Durable, Lives, Rebuild, AllTimeoutsSet, Agree, Covered, Reconciled, Redispatched;
    LivesDurable(o, states, turns, n);
    LivesTimely(o, states, turns, n);
    ReloadAgrees(states[n]);
    AgreeHistory(Reload(states[n]).value, states[n]);
    RecoveryCovers(o.runId, states[n].events, index);
  }
}
