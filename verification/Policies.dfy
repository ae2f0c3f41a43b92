/** Over whole runs every pending activity has a usable retry policy, so the bounds on its retries hold without a proviso. */
module Policies {
  import opened Prelude
  import opened RetryPolicy
  import opened History
  import opened Execution
  import opened Durability
  import opened ExactlyOnce
  import opened Engine
  import opened Rebuilding
  import opened Runs
  import opened Agreement
  import opened Appends
  import opened Retries

  /** A scheduled activity is recorded with a policy, and with a usable one. */
  predicate PolicyFits(a: Attrs) { a.ActivityScheduled? ==> a.options.retry.Some? && Usable(a.options.retry.value) }

  predicate PoliciesFit(h: seq<Event>) { forall i :: 0 <= i < |h| ==> PolicyFits(h[i].attrs) }

  // ----- recording -----

  lemma RecordedFits(s: State, a: Attrs, now: Time)
    requires PoliciesFit(s.events) && PolicyFits(a) && Append(s, a, now).Ok?
    ensures PoliciesFit(Append(s, a, now).value.events)
  {
    hide Apply, PolicyFits;
  }

  predicate Carries(c: Command) { c.ScheduleActivity? && c.options.retry.Some? ==> Usable(c.options.retry.value) }

  lemma EventFits(s: State, c: Command, decision: int, draw: Draw, now: Time)
    requires Carries(c) && (c.CancelTimer? ==> c.startedId in s.timers.byId) && (c.FailWorkflow? ==> c.failure.Some?)
    ensures PolicyFits(EventFor(s, c, decision, draw, now))
  {
    hide FailureVerdict, SuccessorOf;
  }

  lemma {:induction false} CommandsFit(s: State, cmds: seq<Command>, decision: int, draw: Draw, now: Time)
    requires FailuresNamed(cmds) && ApplyCommands(s, cmds, decision, draw, now).Applied?
    requires PoliciesFit(s.events) && forall i :: 0 <= i < |cmds| ==> Carries(cmds[i])
    ensures PoliciesFit(ApplyCommands(s, cmds, decision, draw, now).step.state.events)
    decreases |cmds|
  {
    hide EventFor, EffectsFor, Append, PoliciesFit, Carries;
    if cmds != [] {
      EventFits(s, cmds[0], decision, draw, now);
      RecordedFits(s, EventFor(s, cmds[0], decision, draw, now), now);
      assert forall i :: 0 <= i < |cmds[1..]| ==> cmds[1..][i] == cmds[i + 1];
      CommandsFit(ApplyCommand(s, cmds[0], decision, draw, now).step.state, cmds[1..], decision, draw, now);
    }
  }

  lemma CompletionFits(s: State, identity: string, cmds: seq<Command>, draw: Draw, now: Time)
    requires PoliciesFit(s.events) && CompleteTask(s, identity, cmds, draw, now).Applied?
    ensures PoliciesFit(CompleteTask(s, identity, cmds, draw, now).step.state.events)
  {
    hide Append, ApplyCommands, Precheck, PoliciesFit;
    var a := TaskCompleted(s.task.scheduledId, s.task.startedId, identity);
    RecordedFits(s, a, now);
    NormalizedShaped(cmds);
    forall i | 0 <= i < |cmds| ensures Carries(NormalizeBatch(cmds)[i]) {
      assert ValidCommand(cmds[i]);
    }
    CommandsFit(Append(s, a, now).value, NormalizeBatch(cmds), NextEventId(s.events), draw, now);
  }

  lemma AddsFit(s: State, t: State)
    requires PoliciesFit(s.events) && Adds(s, t)
    ensures PoliciesFit(t.events)
  {
    hide TimeoutsSet;
    forall i | 0 <= i < |t.events| ensures PolicyFits(t.events[i].attrs) {
      if i < |s.events| { assert t.events[i] == s.events[i]; }
    }
  }

  lemma ResponseFits(s: State, cmds: seq<Command>, identity: string, draw: Draw, now: Time)
    requires PoliciesFit(s.events) && RespondWithCommands(s, cmds, identity, draw, now).Applied?
    ensures PoliciesFit(RespondWithCommands(s, cmds, identity, draw, now).step.state.events)
  {
    hide CompleteTask, ScheduleTask, PoliciesFit, Adds;
    CompletionFits(s, identity, cmds, draw, now);
    var t := CompleteTask(s, identity, cmds, draw, now).step.state;
    if ScheduleTask(t, now).Ok? {
      ScheduleAdds(t, now);
      AddsFit(t, ScheduleTask(t, now).value.state);
    }
  }

  lemma FinalizeFits(step: Step, draw: Draw)
    requires PoliciesFit(step.state.events) && Finalize(step, draw).Write?
    ensures PoliciesFit(Finalize(step, draw).out.state.events)
  {
    hide RetryRows, RunsIn, OthersIn;
  }

  // ----- runs -----

  lemma NextFits(s: State, turn: Turn)
    requires Ready(s, turn.now) && PoliciesFit(s.events) && Next(s, turn).Some?
    ensures PoliciesFit(Next(s, turn).value.events)
  {
    hide Durable, PoliciesFit, Adds, Rebuild, Agree, RespondWithCommands, Finalize, OwnsTask, Plain, OnTimer, StartActivityTask;
    ReloadAgrees(s);
    if Reload(s).Some? {
      AgreeHistory(Reload(s).value, s);
    }
    if Handle(s, turn.req, turn.draw, turn.now).Write? {
      if turn.req.RespondTask? {
        ResponseFits(s, turn.req.commands, turn.req.identity, turn.draw, turn.now);
        FinalizeFits(RespondWithCommands(s, turn.req.commands, turn.req.identity, turn.draw, turn.now).step, turn.draw);
      } else {
        HandleAdds(s, turn.req, turn.draw, turn.now);
        AddsFit(s, Handle(s, turn.req, turn.draw, turn.now).out.state);
      }
    }
  }

  lemma FirstFits(h: seq<Event>)
    requires |h| == 1 && h[0].attrs.ExecutionStarted?
    ensures PoliciesFit(h)
  {
  }

  lemma {:induction false} LivesFit(o: Origin, states: seq<State>, turns: seq<Turn>, n: nat)
    requires Lives(o, states, turns) && n < |states|
    ensures PoliciesFit(states[n].events)
  {
    hide Durable, Next, PoliciesFit, Kept, Create, Adds, Start;
    assert Arrives(o, states, turns, n);
    if n == 0 {
      CreateAdds(o.runId, o.start, o.birth, o.born);
      StartDurable(o.runId, o.start, o.born);
      FirstFits(Start(Empty(o.runId), o.start, o.born).value.events);
      AddsFit(Start(Empty(o.runId), o.start, o.born).value, states[0]);
    } else {
      LivesFit(o, states, turns, n - 1);
      LivesDurable(o, states, turns, n);
      NextFits(states[n - 1], turns[n - 1]);
    }
  }

  // ----- what is pending is what was recorded -----

  predicate Recorded(k: int, a: Activity, h: seq<Event>) {
    1 <= k <= |h| && h[k - 1].attrs.ActivityScheduled? && a.options == h[k - 1].attrs.options
  }

  lemma ActivitiesKeepOptions(acts: Activities, h: seq<Event>, e: Event)
    requires ActivityEvent(e.attrs) && ApplyToActivities(acts, e).Ok? && e.id == |h| + 1
    requires forall k :: k in acts.byId ==> Recorded(k, acts.byId[k], h)
    ensures
      var after := ApplyToActivities(acts, e).value;
      forall k :: k in after.byId ==> Recorded(k, after.byId[k], h + [e])
  {
  }

  lemma RecordKeepsOptions(s: State, e: Event)
    requires Record(s, e).Ok? && e.id == |s.events| + 1
    requires forall k :: k in s.activities.byId ==> Recorded(k, s.activities.byId[k], s.events)
    ensures
      var t := Record(s, e).value;
      forall k :: k in t.activities.byId ==> Recorded(k, t.activities.byId[k], t.events)
  {
    hide InfoFrom, StatusAfter, ApplyToTimers, ApplyToTask, ApplyToActivities;
    if ActivityEvent(e.attrs) {
      ActivitiesKeepOptions(s.activities, s.events, e);
    }
  }

  lemma {:induction false} ReplayKeepsOptions(runId: string, h: seq<Event>)
    requires WellFormed(h) && Replay(runId, h).Ok?
    ensures
      var s := Replay(runId, h).value;
      s.events == h && forall k :: k in s.activities.byId ==> Recorded(k, s.activities.byId[k], h)
    decreases |h|
  {
    hide Record, RefsOk;
    if h != [] {
      var n := |h| - 1;
      WellFormedPrefix(h, n);
      ReplayKeepsOptions(runId, h[..n]);
      ReplayEvents(runId, h);
      assert WellPlaced(h, n);
      RecordKeepsOptions(Replay(runId, h[..n]).value, h[n]);
    }
  }

  lemma PendingIsRecorded(s: State, k: int)
    requires Durable(s) && k in s.activities.byId
    ensures Recorded(k, s.activities.byId[k], s.events)
  {
    hide Linked, WellFormed, Replay;
    ReplayKeepsOptions(s.runId, s.events);
    var t := Replay(s.runId, s.events).value;
    assert Core(t.activities.byId[k]) == Core(s.activities.byId[k]);
  }

  /** At every point of every run: a pending activity has a usable policy, and an attempt that fails or times out is re-armed
      only within it. */
  lemma RunsRetryWithinBounds(o: Origin, states: seq<State>, turns: seq<Turn>, n: nat, k: int, failure: Failure, kind: TimeoutKind,
                              now: Time)
    requires Lives(o, states, turns) && n < |states| && k in states[n].activities.byId
    ensures Usable(PolicyOf(states[n].activities.byId[k].options))
    ensures
      var r := FailActivity(states[n], k, failure, now);
      r.Ok? && Rearmed(states[n], r.value, k) ==> WithinBounds(states[n], r.value, k, now)
    ensures
      var r := TimeoutActivity(states[n], k, kind, now);
      r.Ok? && Rearmed(states[n], r.value, k) ==> WithinBounds(states[n], r.value, k, now)
  {
    hide Lives, Durable, FailActivity, TimeoutActivity, WithinBounds, Usable;
    LivesDurable(o, states, turns, n);
    LivesFit(o, states, turns, n);
    PendingIsRecorded(states[n], k);
    assert PolicyFits(states[n].events[k - 1].attrs);
    ActivityRefs(states[n], k);
    RetriesStayInBounds(states[n], k, failure, kind, now);
  }
}
