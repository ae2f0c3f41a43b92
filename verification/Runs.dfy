/** Whole runs: creation followed by any sequence of requests, lost writes and reloads. */
module Runs {
  import opened Prelude
  import opened History
  import opened Execution
  import opened Durability
  import opened Engine
  import opened Rebuilding
  import ExactlyOnce

  // ------------------------------------------------------------------
  // Creation
  // ------------------------------------------------------------------

  lemma StartDurable(runId: string, st: StartAttrs, now: Time)
    requires now > 0 && st.workflowType != "" && st.taskQueue != ""
    ensures Start(Empty(runId), st, now).Ok?
    ensures Durable(Start(Empty(runId), st, now).value)
    ensures |Start(Empty(runId), st, now).value.events| == 1 && LastTime(Start(Empty(runId), st, now).value) == now
    ensures Start(Empty(runId), st, now).value.runId == runId
    ensures Open(Start(Empty(runId), st, now).value)
    ensures Start(Empty(runId), st, now).value.events[0].attrs.ExecutionStarted?
  {
    var s := Start(Empty(runId), st, now).value;
    assert s.events[..0] == [];
    assert Replay(runId, []) == Ok(Empty(runId));
    assert Replay(runId, s.events) == Ok(s);
    assert WellPlaced(s.events, 0);
  }

  /** Every way of creating a run leaves a durable first state. */
  lemma CreateDurable(runId: string, st: StartAttrs, birth: Birth, now: Time)
    requires now > 0 && st.workflowType != "" && st.taskQueue != ""
    requires birth.WithSignal? ==> birth.name != ""
    ensures Create(runId, st, birth, now).Ok?
    ensures Ready(Create(runId, st, birth, now).value.state, now)
    ensures Create(runId, st, birth, now).value.state.runId == runId
  {
    hide Durable, Start, Append, ScheduleTask;
    StartDurable(runId, st, now);
    var s := Start(Empty(runId), st, now).value;
    ScheduleKept(s, now);
    KeptParts(s, ScheduleTask(s, now).value.state, now);
    if birth.WithSignal? {
      SignalSucceeds(s, birth.name, birth.input, now);
      SignalKept(s, birth.name, birth.input, now);
      var t := Signal(s, birth.name, birth.input, now).value.state;
      KeptParts(s, t, now);
      ScheduleKept(t, now);
      KeptParts(t, ScheduleTask(t, now).value.state, now);
    }
  }

  lemma SignalSucceeds(s: State, name: string, input: Payload, now: Time)
    requires Open(s) && Ready(s, now) && name != ""
    ensures Signal(s, name, input, now).Ok?
  {
    hide Durable, ScheduleTask, Kept;
    AppendKept(s, Signaled(name, input), now);
    KeptParts(s, Append(s, Signaled(name, input), now).value, now);
    ScheduleKept(Append(s, Signaled(name, input), now).value, now);
  }

  // ------------------------------------------------------------------
  // Reloading
  // ------------------------------------------------------------------

  /** A cold load: validate the stored history and fold it. */
  function Reload(s: State): Option<State> {
    match Rebuild(s.runId, s.events)
    case Ok(t) => Some(t)
    case Err(_) => None
  }

  lemma ActivitiesLinkedAgree(a: Activities, b: Activities, h: seq<Event>)
    requires AgreeActivities(a, b) && ActivitiesLinked(b, h)
    ensures ActivitiesLinked(a, h)
  {
    hide Refers;
    forall k | k in a.byId
      ensures ActivityLinked(k, a.byId[k], h)
      ensures a.byId[k].activityId == b.byId[k].activityId
    {
      assert Core(a.byId[k]) == Core(b.byId[k]);
      assert ActivityLinked(k, b.byId[k], h);
    }
  }

  lemma LinkedAgree(t: State, s: State)
    requires Agree(t, s) && Linked(s)
    ensures Linked(t)
  {
    hide TaskLinked, TimersLinked, ActivitiesLinked, Dense;
    ActivitiesLinkedAgree(t.activities, s.activities, s.events);
    if !Open(s) {
      assert t.activities.byId.Keys == {};
      assert t.activities == NO_ACTIVITIES;
    }
  }

  lemma AgreeSelf(s: State)
    ensures Agree(s, s)
  {
  }

  /** A durable state can be reloaded exactly while its history is under the cap, and loses only per-attempt fields. */
  lemma ReloadAgrees(s: State)
    requires Durable(s)
    ensures Reload(s).Some? <==> |s.events| <= MAX_EVENTS
    ensures Reload(s).Some? ==> Agree(Reload(s).value, s) && Durable(Reload(s).value)
  {
    hide Linked, WellFormed, Agree;
    if |s.events| <= MAX_EVENTS {
      var t := Reload(s).value;
      LinkedAgree(t, s);
      AgreeSelf(t);
      AgreeHistory(t, s);
    }
  }

  lemma AgreeHistory(t: State, s: State)
    requires Agree(t, s)
    ensures t.runId == s.runId && t.events == s.events && t.status == s.status
    ensures t.info == s.info && t.task == s.task && t.timers == s.timers
  {
  }

  // ------------------------------------------------------------------
  // Runs of turns
  // ------------------------------------------------------------------

  /** One request with its clock reading, and whether the store took the write. */
  datatype Turn = Turn(req: Request, draw: Draw, now: Time, stored: bool)

  /** The state a replica serves next; after an error it reloads what is stored, and None means it cannot. */
  function Next(s: State, turn: Turn): Option<State> {
    match Handle(s, turn.req, turn.draw, turn.now)
    case Noop => Some(s)
    case Write(out) => if turn.stored then Some(out.state) else Reload(s)
    case _ => Reload(s)
  }

  /** How a run began. */
  datatype Origin = Origin(runId: string, start: StartAttrs, birth: Birth, born: Time)

  predicate Startable(o: Origin) {
    && o.born > 0 && o.start.workflowType != "" && o.start.taskQueue != ""
    && (o.birth.WithSignal? ==> o.birth.name != "")
  }

  /** The clock before turn `n`. */
  function ClockAt(o: Origin, turns: seq<Turn>, n: nat): Time
    requires n <= |turns|
  {
    if n == 0 then o.born else turns[n - 1].now
  }

  /** State `n` of a run: creation first, then the state each turn leads to. Clock readings do not go back, and fresh
      identifiers are not empty. */
  predicate Arrives(o: Origin, states: seq<State>, turns: seq<Turn>, n: nat)
    requires |states| == |turns| + 1 && n < |states|
  {
    if n == 0 then
      && Startable(o)
      && Create(o.runId, o.start, o.birth, o.born).Ok?
      && states[0] == Create(o.runId, o.start, o.birth, o.born).value.state
    else
      && ClockAt(o, turns, n - 1) <= turns[n - 1].now && turns[n - 1].draw.freshId != ""
      && Next(states[n - 1], turns[n - 1]) == Some(states[n])
  }

  /** `states` are the states a replica goes through from the creation of a run. */
  predicate Lives(o: Origin, states: seq<State>, turns: seq<Turn>) {
    && |states| == |turns| + 1
    && forall n {:trigger Arrives(o, states, turns, n)} :: 0 <= n < |states| ==> Arrives(o, states, turns, n)
  }

  lemma NextKept(s: State, turn: Turn)
    requires Ready(s, turn.now) && turn.draw.freshId != ""
    ensures Next(s, turn).Some? ==> Kept(s, Next(s, turn).value, turn.now)
  {
    hide Durable, Handle, Agree, Kept, Rebuild;
    KeptSelf(s, turn.now);
    HandleKept(s, turn.req, turn.draw, turn.now);
    ReloadAgrees(s);
    if Reload(s).Some? {
      AgreeHistory(Reload(s).value, s);
      SameHistoryKept(s, Reload(s).value, turn.now);
    }
  }

  lemma SameHistoryKept(s: State, t: State, now: Time)
    requires Ready(s, now) && Durable(t) && t.runId == s.runId && t.events == s.events
    ensures Kept(s, t, now)
  {
    hide Durable;
  }

  /** Every state of every run is durable and belongs to that run. */
  lemma {:induction false} LivesDurable(o: Origin, states: seq<State>, turns: seq<Turn>, n: nat)
    requires Lives(o, states, turns) && n < |states|
    ensures Ready(states[n], ClockAt(o, turns, n)) && states[n].runId == o.runId
    ensures n > 0 ==> Ready(states[n - 1], turns[n - 1].now) && Kept(states[n - 1], states[n], turns[n - 1].now)
  {
    hide Durable, Next, Kept, Create;
    assert Arrives(o, states, turns, n);
    if n == 0 {
      CreateDurable(o.runId, o.start, o.birth, o.born);
    } else {
      LivesDurable(o, states, turns, n - 1);
      NextKept(states[n - 1], turns[n - 1]);
      KeptParts(states[n - 1], states[n], turns[n - 1].now);
    }
  }

  /** A run's history only ever grows. */
  lemma {:induction false} HistoryGrows(o: Origin, states: seq<State>, turns: seq<Turn>, m: nat, n: nat)
    requires Lives(o, states, turns) && m <= n < |states|
    ensures states[m].events <= states[n].events
  {
    hide Arrives, Kept, Ready;
    if m < n {
      HistoryGrows(o, states, turns, m, n - 1);
      LivesDurable(o, states, turns, n);
      KeptParts(states[n - 1], states[n], turns[n - 1].now);
    }
  }

  /** At every point of every run: the history is well formed, a rebuild from it succeeds exactly under the cap, and equals
      the live state but for the per-attempt activity fields. */
  lemma RebuildRefinesLive(o: Origin, states: seq<State>, turns: seq<Turn>, n: nat)
    requires Lives(o, states, turns) && n < |states|
    ensures WellFormed(states[n].events)
    ensures Rebuild(o.runId, states[n].events).Ok? <==> |states[n].events| <= MAX_EVENTS
    ensures Rebuild(o.runId, states[n].events).Ok? ==> Agree(Rebuild(o.runId, states[n].events).value, states[n])
  {
    hide Linked, Lives, Agree, Rebuild, WellFormed;
    LivesDurable(o, states, turns, n);
    ReloadAgrees(states[n]);
  }

  lemma DurableReplays(s: State)
    requires Durable(s)
    ensures WellFormed(s.events) && Replay(s.runId, s.events).Ok?
  {
    hide Linked, WellFormed, Agree, Replay;
  }

  /** At every point of every run: no activity was started twice, resolved twice or started after it was resolved, and no
      timer was resolved twice. */
  lemma NothingHappensTwice(o: Origin, states: seq<State>, turns: seq<Turn>, n: nat, i: nat, j: nat, id: int)
    requires Lives(o, states, turns) && n < |states| && i < j < |states[n].events|
    ensures
      var a, b := states[n].events[i].attrs, states[n].events[j].attrs;
      && !(ExactlyOnce.StartsActivity(a, id) && ExactlyOnce.StartsActivity(b, id))
      && !(ExactlyOnce.ResolvesActivity(a, id) && (ExactlyOnce.ResolvesActivity(b, id) || ExactlyOnce.StartsActivity(b, id)))
      && !(ExactlyOnce.ResolvesTimer(a, id) && ExactlyOnce.ResolvesTimer(b, id))
  {
    hide Lives, Durable, WellFormed, Replay, ExactlyOnce.StartsActivity, ExactlyOnce.ResolvesActivity, ExactlyOnce.ResolvesTimer;
    LivesDurable(o, states, turns, n);
    DurableReplays(states[n]);
    ExactlyOnce.ResolvedAtMostOnce(o.runId, states[n].events, i, j, id);
  }

  /** At every point of every run: a workflow task is scheduled, started and closed before the next one is scheduled. */
  lemma OneTaskAtATime(o: Origin, states: seq<State>, turns: seq<Turn>, n: nat, i: nat, j: nat)
    requires Lives(o, states, turns) && n < |states| && i < j < |states[n].events|
    requires TaskEvent(states[n].events[i].attrs) && TaskEvent(states[n].events[j].attrs)
    requires forall k :: i < k < j ==> !TaskEvent(states[n].events[k].attrs)
    ensures ExactlyOnce.FollowsTask(states[n].events[i].attrs, states[n].events[j].attrs)
  {
    hide Lives, Durable, WellFormed, Replay, ExactlyOnce.FollowsTask;
    LivesDurable(o, states, turns, n);
    DurableReplays(states[n]);
    ExactlyOnce.TasksNeverOverlap(o.runId, states[n].events, i, j);
  }
}
