/** What the state says is what the history says: every field that is not of one attempt, stated on the events alone. */
module Clocks {
  import opened Prelude
  import opened History
  import opened Execution
  import opened Durability
  import opened ExactlyOnce
  import opened Engine
  import opened Rebuilding
  import opened Runs

  // ------------------------------------------------------------------
  // What a history says
  // ------------------------------------------------------------------

  /** The run is over: only the last event of a well-formed history can end it. */
  ghost predicate Ended(h: seq<Event>) { h != [] && Terminal(TypeOf(h[|h| - 1].attrs)) }

  ghost predicate ResolvesTimerOf(a: Attrs, st: int) { (a.TimerFired? || a.TimerCanceled?) && a.startedId == st }

  ghost predicate ResolvesActivityOf(a: Attrs, k: int) {
    (a.ActivityCompleted? || a.ActivityFailed? || a.ActivityTimedOut? || a.ActivityCanceled?) && a.scheduledId == k
  }

  ghost predicate TimerDone(h: seq<Event>, st: int) { exists i :: 0 <= i < |h| && ResolvesTimerOf(h[i].attrs, st) }

  ghost predicate ActivityDone(h: seq<Event>, k: int) { exists i :: 0 <= i < |h| && ResolvesActivityOf(h[i].attrs, k) }

  ghost predicate CancelAsked(h: seq<Event>, k: int) {
    exists i :: 0 <= i < |h| && h[i].attrs.ActivityCancelRequested? && h[i].attrs.scheduledId == k
  }

  ghost predicate StartedAs(h: seq<Event>, k: int, n: int) {
    1 <= n <= |h| && h[n - 1].attrs.ActivityStarted? && h[n - 1].attrs.scheduledId == k
  }

  ghost predicate TimerPending(h: seq<Event>, st: int) {
    1 <= st <= |h| && h[st - 1].attrs.TimerStarted? && !TimerDone(h, st) && !Ended(h)
  }

  ghost predicate ActivityPending(h: seq<Event>, k: int) {
    1 <= k <= |h| && h[k - 1].attrs.ActivityScheduled? && !ActivityDone(h, k) && !Ended(h)
  }

  ghost predicate Turns(a: Attrs) { a.TaskScheduled? || a.TaskStarted? || a.TaskCompleted? || a.TaskFailed? || a.TaskTimedOut? }

  /** The last workflow-task event scheduled or started a task. */
  ghost predicate TaskOut(h: seq<Event>) {
    exists i :: 0 <= i < |h| && OutAt(h, i)
  }

  ghost predicate OutAt(h: seq<Event>, i: nat)
    requires i < |h|
  {
    (h[i].attrs.TaskScheduled? || h[i].attrs.TaskStarted?) && forall j :: i < j < |h| ==> !Turns(h[j].attrs)
  }

  // ------------------------------------------------------------------
  // What the state must then hold
  // ------------------------------------------------------------------

  /** Exactly the timers started and not resolved, each due its duration after it was started. */
  ghost predicate TimersFollow(h: seq<Event>, timers: Timers) {
    && (forall st :: st in timers.byId <==> TimerPending(h, st))
    && (forall st :: st in timers.byId ==> TimerFollows(h, st, timers.byId[st]))
  }

  ghost predicate TimerFollows(h: seq<Event>, st: int, t: Timer) {
    && 1 <= st <= |h| && h[st - 1].attrs.TimerStarted?
    && t.startedId == st && t.timerId == h[st - 1].attrs.timerId && t.fireAt == h[st - 1].time + h[st - 1].attrs.duration
  }

  /** Exactly the activities scheduled and not resolved, with the options, clocks and requests of their events. */
  ghost predicate ActivitiesFollow(h: seq<Event>, acts: Activities) {
    && (forall k :: k in acts.byId <==> ActivityPending(h, k))
    && (forall k :: k in acts.byId ==> ActivityFollows(h, k, acts.byId[k]))
  }

  ghost predicate ActivityFollows(h: seq<Event>, k: int, a: Activity) {
    && 1 <= k <= |h| && h[k - 1].attrs.ActivityScheduled?
    && a.scheduledId == k && a.activityId == h[k - 1].attrs.activityId && a.options == h[k - 1].attrs.options
    && a.scheduledAt == h[k - 1].time
    && a.closeDeadline == (if a.options.scheduleToClose > 0 then h[k - 1].time + a.options.scheduleToClose else 0)
    && (a.cancelRequested <==> CancelAsked(h, k))
    && (if a.startedId == 0 then forall n :: !StartedAs(h, k, n) else StartedAs(h, k, a.startedId))
  }

  /** The attempt a cold replay makes of an activity: the first one, or the one its started event opened. */
  ghost predicate AttemptFollows(h: seq<Event>, a: Activity) {
    if a.startedId == 0 then a.attempts == Attempt(1, 0, 0, 0, NoPayload, "", None)
    else
      && 1 <= a.startedId <= |h| && h[a.startedId - 1].attrs.ActivityStarted?
      && var e := h[a.startedId - 1];
         a.attempts == Attempt(
           e.attrs.attempt, e.time,
           if a.options.startToClose > 0 then e.time + a.options.startToClose else 0,
           if a.options.heartbeat > 0 then e.time + a.options.heartbeat else 0,
           NoPayload, e.attrs.requestId, None)
  }

  ghost predicate AttemptsFollow(h: seq<Event>, acts: Activities) {
    forall k :: k in acts.byId ==> AttemptFollows(h, acts.byId[k])
  }

  /** The task that is out, as its scheduled and started events say; its deadline is the started event's time plus the
      scheduled event's timeout. */
  ghost predicate TaskFollows(h: seq<Event>, t: Task) {
    && (t.scheduledId != 0 <==> TaskOut(h) && !Ended(h))
    && (t.scheduledId == 0 ==> t == Task(0, 0, 0, 0, 0, 0, "", "", 0))
    && (t.scheduledId != 0 ==> TaskScheduledAs(h, t) && TaskStartedAs(h, t))
  }

  ghost predicate TaskScheduledAs(h: seq<Event>, t: Task) {
    && 1 <= t.scheduledId <= |h| && h[t.scheduledId - 1].attrs.TaskScheduled?
    && t.scheduledAt == h[t.scheduledId - 1].time && t.timeout == h[t.scheduledId - 1].attrs.timeout
    && t.attempt == h[t.scheduledId - 1].attrs.attempt && t.taskQueue == h[t.scheduledId - 1].attrs.taskQueue
    && forall j :: t.scheduledId <= j < |h| && Turns(h[j].attrs) ==> j == t.startedId - 1
  }

  ghost predicate TaskStartedAs(h: seq<Event>, t: Task) {
    if t.startedId == 0 then t.startedAt == 0 && t.deadline == 0 && t.requestId == ""
    else
      && 1 <= t.scheduledId < t.startedId <= |h| && h[t.startedId - 1].attrs.TaskStarted?
      && t.startedAt == h[t.startedId - 1].time && t.requestId == h[t.startedId - 1].attrs.requestId
      && h[t.scheduledId - 1].attrs.TaskScheduled?
      && t.deadline == h[t.startedId - 1].time + h[t.scheduledId - 1].attrs.timeout
  }

  /** What event 1 fixes, with the two deadlines of the run. */
  ghost predicate InfoFollows(h: seq<Event>, runId: string, info: Info) {
    h != [] ==>
      && h[0].attrs.ExecutionStarted?
      && var st := h[0].attrs.start;
      && info.workflowType == st.workflowType && info.taskQueue == st.taskQueue && info.startedAt == h[0].time
      && info.attempt == st.attempt && info.retry == st.retry && info.seed == st.seed && info.taskTimeout == st.taskTimeout
      && info.firstRunId == (if st.firstRunId == "" then runId else st.firstRunId)
      && info.runDeadline == (if st.runTimeout > 0 then h[0].time + st.runTimeout else 0)
      && info.executionDeadline == (if st.executionTimeout > 0 then h[0].time + st.executionTimeout else 0)
  }

  /** Open until the terminal event, and then closed at its time and as its type says. */
  ghost predicate StatusFollows(h: seq<Event>, s: State) {
    if !Ended(h) then s.status == Running && s.closedAt == 0
    else
      var e := h[|h| - 1];
      && s.closedAt == e.time
      && (e.attrs.ExecutionCompleted? ==> s.status == Completed) && (e.attrs.ExecutionFailed? ==> s.status == Failed)
      && (e.attrs.ExecutionTimedOut? ==> s.status == TimedOut) && (e.attrs.ExecutionCanceled? ==> s.status == Canceled)
      && (e.attrs.ExecutionTerminated? ==> s.status == Terminated)
      && (e.attrs.ExecutionContinuedAsNew? ==> s.status == ContinuedAsNew)
  }

  ghost predicate FirstCancel(h: seq<Event>, i: nat)
    requires i < |h|
  {
    h[i].attrs.CancelRequested? && forall j :: 0 <= j < i ==> !h[j].attrs.CancelRequested?
  }

  /** How many signals came, and the first request to cancel. */
  ghost predicate RequestsFollow(h: seq<Event>, s: State) {
    && s.signals == |set i | 0 <= i < |h| && h[i].attrs.Signaled?|
    && (s.cancelRequested <==> exists i :: 0 <= i < |h| && FirstCancel(h, i))
    && (forall i :: 0 <= i < |h| && FirstCancel(h, i) ==> s.cancelReason == h[i].attrs.reason)
  }

  ghost predicate Follows(h: seq<Event>, s: State) {
    && TimersFollow(h, s.timers) && ActivitiesFollow(h, s.activities) && TaskFollows(h, s.task)
    && InfoFollows(h, s.runId, s.info) && StatusFollows(h, s) && RequestsFollow(h, s)
  }

  // ------------------------------------------------------------------
  // One more event
  // ------------------------------------------------------------------

  lemma TimerDoneGrows(h: seq<Event>, e: Event, st: int)
    ensures TimerDone(h + [e], st) <==> TimerDone(h, st) || ResolvesTimerOf(e.attrs, st)
  {
    var g := h + [e];
    assert g[|h|] == e;
    if TimerDone(h, st) {
      var i :| 0 <= i < |h| && ResolvesTimerOf(h[i].attrs, st);
      assert g[i] == h[i];
    }
  }

  lemma ActivityDoneGrows(h: seq<Event>, e: Event, k: int)
    ensures ActivityDone(h + [e], k) <==> ActivityDone(h, k) || ResolvesActivityOf(e.attrs, k)
  {
    var g := h + [e];
    assert g[|h|] == e;
    if ActivityDone(h, k) {
      var i :| 0 <= i < |h| && ResolvesActivityOf(h[i].attrs, k);
      assert g[i] == h[i];
    }
  }

  lemma CancelAskedGrows(h: seq<Event>, e: Event, k: int)
    ensures CancelAsked(h + [e], k) <==> CancelAsked(h, k) || (e.attrs.ActivityCancelRequested? && e.attrs.scheduledId == k)
  {
    var g := h + [e];
    assert g[|h|] == e;
    if CancelAsked(h, k) {
      var i :| 0 <= i < |h| && h[i].attrs.ActivityCancelRequested? && h[i].attrs.scheduledId == k;
      assert g[i] == h[i];
    }
  }

  /** The event is recorded next, on an open run, with its references in order. */
  ghost predicate Fits(s: State, e: Event) {
    Open(s) && !Ended(s.events) && e.id == |s.events| + 1 && Record(s, e).Ok? && RefsOk(s.events, |s.events|, e.attrs)
  }

  /** An event that resolves something names something earlier. */
  lemma NothingDoneAhead(s: State, e: Event)
    requires Fits(s, e) && (forall i :: 0 <= i < |s.events| ==> RefsOk(s.events, i, s.events[i].attrs))
    ensures !TimerDone(s.events + [e], e.id) && !ActivityDone(s.events + [e], e.id) && !CancelAsked(s.events + [e], e.id)
    ensures forall n :: !StartedAs(s.events + [e], e.id, n)
  {
    var h, g := s.events, s.events + [e];
    forall i | 0 <= i < |g|
      ensures !ResolvesTimerOf(g[i].attrs, e.id) && !ResolvesActivityOf(g[i].attrs, e.id)
      ensures !(g[i].attrs.ActivityCancelRequested? && g[i].attrs.scheduledId == e.id)
      ensures !(g[i].attrs.ActivityStarted? && g[i].attrs.scheduledId == e.id)
    {
      if i < |h| { assert g[i] == h[i] && RefsOk(h, i, h[i].attrs); }
    }
  }

  /** Which part of the state an event touches. */
  lemma RecordParts(s: State, e: Event)
    requires Record(s, e).Ok?
    ensures
      var t := Record(s, e).value;
      var over := Terminal(TypeOf(e.attrs));
      && t.events == s.events + [e] && t.runId == s.runId
      && (if over then t.timers == NO_TIMERS else if TimerEvent(e.attrs) then Ok(t.timers) == ApplyToTimers(s.timers, e) else t.timers == s.timers)
      && (if over then t.activities == NO_ACTIVITIES
          else if ActivityEvent(e.attrs) then Ok(t.activities) == ApplyToActivities(s.activities, e) else t.activities == s.activities)
      && (if over then t.task == NO_TASK else if TaskEvent(e.attrs) then Ok(t.task) == ApplyToTask(s.task, e) else t.task == s.task)
  {
    hide ApplyToTask, ApplyToActivities, ApplyToTimers, InfoFrom, StatusAfter;
  }

  ghost predicate RefsFit(h: seq<Event>) { forall i :: 0 <= i < |h| ==> RefsOk(h, i, h[i].attrs) }

  // ----- timers -----

  lemma TimerStays(h: seq<Event>, e: Event, st: int, t: Timer)
    requires TimerFollows(h, st, t)
    ensures TimerFollows(h + [e], st, t)
  {
  }

  lemma TimerPendingGrows(h: seq<Event>, e: Event, st: int)
    requires !Terminal(TypeOf(e.attrs)) && !Ended(h) && st != |h| + 1
    ensures TimerPending(h + [e], st) <==> TimerPending(h, st) && !ResolvesTimerOf(e.attrs, st)
  {
    hide TypeOf, Terminal, TimerDone;
    TimerDoneGrows(h, e, st);
    if 1 <= st <= |h| { assert (h + [e])[st - 1] == h[st - 1]; }
  }

  lemma OverPendsNothing(h: seq<Event>, e: Event)
    requires Terminal(TypeOf(e.attrs))
    ensures Ended(h + [e]) && (forall st :: !TimerPending(h + [e], st)) && (forall k :: !ActivityPending(h + [e], k))
  {
    hide TypeOf, Terminal, TimerDone, ActivityDone;
  }

  lemma TimersStep(s: State, e: Event)
    requires Fits(s, e) && TimersFollow(s.events, s.timers) && RefsFit(s.events)
    ensures TimersFollow(s.events + [e], Record(s, e).value.timers)
  {
    hide Record, RefsOk, TimerDone, ActivityDone, CancelAsked, StartedAs, TimerPending, TimerFollows, TypeOf, Terminal, Ended;
    var h, g, ts := s.events, s.events + [e], Record(s, e).value.timers;
    RecordParts(s, e);
    if Terminal(TypeOf(e.attrs)) {
      OverPendsNothing(h, e);
    } else {
      NothingDoneAhead(s, e);
      NewTimerPending(h, e);
      forall st ensures st in ts.byId <==> TimerPending(g, st) {
        if st != |h| + 1 { TimerPendingGrows(h, e, st); }
        NotYet(h, st);
      }
      forall st | st in ts.byId ensures TimerFollows(g, st, ts.byId[st]) {
        if st == |h| + 1 {
          NewTimerFollows(h, e);
        } else {
          TimerStays(h, e, st, s.timers.byId[st]);
        }
      }
    }
  }

  lemma NotYet(h: seq<Event>, st: int)
    ensures st == |h| + 1 ==> !TimerPending(h, st) && !ActivityPending(h, st)
  {
    hide TimerDone, ActivityDone, Ended;
  }

  lemma NewTimerPending(h: seq<Event>, e: Event)
    requires !Terminal(TypeOf(e.attrs)) && e.id == |h| + 1 && !TimerDone(h + [e], e.id) && !ActivityDone(h + [e], e.id)
    ensures TimerPending(h + [e], |h| + 1) <==> e.attrs.TimerStarted?
    ensures ActivityPending(h + [e], |h| + 1) <==> e.attrs.ActivityScheduled?
  {
    hide TypeOf, Terminal, TimerDone, ActivityDone;
  }

  lemma NewTimerFollows(h: seq<Event>, e: Event)
    requires e.id == |h| + 1 && e.attrs.TimerStarted?
    ensures TimerFollows(h + [e], |h| + 1, Timer(e.id, e.attrs.timerId, e.time + e.attrs.duration))
  {
  }

  // ----- activities -----

  lemma ActivityPendingGrows(h: seq<Event>, e: Event, k: int)
    requires !Terminal(TypeOf(e.attrs)) && !Ended(h) && k != |h| + 1
    ensures ActivityPending(h + [e], k) <==> ActivityPending(h, k) && !ResolvesActivityOf(e.attrs, k)
  {
    hide TypeOf, Terminal, ActivityDone;
    ActivityDoneGrows(h, e, k);
    if 1 <= k <= |h| { assert (h + [e])[k - 1] == h[k - 1]; }
  }

  lemma StartedGrows(h: seq<Event>, e: Event, k: int, n: int)
    ensures StartedAs(h + [e], k, n) <==> StartedAs(h, k, n) || (n == |h| + 1 && e.attrs.ActivityStarted? && e.attrs.scheduledId == k)
  {
  }

  /** An activity the event does not name. */
  lemma ActivityStays(h: seq<Event>, e: Event, k: int, a: Activity)
    requires ActivityFollows(h, k, a)
    requires !((e.attrs.ActivityStarted? || e.attrs.ActivityCancelRequested?) && e.attrs.scheduledId == k)
    ensures ActivityFollows(h + [e], k, a)
  {
    hide CancelAsked, StartedAs;
    assert (h + [e])[k - 1] == h[k - 1];
    CancelAskedGrows(h, e, k);
    forall n ensures StartedAs(h + [e], k, n) <==> StartedAs(h, k, n) {
      StartedGrows(h, e, k, n);
    }
  }

  lemma ActivityStarts(h: seq<Event>, e: Event, k: int, a: Activity, attempts: Attempt)
    requires ActivityFollows(h, k, a) && e.attrs.ActivityStarted? && e.attrs.scheduledId == k && e.id == |h| + 1
    ensures ActivityFollows(h + [e], k, a.(startedId := e.id, attempts := attempts))
  {
    hide CancelAsked;
    assert (h + [e])[k - 1] == h[k - 1];
    CancelAskedGrows(h, e, k);
  }

  lemma ActivityAsked(h: seq<Event>, e: Event, k: int, a: Activity)
    requires ActivityFollows(h, k, a) && e.attrs.ActivityCancelRequested? && e.attrs.scheduledId == k
    ensures ActivityFollows(h + [e], k, a.(cancelRequested := true))
  {
    hide CancelAsked, StartedAs;
    assert (h + [e])[k - 1] == h[k - 1];
    CancelAskedGrows(h, e, k);
    forall n ensures StartedAs(h + [e], k, n) <==> StartedAs(h, k, n) {
      StartedGrows(h, e, k, n);
    }
  }

  lemma NewActivityFollows(h: seq<Event>, e: Event)
    requires e.id == |h| + 1 && e.attrs.ActivityScheduled? && !CancelAsked(h + [e], e.id) && (forall n :: !StartedAs(h + [e], e.id, n))
    ensures ActivityFollows(h + [e], e.id, NewActivity(e.id, e.time, e.attrs.activityId, e.attrs.options))
  {
    hide CancelAsked, StartedAs;
  }

  lemma ActivitiesStep(s: State, e: Event)
    requires Fits(s, e) && ActivitiesFollow(s.events, s.activities) && RefsFit(s.events)
    ensures ActivitiesFollow(s.events + [e], Record(s, e).value.activities)
  {
    hide Record, RefsOk, TimerDone, ActivityDone, CancelAsked, StartedAs, ActivityPending, ActivityFollows, TypeOf, Terminal, Ended, NewActivity,
         OpenAttempt;
    var h, g, acts := s.events, s.events + [e], Record(s, e).value.activities;
    RecordParts(s, e);
    if Terminal(TypeOf(e.attrs)) {
      OverPendsNothing(h, e);
    } else {
      NothingDoneAhead(s, e);
      NewTimerPending(h, e);
      NotYet(h, |h| + 1);
      forall k ensures k in acts.byId <==> ActivityPending(g, k) {
        if k != |h| + 1 { ActivityPendingGrows(h, e, k); }
      }
      forall k | k in acts.byId ensures ActivityFollows(g, k, acts.byId[k]) {
        if k == |h| + 1 {
          NewActivityFollows(h, e);
        } else {
          ActivityMoves(h, e, k, s.activities);
        }
      }
    }
  }

  lemma ActivityMoves(h: seq<Event>, e: Event, k: int, acts: Activities)
    requires k in acts.byId && ActivityFollows(h, k, acts.byId[k]) && e.id == |h| + 1 && k != e.id
    requires ActivityEvent(e.attrs) ==> ApplyToActivities(acts, e).Ok?
    ensures ActivityEvent(e.attrs) && k in ApplyToActivities(acts, e).value.byId ==> ActivityFollows(h + [e], k, ApplyToActivities(acts, e).value.byId[k])
    ensures !ActivityEvent(e.attrs) ==> ActivityFollows(h + [e], k, acts.byId[k])
  {
    hide ActivityFollows, OpenAttempt, NewActivity;
    var a := acts.byId[k];
    if e.attrs.ActivityStarted? && e.attrs.scheduledId == k {
      ActivityStarts(h, e, k, a, OpenAttempt(a, e.time, e.attrs.attempt, e.attrs.requestId));
    } else if e.attrs.ActivityCancelRequested? && e.attrs.scheduledId == k {
      ActivityAsked(h, e, k, a);
    } else {
      ActivityStays(h, e, k, a);
    }
  }

  // ----- attempts of a cold replay -----

  lemma AttemptStays(h: seq<Event>, e: Event, a: Activity)
    requires AttemptFollows(h, a)
    ensures AttemptFollows(h + [e], a)
  {
  }

  lemma AttemptsStep(s: State, e: Event)
    requires Fits(s, e) && AttemptsFollow(s.events, s.activities)
    ensures AttemptsFollow(s.events + [e], Record(s, e).value.activities)
  {
    hide Record, RefsOk, TypeOf, Terminal, Ended, AttemptFollows;
    var h, g, acts := s.events, s.events + [e], Record(s, e).value.activities;
    RecordParts(s, e);
    forall k | k in acts.byId ensures AttemptFollows(g, acts.byId[k]) {
      if k in s.activities.byId {
        AttemptStays(h, e, s.activities.byId[k]);
        AttemptMoves(h, e, s.activities, k);
      } else {
        AttemptMoves(h, e, s.activities, k);
      }
    }
  }

  lemma AttemptMoves(h: seq<Event>, e: Event, acts: Activities, k: int)
    requires e.id == |h| + 1 && ActivityEvent(e.attrs) ==> ApplyToActivities(acts, e).Ok?
    requires k in acts.byId ==> AttemptFollows(h, acts.byId[k])
    ensures e.id == |h| + 1 && ActivityEvent(e.attrs) && k in ApplyToActivities(acts, e).value.byId ==>
              AttemptFollows(h + [e], ApplyToActivities(acts, e).value.byId[k])
  {
    if k in acts.byId { AttemptStays(h, e, acts.byId[k]); }
  }

  // ----- the workflow task -----

  lemma TaskOutGrows(h: seq<Event>, e: Event)
    ensures TaskOut(h + [e]) <==> e.attrs.TaskScheduled? || e.attrs.TaskStarted? || (TaskOut(h) && !Turns(e.attrs))
  {
    var g := h + [e];
    assert g[|h|] == e;
    if e.attrs.TaskScheduled? || e.attrs.TaskStarted? {
      assert OutAt(g, |h|);
    } else if TaskOut(h) && !Turns(e.attrs) {
      var i :| 0 <= i < |h| && OutAt(h, i);
      assert g[i] == h[i];
      assert OutAt(g, i);
    }
    if TaskOut(g) {
      var i :| 0 <= i < |g| && OutAt(g, i);
      if i < |h| {
        assert !Turns(g[|h|].attrs);
        forall j | i < j < |h| ensures !Turns(h[j].attrs) { assert g[j] == h[j]; }
        assert OutAt(h, i);
      }
    }
  }

  lemma TaskStays(h: seq<Event>, e: Event, t: Task)
    requires t.scheduledId != 0 && TaskScheduledAs(h, t) && TaskStartedAs(h, t) && !Turns(e.attrs)
    ensures TaskScheduledAs(h + [e], t) && TaskStartedAs(h + [e], t)
  {
    var g := h + [e];
    forall j | t.scheduledId <= j < |g| && Turns(g[j].attrs) ensures j == t.startedId - 1 {
      if j < |h| { assert g[j] == h[j]; }
    }
  }

  lemma TaskStep(s: State, e: Event)
    requires Fits(s, e) && TaskFollows(s.events, s.task)
    ensures TaskFollows(s.events + [e], Record(s, e).value.task)
  {
    hide Record, RefsOk, TypeOf, Terminal, TaskOut, TaskScheduledAs, TaskStartedAs;
    var h, g, t := s.events, s.events + [e], Record(s, e).value.task;
    RecordParts(s, e);
    TaskOutGrows(h, e);
    EndedGrows(h, e);
    if !Terminal(TypeOf(e.attrs)) {
      if Turns(e.attrs) {
        TaskTurns(h, e, s.task);
      } else if s.task.scheduledId != 0 {
        TaskStays(h, e, s.task);
      }
    }
  }

  lemma EndedGrows(h: seq<Event>, e: Event)
    ensures Ended(h + [e]) <==> Terminal(TypeOf(e.attrs))
  {
    hide TypeOf, Terminal;
  }

  lemma TaskTurns(h: seq<Event>, e: Event, t: Task)
    requires e.id == |h| + 1 && Turns(e.attrs) && TaskEvent(e.attrs) && ApplyToTask(t, e).Ok?
    requires t.scheduledId != 0 ==> TaskScheduledAs(h, t) && TaskStartedAs(h, t)
    requires t.scheduledId == 0 ==> t.startedId == 0
    ensures
      var u := ApplyToTask(t, e).value;
      && (u.scheduledId != 0 ==> TaskScheduledAs(h + [e], u) && TaskStartedAs(h + [e], u))
      && (u.scheduledId == 0 ==> u == NO_TASK)
      && (u.scheduledId != 0 <==> e.attrs.TaskScheduled? || e.attrs.TaskStarted?)
  {
    var g := h + [e];
    if e.attrs.TaskStarted? {
      assert forall j :: 0 <= j < |h| ==> g[j] == h[j];
    }
  }

  // ----- the run -----

  lemma InfoStep(s: State, e: Event)
    requires Fits(s, e) && InfoFollows(s.events, s.runId, s.info) && (TypeOf(e.attrs) == ExecutionStartedType <==> s.events == [])
    ensures InfoFollows(s.events + [e], s.runId, Record(s, e).value.info)
  {
    hide RefsOk, ApplyToTask, ApplyToActivities, ApplyToTimers, StatusAfter;
    var h := s.events;
    if h != [] { assert (h + [e])[0] == h[0]; }
  }

  lemma StatusStep(s: State, e: Event)
    requires Fits(s, e) && StatusFollows(s.events, s)
    ensures StatusFollows(s.events + [e], Record(s, e).value)
  {
    hide RefsOk, ApplyToTask, ApplyToActivities, ApplyToTimers, InfoFrom;
    assert (s.events + [e])[|s.events|] == e;
  }

  lemma SignalsGrow(h: seq<Event>, e: Event)
    ensures |set i | 0 <= i < |h + [e]| && (h + [e])[i].attrs.Signaled?|
         == |set i | 0 <= i < |h| && h[i].attrs.Signaled?| + (if e.attrs.Signaled? then 1 else 0)
  {
    var g := h + [e];
    var a, b := (set i | 0 <= i < |h| && h[i].attrs.Signaled?), (set i | 0 <= i < |g| && g[i].attrs.Signaled?);
    assert g[|h|] == e;
    assert forall i :: 0 <= i < |h| ==> g[i] == h[i];
    if e.attrs.Signaled? {
      assert b == a + {|h|};
    } else {
      assert b == a;
    }
  }

  lemma RequestsStep(s: State, e: Event)
    requires Fits(s, e) && RequestsFollow(s.events, s)
    ensures RequestsFollow(s.events + [e], Record(s, e).value)
  {
    hide RefsOk, ApplyToTask, ApplyToActivities, ApplyToTimers, InfoFrom, StatusAfter, FirstCancel;
    var h, g, t := s.events, s.events + [e], Record(s, e).value;
    SignalsGrow(h, e);
    FirstCancelGrows(h, e);
    if s.cancelRequested {
      var i :| 0 <= i < |h| && FirstCancel(h, i);
      assert FirstCancel(g, i) && g[i] == h[i];
      assert t.cancelRequested && t.cancelReason == s.cancelReason;
    } else if e.attrs.CancelRequested? {
      assert FirstCancel(g, |h|) && g[|h|] == e;
    }
    forall i | 0 <= i < |g| && FirstCancel(g, i)
      ensures t.cancelRequested && g[i].attrs.CancelRequested? && t.cancelReason == g[i].attrs.reason
    {
      FirstIsCancel(g, i);
      if i < |h| { assert FirstCancel(h, i) && g[i] == h[i]; }
    }
  }

  lemma FirstIsCancel(h: seq<Event>, i: nat)
    requires i < |h| && FirstCancel(h, i)
    ensures h[i].attrs.CancelRequested?
  {
  }

  /** The first request to cancel stays the first. */
  lemma FirstCancelGrows(h: seq<Event>, e: Event)
    ensures forall i :: 0 <= i < |h| ==> (FirstCancel(h + [e], i) <==> FirstCancel(h, i))
    ensures FirstCancel(h + [e], |h|) <==> e.attrs.CancelRequested? && forall i :: 0 <= i < |h| ==> !FirstCancel(h, i)
  {
    var g := h + [e];
    assert forall i :: 0 <= i < |h| ==> g[i] == h[i];
    if (forall i :: 0 <= i < |h| ==> !FirstCancel(h, i)) {
      NoCancel(h, |h|);
    }
  }

  lemma {:induction false} NoCancel(h: seq<Event>, n: nat)
    requires n <= |h| && forall i :: 0 <= i < |h| ==> !FirstCancel(h, i)
    ensures forall i :: 0 <= i < n ==> !h[i].attrs.CancelRequested?
  {
    if n > 0 {
      NoCancel(h, n - 1);
      assert !FirstCancel(h, n - 1);
    }
  }

  // ------------------------------------------------------------------
  // Replays and runs
  // ------------------------------------------------------------------

  lemma RecordFollows(s: State, e: Event)
    requires Fits(s, e) && Follows(s.events, s) && AttemptsFollow(s.events, s.activities) && RefsFit(s.events)
    requires TypeOf(e.attrs) == ExecutionStartedType <==> s.events == []
    ensures
      var t := Record(s, e).value;
      t.events == s.events + [e] && Follows(t.events, t) && AttemptsFollow(t.events, t.activities)
  {
    hide Fits, TimersFollow, ActivitiesFollow, TaskFollows, InfoFollows, StatusFollows, RequestsFollow, AttemptsFollow, TypeOf, Record;
    assert Record(s, e).Ok? by { FitsRecords(s, e); }
    RecordParts(s, e);
    TimersStep(s, e);
    ActivitiesStep(s, e);
    AttemptsStep(s, e);
    TaskStep(s, e);
    InfoStep(s, e);
    StatusStep(s, e);
    RequestsStep(s, e);
  }

  lemma FitsRecords(s: State, e: Event)
    requires Fits(s, e)
    ensures Record(s, e).Ok?
  {
    hide Record;
  }

  lemma EmptyFollows(runId: string)
    ensures Follows([], Empty(runId)) && AttemptsFollow([], NO_ACTIVITIES)
  {
    var h: seq<Event> := [];
    assert (set i | 0 <= i < |h| && h[i].attrs.Signaled?) == {};
  }

  lemma WellFormedRefs(h: seq<Event>)
    requires WellFormed(h)
    ensures RefsFit(h)
  {
    hide RefsOk;
    forall i | 0 <= i < |h| ensures RefsOk(h, i, h[i].attrs) {
      assert WellPlaced(h, i);
    }
  }

  /** Folding a history yields exactly the state the history describes, attempts included. */
  lemma {:induction false} ReplayFollows(runId: string, h: seq<Event>)
    requires WellFormed(h) && Replay(runId, h).Ok?
    ensures
      var s := Replay(runId, h).value;
      s.events == h && s.runId == runId && Follows(h, s) && AttemptsFollow(h, s.activities)
    decreases |h|
  {
    hide Record, RefsOk, Follows, AttemptsFollow, TypeOf, RefsFit;
    if h == [] {
      EmptyFollows(runId);
    } else {
      var n := |h| - 1;
      WellFormedPrefix(h, n);
      ReplayFollows(runId, h[..n]);
      var s := Replay(runId, h[..n]).value;
      assert WellPlaced(h, n);
      assert RefsOk(h[..n], n, h[n].attrs) by { RefsHere(h, n); }
      FollowsStatus(s);
      BeforeLast(s, h, n);
      WellFormedRefs(h[..n]);
      assert h == h[..n] + [h[n]];
      RecordFollows(s, h[n]);
      RecordParts(s, h[n]);
    }
  }

  lemma FollowsStatus(s: State)
    requires Follows(s.events, s)
    ensures StatusFollows(s.events, s)
  {
    hide StatusFollows;
  }

  lemma RefsHere(h: seq<Event>, n: nat)
    requires WellFormed(h) && n < |h|
    ensures RefsOk(h[..n], n, h[n].attrs)
  {
    assert WellPlaced(h, n);
    forall id, t | Refers(h, n, id, t) ensures Refers(h[..n], n, id, t) {
    }
  }

  /** No event but the last ends a run, so the run is open before it. */
  lemma BeforeLast(s: State, h: seq<Event>, n: nat)
    requires WellFormed(h) && n == |h| - 1 && s.events == h[..n] && StatusFollows(h[..n], s)
    ensures Open(s) && !Ended(h[..n])
  {
    hide RefsOk, TypeOf, Terminal;
    if n > 0 { assert WellPlaced(h, n - 1); }
  }

  /** A live state differs from its replay in attempts only. */
  lemma AgreeFollows(t: State, s: State)
    requires Agree(t, s) && Follows(t.events, t)
    ensures Follows(s.events, s)
  {
    hide TimersFollow, TaskFollows, InfoFollows, StatusFollows, RequestsFollow, ActivityFollows;
    AgreeHistory(t, s);
    var h := s.events;
    forall k | k in s.activities.byId ensures ActivityFollows(h, k, s.activities.byId[k]) {
      assert Core(t.activities.byId[k]) == Core(s.activities.byId[k]);
      CoreFollows(h, k, t.activities.byId[k], s.activities.byId[k]);
    }
    assert StatusFollows(h, s) by { SameStatus(h, t, s); }
    assert RequestsFollow(h, s) by { SameRequests(h, t, s); }
  }

  lemma CoreFollows(h: seq<Event>, k: int, a: Activity, b: Activity)
    requires Core(a) == Core(b) && ActivityFollows(h, k, a)
    ensures ActivityFollows(h, k, b)
  {
    hide CancelAsked, StartedAs;
    assert a.(attempts := b.attempts) == b;
  }

  lemma SameStatus(h: seq<Event>, t: State, s: State)
    requires Agree(t, s) && StatusFollows(h, t)
    ensures StatusFollows(h, s)
  {
    hide AgreeActivities, Ended;
  }

  lemma SameRequests(h: seq<Event>, t: State, s: State)
    requires Agree(t, s) && RequestsFollow(h, t)
    ensures RequestsFollow(h, s)
  {
    hide AgreeActivities, FirstCancel;
  }

  lemma DurableFollows(s: State)
    requires Durable(s)
    ensures Follows(s.events, s)
  {
    hide Linked, WellFormed, Follows, Agree, Replay, AttemptsFollow;
    var t := Replay(s.runId, s.events).value;
    ReplayFollows(s.runId, s.events);
    AgreeFollows(t, s);
  }

  /** At every point of every run: the state says what the history says. Timers and activities are pending exactly if the
      history started them and neither resolved them nor ended, every clock is the event's time plus its duration, the task
      that is out has its events' deadline, and the run is open or closed as its last event says. */
  lemma StateFollowsHistory(o: Origin, states: seq<State>, turns: seq<Turn>, n: nat)
    requires Lives(o, states, turns) && n < |states|
    ensures Follows(states[n].events, states[n])
  {
    hide Lives, Durable, Follows;
    LivesDurable(o, states, turns, n);
    DurableFollows(states[n]);
  }

  /** And after a cold load, the attempts are those the started events opened. */
  lemma ColdStateFollowsHistory(o: Origin, states: seq<State>, turns: seq<Turn>, n: nat)
    requires Lives(o, states, turns) && n < |states| && |states[n].events| <= MAX_EVENTS
    ensures Rebuild(o.runId, states[n].events).Ok?
    ensures
      var s := Rebuild(o.runId, states[n].events).value;
      Follows(states[n].events, s) && AttemptsFollow(states[n].events, s.activities)
  {
    hide Lives, Durable, Follows, AttemptsFollow, Replay, WellFormed;
    LivesDurable(o, states, turns, n);
    DurableReplays(states[n]);
    ReplayFollows(o.runId, states[n].events);
  }
}
