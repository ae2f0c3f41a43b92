/** What event application keeps: links from state to history, and agreement with a replay. */
module Durability {
  import opened Prelude
  import opened History
  import opened Execution

  // ------------------------------------------------------------------
  // Agreement up to per-attempt fields
  // ------------------------------------------------------------------

  /** The activity without the fields a retry resets. */
  function Core(a: Activity): Activity { a.(attempts := FIRST_ATTEMPT) }

  predicate AgreeActivities(a: Activities, b: Activities) {
    && a.ids == b.ids
    && a.byId.Keys == b.byId.Keys
    && forall k :: k in a.byId ==> Core(a.byId[k]) == Core(b.byId[k])
  }

  /** Same state except for the per-attempt activity fields, which the history does not record. */
  predicate Agree(s: State, t: State) {
    && s.(activities := t.activities) == t
    && AgreeActivities(s.activities, t.activities)
  }

  predicate AgreeResult(a: Result<Activities>, b: Result<Activities>) {
    match a
    case Ok(x) => b.Ok? && AgreeActivities(x, b.value)
    case Err(e) => b == a
  }

  lemma CloseAgree(a: Activities, b: Activities, sched: int)
    requires AgreeActivities(a, b)
    ensures AgreeResult(CloseActivity(a, sched), CloseActivity(b, sched))
  {
    if sched in a.byId {
      assert Core(a.byId[sched]).activityId == Core(b.byId[sched]).activityId;
    }
  }

  lemma PutAgree(a: Activities, b: Activities, k: int, x: Activity, y: Activity, ids: map<string, int>)
    requires AgreeActivities(a, b) && Core(x) == Core(y)
    ensures AgreeActivities(Activities(a.byId[k := x], ids), Activities(b.byId[k := y], ids))
  {
  }

  lemma AgreeAt(a: Activities, b: Activities, k: int)
    requires AgreeActivities(a, b)
    ensures a.ids == b.ids && (k in a.byId <==> k in b.byId)
    ensures k in a.byId ==> Core(a.byId[k]) == Core(b.byId[k])
  {
  }

  lemma OpenerAgree(a: Activities, b: Activities, ev: Event)
    requires AgreeActivities(a, b) && ActivityEvent(ev.attrs) && !ActivityCloser(ev.attrs)
    ensures AgreeResult(ApplyToActivities(a, ev), ApplyToActivities(b, ev))
  {
    hide AgreeActivities, OpenAttempt, NewActivity;
    match ev.attrs
    case ActivityScheduled(aid, o, _) =>
      AgreeAt(a, b, ev.id);
      var x := NewActivity(ev.id, ev.time, aid, o);
      PutAgree(a, b, ev.id, x, x, a.ids[aid := ev.id]);
    case ActivityStarted(sched, _, requestId, attempt, _) =>
      AgreeAt(a, b, sched);
      if sched in a.byId {
        var x, y := a.byId[sched], b.byId[sched];
        PutAgree(a, b, sched, x.(startedId := ev.id, attempts := OpenAttempt(x, ev.time, attempt, requestId)),
                 y.(startedId := ev.id, attempts := OpenAttempt(y, ev.time, attempt, requestId)), a.ids);
      }
    case ActivityCancelRequested(sched, _) =>
      AgreeAt(a, b, sched);
      if sched in a.byId {
        PutAgree(a, b, sched, a.byId[sched].(cancelRequested := true), b.byId[sched].(cancelRequested := true), a.ids);
      }
    case _ =>
  }

  lemma ApplyToActivitiesAgree(a: Activities, b: Activities, ev: Event)
    requires AgreeActivities(a, b) && ActivityEvent(ev.attrs)
    ensures AgreeResult(ApplyToActivities(a, ev), ApplyToActivities(b, ev))
  {
    if ActivityCloser(ev.attrs) {
      hide AgreeResult, CloseActivity;
      CloseAgree(a, b, ev.attrs.scheduledId);
    } else {
      hide AgreeResult, ApplyToActivities;
      OpenerAgree(a, b, ev);
    }
  }

  /** Applying one event to two states that agree succeeds on both or fails alike, and they still agree. */
  lemma RecordAgree(s: State, t: State, ev: Event)
    requires Agree(s, t)
    ensures Record(s, ev).Ok? ==> (Record(t, ev).Ok? && Agree(Record(s, ev).value, Record(t, ev).value))
    ensures Record(s, ev).Err? ==> Record(t, ev) == Record(s, ev)
  {
    hide ApplyToTask, ApplyToActivities, ApplyToTimers, AgreeActivities, InfoFrom, StatusAfter;
    assert AgreeActivities(NO_ACTIVITIES, NO_ACTIVITIES) by { NothingAgrees(); }
    if ActivityEvent(ev.attrs) {
      ApplyToActivitiesAgree(s.activities, t.activities, ev);
    }
  }

  lemma NothingAgrees()
    ensures AgreeActivities(NO_ACTIVITIES, NO_ACTIVITIES)
  {
  }

  // ------------------------------------------------------------------
  // Links from the state to the events it names
  // ------------------------------------------------------------------

  predicate TaskLinked(t: Task, h: seq<Event>) {
    && (t.scheduledId != 0 ==> Refers(h, |h|, t.scheduledId, TaskScheduledType))
    && (t.startedId != 0 ==> t.scheduledId != 0 && Refers(h, |h|, t.startedId, TaskStartedType))
  }

  predicate ActivityLinked(k: int, a: Activity, h: seq<Event>) {
    && Refers(h, |h|, k, ActivityScheduledType)
    && a.scheduledId == k
    && (a.startedId != 0 ==> Refers(h, |h|, a.startedId, ActivityStartedType))
  }

  predicate ActivitiesLinked(acts: Activities, h: seq<Event>) {
    && (forall k :: k in acts.byId ==> ActivityLinked(k, acts.byId[k], h))
    && (forall k :: k in acts.byId ==> acts.byId[k].activityId in acts.ids && acts.ids[acts.byId[k].activityId] == k)
    && (forall n :: n in acts.ids ==> acts.ids[n] in acts.byId && acts.byId[acts.ids[n]].activityId == n)
  }

  predicate TimersLinked(timers: Timers, h: seq<Event>) {
    && (forall k :: k in timers.byId ==> Refers(h, |h|, k, TimerStartedType) && timers.byId[k].startedId == k)
    && (forall k :: k in timers.byId ==> timers.byId[k].timerId in timers.ids && timers.ids[timers.byId[k].timerId] == k)
    && (forall n :: n in timers.ids ==> timers.ids[n] in timers.byId && timers.byId[timers.ids[n]].timerId == n)
  }

  /** A run is closed exactly when its last event is terminal, and a closed run holds nothing pending. */
  predicate ClosureLinked(s: State) {
    && (Open(s) <==> (s.events == [] || !Terminal(TypeOf(s.events[|s.events| - 1].attrs))))
    && (!Open(s) ==> s.task == NO_TASK && s.activities == NO_ACTIVITIES && s.timers == NO_TIMERS)
  }

  predicate Linked(s: State) {
    && Dense(s.events)
    && ClosureLinked(s)
    && TaskLinked(s.task, s.events)
    && ActivitiesLinked(s.activities, s.events)
    && TimersLinked(s.timers, s.events)
    && (s.events != [] ==> s.info.workflowType != "" && s.info.taskQueue != "")
  }

  lemma RefersGrows(h: seq<Event>, e: Event, id: int, t: EventType)
    requires Refers(h, |h|, id, t)
    ensures Refers(h + [e], |h| + 1, id, t)
  {
  }

  lemma TaskStaysLinked(t: Task, h: seq<Event>, e: Event)
    requires TaskLinked(t, h)
    ensures TaskLinked(t, h + [e])
  {
  }

  lemma TaskLinks(t: Task, h: seq<Event>, e: Event)
    requires TaskLinked(t, h) && e.id == |h| + 1 && TaskEvent(e.attrs)
    requires ApplyToTask(t, e).Ok?
    ensures TaskLinked(ApplyToTask(t, e).value, h + [e])
  {
  }

  lemma ActivitiesStayLinked(acts: Activities, h: seq<Event>, e: Event)
    requires ActivitiesLinked(acts, h)
    ensures ActivitiesLinked(acts, h + [e])
  {
    forall k | k in acts.byId ensures ActivityLinked(k, acts.byId[k], h + [e]) {
      RefersGrows(h, e, k, ActivityScheduledType);
    }
  }

  lemma ActivitiesLink(acts: Activities, h: seq<Event>, e: Event)
    requires ActivitiesLinked(acts, h) && e.id == |h| + 1 && ActivityEvent(e.attrs)
    requires ApplyToActivities(acts, e).Ok?
    ensures ActivitiesLinked(ApplyToActivities(acts, e).value, h + [e])
  {
    ActivitiesStayLinked(acts, h, e);
    assert e.id !in acts.byId;
  }

  lemma TimersStayLinked(timers: Timers, h: seq<Event>, e: Event)
    requires TimersLinked(timers, h)
    ensures TimersLinked(timers, h + [e])
  {
    forall k | k in timers.byId ensures Refers(h + [e], |h| + 1, k, TimerStartedType) {
      RefersGrows(h, e, k, TimerStartedType);
    }
  }

  lemma TimersLink(timers: Timers, h: seq<Event>, e: Event)
    requires TimersLinked(timers, h) && e.id == |h| + 1 && TimerEvent(e.attrs)
    requires ApplyToTimers(timers, e).Ok?
    ensures TimersLinked(ApplyToTimers(timers, e).value, h + [e])
  {
    TimersStayLinked(timers, h, e);
    assert e.id !in timers.byId;
  }

  lemma RunLinks(s: State, e: Event)
    requires Linked(s) && Open(s) && RefsOk(s.events, |s.events|, e.attrs)
    requires e.id == |s.events| + 1
    requires !TaskEvent(e.attrs) && !ActivityEvent(e.attrs) && !TimerEvent(e.attrs)
    requires TypeOf(e.attrs) == ExecutionStartedType <==> s.events == []
    requires Record(s, e).Ok?
    ensures Linked(Record(s, e).value)
  {
    hide Refers, ApplyToTask, ApplyToActivities, ApplyToTimers, ActivityLinked;
    TaskStaysLinked(s.task, s.events, e);
    ActivitiesStayLinked(s.activities, s.events, e);
    TimersStayLinked(s.timers, s.events, e);
  }

  /** Recording a well-referenced event on an open run keeps every link. */
  lemma RecordLinks(s: State, e: Event)
    requires Linked(s) && Open(s) && RefsOk(s.events, |s.events|, e.attrs)
    requires e.id == |s.events| + 1
    requires TypeOf(e.attrs) == ExecutionStartedType <==> s.events == []
    requires Record(s, e).Ok?
    ensures Linked(Record(s, e).value)
  {
    hide Refers, RefsOk, ApplyToTask, ApplyToActivities, ApplyToTimers, ApplyToRun, ActivitiesLinked, TimersLinked, TaskLinked;
    TaskStaysLinked(s.task, s.events, e);
    ActivitiesStayLinked(s.activities, s.events, e);
    TimersStayLinked(s.timers, s.events, e);
    if TaskEvent(e.attrs) {
      TaskLinks(s.task, s.events, e);
    } else if ActivityEvent(e.attrs) {
      ActivitiesLink(s.activities, s.events, e);
    } else if TimerEvent(e.attrs) {
      TimersLink(s.timers, s.events, e);
    } else {
      RunLinks(s, e);
    }
  }

  // ------------------------------------------------------------------
  // The durable invariant
  // ------------------------------------------------------------------

  /** The history replays, and the replay is the state but for the per-attempt fields. */
  predicate Replays(s: State) {
    && Replay(s.runId, s.events).Ok?
    && Agree(Replay(s.runId, s.events).value, s)
  }

  predicate Durable(s: State) {
    && s.events != []
    && Linked(s)
    && Replays(s)
    && WellFormed(s.events)
  }

  function LastTime(s: State): Time {
    if s.events == [] then 0 else s.events[|s.events| - 1].time
  }

  /** A record keeps the event list, the run and the links to it. */
  lemma RecordShape(s: State, e: Event)
    requires Record(s, e).Ok?
    ensures Record(s, e).value.events == s.events + [e]
    ensures Record(s, e).value.runId == s.runId
  {
  }

  /** Appending a well-referenced event keeps the invariant. */
  lemma AppendDurable(s: State, a: Attrs, now: Time)
    requires Durable(s) && Append(s, a, now).Ok?
    requires RefsOk(s.events, |s.events|, a) && !a.ExecutionStarted?
    requires now >= LastTime(s)
    ensures Durable(Append(s, a, now).value)
    ensures Append(s, a, now).value.events == s.events + [Event(|s.events| + 1, now, a)]
    ensures Append(s, a, now).value.runId == s.runId
    ensures LastTime(Append(s, a, now).value) == now
  {
    hide Record, RefsOk, Agree, TaskLinked, ActivitiesLinked, TimersLinked, WellPlaced, TypeOf;
    var e := Event(|s.events| + 1, now, a);
    assert NextEventId(s.events) == |s.events| + 1;
    assert TypeOf(a) != ExecutionStartedType by { NotStarted(a); }
    RecordShape(s, e);
    RecordLinks(s, e);
    assert now > 0 by { FirstTime(s.events, |s.events| - 1); }
    WellFormedAppend(s.events, e);
    RecordAgrees(s, e);
  }

  lemma NotStarted(a: Attrs)
    requires !a.ExecutionStarted?
    ensures TypeOf(a) != ExecutionStartedType
  {
  }

  lemma FirstTime(h: seq<Event>, i: nat)
    requires WellFormed(h) && i < |h|
    ensures h[i].time > 0
  {
    assert WellPlaced(h, i);
  }

  lemma RecordAgrees(s: State, e: Event)
    requires Replays(s) && Record(s, e).Ok?
    ensures Record(Replay(s.runId, s.events).value, e).Ok?
    ensures Agree(Record(Replay(s.runId, s.events).value, e).value, Record(s, e).value)
  {
    hide Record, Agree;
    RecordAgree(Replay(s.runId, s.events).value, s, e);
  }
}
