/** Events, commands and the structural contract of a history (pkg/history). */
module History {
  import opened Prelude
  import opened RetryPolicy

  const MAX_EVENTS := 50_000

  datatype EventType =
    | ExecutionStartedType | ExecutionCompletedType | ExecutionFailedType | ExecutionTimedOutType
    | ExecutionCanceledType | ExecutionTerminatedType | ExecutionContinuedAsNewType
    | CancelRequestedType | SignaledType
    | TaskScheduledType | TaskStartedType | TaskCompletedType | TaskFailedType | TaskTimedOutType
    | ActivityScheduledType | ActivityStartedType | ActivityCompletedType | ActivityFailedType
    | ActivityTimedOutType | ActivityCancelRequestedType | ActivityCanceledType
    | TimerStartedType | TimerFiredType | TimerCanceledType
    | MarkerRecordedType

  datatype RetryState =
    InProgress | NonRetryableFailure | RetryTimeout | MaximumAttemptsReached | RetryPolicyNotSet

  /** What event 1 pins down for the whole run. */
  datatype StartAttrs = StartAttrs(
    workflowType: string, taskQueue: string, input: Payload,
    runTimeout: Duration, executionTimeout: Duration, taskTimeout: Duration,
    retry: Option<Policy>, attempt: int,
    continuedRunId: string, firstRunId: string, seed: int)

  /** How one activity is to be run. */
  datatype ActivityOptions = ActivityOptions(
    activityType: string, taskQueue: string, input: Payload, retry: Option<Policy>,
    scheduleToClose: Duration, scheduleToStart: Duration, startToClose: Duration, heartbeat: Duration)

  datatype MarkerKey = MarkerKey(name: string, id: string)

  /** `decision` is the workflow-task-completed event whose batch produced the event. */
  datatype Attrs =
    | ExecutionStarted(start: StartAttrs)
    | ExecutionCompleted(result: Payload, decision: int)
    | ExecutionFailed(failure: Option<Failure>, decision: int, retryState: RetryState)
    | ExecutionTimedOut(kind: TimeoutKind)
    | ExecutionCanceled(details: Payload, decision: int)
    | ExecutionTerminated(reason: string)
    | ExecutionContinuedAsNew(newRunId: string, workflowType: string, taskQueue: string, input: Payload,
                              runTimeout: Duration, taskTimeout: Duration, retry: Option<Policy>, decision: int)
    | CancelRequested(reason: string)
    | Signaled(signalName: string, input: Payload)
    | TaskScheduled(taskQueue: string, timeout: Duration, attempt: int)
    | TaskStarted(scheduledId: int, identity: string, requestId: string)
    | TaskCompleted(scheduledId: int, startedId: int, identity: string)
    | TaskFailed(scheduledId: int, startedId: int, cause: string)
    | TaskTimedOut(scheduledId: int, startedId: int)
    | ActivityScheduled(activityId: string, options: ActivityOptions, decision: int)
    | ActivityStarted(scheduledId: int, identity: string, requestId: string, attempt: int, jitter: real)
    | ActivityCompleted(scheduledId: int, startedId: int, result: Payload)
    | ActivityFailed(scheduledId: int, startedId: int, failure: Option<Failure>, retryState: RetryState)
    | ActivityTimedOut(scheduledId: int, startedId: int, kind: TimeoutKind, details: Payload)
    | ActivityCancelRequested(scheduledId: int, decision: int)
    | ActivityCanceled(scheduledId: int, startedId: int, details: Payload)
    | TimerStarted(timerId: string, duration: Duration, decision: int)
    | TimerFired(timerId: string, startedId: int)
    | TimerCanceled(timerId: string, startedId: int, decision: int)
    | MarkerRecorded(key: MarkerKey, details: Payload, failure: Option<Failure>, decision: int)

  datatype Event = Event(id: int, time: Time, attrs: Attrs)

  function TypeOf(a: Attrs): EventType {
    match a
    case ExecutionStarted(_) => ExecutionStartedType
    case ExecutionCompleted(_, _) => ExecutionCompletedType
    case ExecutionFailed(_, _, _) => ExecutionFailedType
    case ExecutionTimedOut(_) => ExecutionTimedOutType
    case ExecutionCanceled(_, _) => ExecutionCanceledType
    case ExecutionTerminated(_) => ExecutionTerminatedType
    case ExecutionContinuedAsNew(_, _, _, _, _, _, _, _) => ExecutionContinuedAsNewType
    case CancelRequested(_) => CancelRequestedType
    case Signaled(_, _) => SignaledType
    case TaskScheduled(_, _, _) => TaskScheduledType
    case TaskStarted(_, _, _) => TaskStartedType
    case TaskCompleted(_, _, _) => TaskCompletedType
    case TaskFailed(_, _, _) => TaskFailedType
    case TaskTimedOut(_, _) => TaskTimedOutType
    case ActivityScheduled(_, _, _) => ActivityScheduledType
    case ActivityStarted(_, _, _, _, _) => ActivityStartedType
    case ActivityCompleted(_, _, _) => ActivityCompletedType
    case ActivityFailed(_, _, _, _) => ActivityFailedType
    case ActivityTimedOut(_, _, _, _) => ActivityTimedOutType
    case ActivityCancelRequested(_, _) => ActivityCancelRequestedType
    case ActivityCanceled(_, _, _) => ActivityCanceledType
    case TimerStarted(_, _, _) => TimerStartedType
    case TimerFired(_, _) => TimerFiredType
    case TimerCanceled(_, _, _) => TimerCanceledType
    case MarkerRecorded(_, _, _, _) => MarkerRecordedType
  }

  predicate Terminal(t: EventType) {
    t in {ExecutionCompletedType, ExecutionFailedType, ExecutionTimedOutType, ExecutionCanceledType,
          ExecutionTerminatedType, ExecutionContinuedAsNewType}
  }

  function LastEventId(h: seq<Event>): int { if h == [] then 0 else h[|h| - 1].id }

  function NextEventId(h: seq<Event>): int { LastEventId(h) + 1 }

  /** The event with the given ID: an index, because IDs are dense and 1-based. */
  function Get(h: seq<Event>, id: int): (r: Option<Event>)
    ensures r.Some? ==> r.value in h && r.value.id == id
  {
    if 1 <= id <= |h| && h[id - 1].id == id then Some(h[id - 1]) else None
  }

  predicate Dense(h: seq<Event>) {
    forall i :: 0 <= i < |h| ==> h[i].id == i + 1
  }

  // ------------------------------------------------------------------
  // The structural contract, stated declaratively
  // ------------------------------------------------------------------

  /** `id` names one of the first `n` events, and that event has type `t`. */
  predicate Refers(h: seq<Event>, n: nat, id: int, t: EventType)
    requires n <= |h|
  {
    1 <= id <= n && TypeOf(h[id - 1].attrs) == t
  }

  /** Every back-reference of `a` names an event of the right type among the first `n`. */
  predicate RefsOk(h: seq<Event>, n: nat, a: Attrs)
    requires n <= |h|
  {
    match a
    case ExecutionStarted(st) => st.workflowType != "" && st.taskQueue != ""
    case Signaled(name, _) => name != ""
    case TaskStarted(sched, _, _) => Refers(h, n, sched, TaskScheduledType)
    case TaskCompleted(_, st, _) => Refers(h, n, st, TaskStartedType)
    case TaskFailed(_, st, _) => Refers(h, n, st, TaskStartedType)
    case TaskTimedOut(_, st) => Refers(h, n, st, TaskStartedType)
    case ActivityScheduled(aid, _, d) => Refers(h, n, d, TaskCompletedType) && aid != ""
    case ActivityStarted(sched, _, _, _, _) => Refers(h, n, sched, ActivityScheduledType)
    case ActivityCompleted(sched, st, _) =>
      Refers(h, n, sched, ActivityScheduledType) && Refers(h, n, st, ActivityStartedType)
    case ActivityFailed(sched, _, f, _) => Refers(h, n, sched, ActivityScheduledType) && f.Some?
    case ActivityTimedOut(sched, _, _, _) => Refers(h, n, sched, ActivityScheduledType)
    case ActivityCancelRequested(sched, d) =>
      Refers(h, n, d, TaskCompletedType) && Refers(h, n, sched, ActivityScheduledType)
    case ActivityCanceled(sched, _, _) => Refers(h, n, sched, ActivityScheduledType)
    case TimerStarted(tid, dur, d) => Refers(h, n, d, TaskCompletedType) && tid != "" && dur >= 0
    case TimerFired(_, st) => Refers(h, n, st, TimerStartedType)
    case TimerCanceled(_, st, d) => Refers(h, n, d, TaskCompletedType) && Refers(h, n, st, TimerStartedType)
    case MarkerRecorded(k, _, _, d) => Refers(h, n, d, TaskCompletedType) && k.name != ""
    case ExecutionCompleted(_, d) => Refers(h, n, d, TaskCompletedType)
    case ExecutionFailed(f, d, _) => Refers(h, n, d, TaskCompletedType) && f.Some?
    case ExecutionCanceled(_, d) => Refers(h, n, d, TaskCompletedType)
    case ExecutionContinuedAsNew(run, _, _, _, _, _, _, d) => Refers(h, n, d, TaskCompletedType) && run != ""
    case _ => true
  }

  /** Event `i` of `h` is well placed: dense, timestamped, in time order, and only the last one terminal. */
  predicate WellPlaced(h: seq<Event>, i: nat)
    requires i < |h|
  {
    && h[i].id == i + 1
    && h[i].time > 0
    && (i > 0 ==> h[i - 1].time <= h[i].time)
    && (TypeOf(h[i].attrs) == ExecutionStartedType <==> i == 0)
    && (i < |h| - 1 ==> !Terminal(TypeOf(h[i].attrs)))
  }

  /** Everything the contract asks for except the cap on the number of events. */
  predicate WellFormed(h: seq<Event>) {
    forall i {:trigger WellPlaced(h, i)} :: 0 <= i < |h| ==> WellPlaced(h, i) && RefsOk(h, i, h[i].attrs)
  }

  predicate ValidHistory(h: seq<Event>) { |h| <= MAX_EVENTS && WellFormed(h) }

  lemma WellFormedAt(h: seq<Event>, i: nat)
    requires i < |h|
    ensures WellFormed(h) ==> RefsOk(h, i, h[i].attrs)
  {
    hide RefsOk;
    if WellFormed(h) {
      assert WellPlaced(h, i);
    }
  }

  lemma RefsOkAppend(h: seq<Event>, e: Event, n: nat, a: Attrs)
    requires n <= |h|
    ensures RefsOk(h + [e], n, a) == RefsOk(h, n, a)
  {
  }

  /** Well-formedness is closed under appending a well-placed event to an open history. */
  lemma WellFormedAppend(h: seq<Event>, e: Event)
    requires WellFormed(h)
    requires e.id == |h| + 1 && e.time > 0 && (h != [] ==> h[|h| - 1].time <= e.time)
    requires TypeOf(e.attrs) == ExecutionStartedType <==> h == []
    requires h != [] ==> !Terminal(TypeOf(h[|h| - 1].attrs))
    requires RefsOk(h, |h|, e.attrs)
    ensures WellFormed(h + [e])
  {
    hide RefsOk, Terminal, TypeOf;
    var h' := h + [e];
    forall i | 0 <= i < |h'| ensures WellPlaced(h', i) && RefsOk(h', i, h'[i].attrs) {
      RefsOkAppend(h, e, i, h'[i].attrs);
      if i < |h| {
        assert WellPlaced(h, i) && RefsOk(h, i, h[i].attrs);
      }
    }
  }

  // ------------------------------------------------------------------
  // The validator as the source runs it: one pass, six sets of referable IDs
  // ------------------------------------------------------------------

  function IdsOf(h: seq<Event>, n: nat, t: EventType): set<int>
    requires n <= |h|
  {
    set id | 1 <= id <= n && Refers(h, n, id, t)
  }

  /** IDs later events may refer to, one set per referable event type. */
  class References {
    var scheduledTasks: set<int>
    var startedTasks: set<int>
    var completedTasks: set<int>
    var scheduledActivities: set<int>
    var startedActivities: set<int>
    var startedTimers: set<int>

    constructor ()
      ensures forall h: seq<Event> :: Covers(h, 0)
    {
      scheduledTasks, startedTasks, completedTasks := {}, {}, {};
      scheduledActivities, startedActivities, startedTimers := {}, {}, {};
    }

    ghost predicate Covers(h: seq<Event>, n: nat)
      reads this
      requires n <= |h|
    {
      && scheduledTasks == IdsOf(h, n, TaskScheduledType)
      && startedTasks == IdsOf(h, n, TaskStartedType)
      && completedTasks == IdsOf(h, n, TaskCompletedType)
      && scheduledActivities == IdsOf(h, n, ActivityScheduledType)
      && startedActivities == IdsOf(h, n, ActivityStartedType)
      && startedTimers == IdsOf(h, n, TimerStartedType)
    }

    /** Checks the references of an event against the sets. */
    method Check(ev: Event, ghost h: seq<Event>, ghost n: nat) returns (ok: bool)
      requires n < |h| && ev == h[n] && ev.id == n + 1 && Covers(h, n)
      ensures ok <==> RefsOk(h, n, ev.attrs)
    {
      match ev.attrs
      case ExecutionStarted(st) => ok := st.workflowType != "" && st.taskQueue != "";
      case Signaled(name, _) => ok := name != "";
      case TaskStarted(sched, _, _) => ok := sched in scheduledTasks;
      case TaskCompleted(_, st, _) => ok := st in startedTasks;
      case TaskFailed(_, st, _) => ok := st in startedTasks;
      case TaskTimedOut(_, st) => ok := st in startedTasks;
      case ActivityScheduled(aid, _, d) => ok := d in completedTasks && aid != "";
      case ActivityStarted(sched, _, _, _, _) => ok := sched in scheduledActivities;
      case ActivityCompleted(sched, st, _) => ok := sched in scheduledActivities && st in startedActivities;
      case ActivityFailed(sched, _, f, _) => ok := sched in scheduledActivities && f.Some?;
      case ActivityTimedOut(sched, _, _, _) => ok := sched in scheduledActivities;
      case ActivityCancelRequested(sched, d) => ok := d in completedTasks && sched in scheduledActivities;
      case ActivityCanceled(sched, _, _) => ok := sched in scheduledActivities;
      case TimerStarted(tid, dur, d) => ok := d in completedTasks && tid != "" && dur >= 0;
      case TimerFired(_, st) => ok := st in startedTimers;
      case TimerCanceled(_, st, d) => ok := d in completedTasks && st in startedTimers;
      case MarkerRecorded(k, _, _, d) => ok := d in completedTasks && k.name != "";
      case ExecutionCompleted(_, d) => ok := d in completedTasks;
      case ExecutionFailed(f, d, _) => ok := d in completedTasks && f.Some?;
      case ExecutionCanceled(_, d) => ok := d in completedTasks;
      case ExecutionContinuedAsNew(run, _, _, _, _, _, _, d) => ok := d in completedTasks && run != "";
      case _ => ok := true;
    }

    /** Records an event for later ones to refer to. */
    method Note(ev: Event, ghost h: seq<Event>, ghost n: nat)
      requires n < |h| && ev == h[n] && ev.id == n + 1 && Covers(h, n)
      modifies this
      ensures Covers(h, n + 1)
    {
      forall t: EventType
        ensures IdsOf(h, n + 1, t) == IdsOf(h, n, t) + (if TypeOf(ev.attrs) == t then {n + 1} else {})
      {
      }
      match TypeOf(ev.attrs)
      case TaskScheduledType => scheduledTasks := scheduledTasks + {ev.id};
      case TaskStartedType => startedTasks := startedTasks + {ev.id};
      case TaskCompletedType => completedTasks := completedTasks + {ev.id};
      case ActivityScheduledType => scheduledActivities := scheduledActivities + {ev.id};
      case ActivityStartedType => startedActivities := startedActivities + {ev.id};
      case TimerStartedType => startedTimers := startedTimers + {ev.id};
      case _ =>
    }
  }

  /** The single-pass validator accepts exactly the histories that meet the declarative contract. */
  method Validate(h: seq<Event>) returns (ok: bool)
    ensures ok <==> ValidHistory(h)
  {
    hide RefsOk, TypeOf, IdsOf;
    if |h| > MAX_EVENTS {
      return false;
    }
    if h == [] {
      return true;
    }
    if TypeOf(h[0].attrs) != ExecutionStartedType {
      assert !WellPlaced(h, 0);
      return false;
    }
    var refs := new References();
    var prev := 0;
    var i := 0;
    while i < |h|
      invariant 0 <= i <= |h|
      invariant prev == if i == 0 then 0 else h[i - 1].time
      invariant refs.Covers(h, i)
      invariant forall j :: 0 <= j < i ==> WellPlaced(h, j) && RefsOk(h, j, h[j].attrs)
    {
      var ev := h[i];
      if ev.id != i + 1 || ev.time <= 0 || ev.time < prev
         || (i > 0 && TypeOf(ev.attrs) == ExecutionStartedType)
         || (Terminal(TypeOf(ev.attrs)) && i != |h| - 1) {
        assert !WellPlaced(h, i);
        return false;
      }
      var refsOk := refs.Check(ev, h, i);
      if !refsOk {
        WellFormedAt(h, i);
        return false;
      }
      refs.Note(ev, h, i);
      prev := ev.time;
      i := i + 1;
    }
    return true;
  }

  // ------------------------------------------------------------------
  // Commands
  // ------------------------------------------------------------------

  datatype Command =
    | ScheduleActivity(activityId: string, options: ActivityOptions)
    | RequestCancelActivity(scheduledId: int)
    | StartTimer(timerId: string, duration: Duration)
    | CancelTimer(startedId: int)
    | CompleteWorkflow(result: Payload)
    | FailWorkflow(failure: Option<Failure>)
    | CancelWorkflow(details: Payload)
    | ContinueAsNew(workflowType: string, taskQueue: string, input: Payload,
                    runTimeout: Duration, taskTimeout: Duration, retry: Option<Policy>)
    | RecordMarker(key: MarkerKey, details: Payload, failure: Option<Failure>)

  predicate Closing(c: Command) {
    c.CompleteWorkflow? || c.FailWorkflow? || c.CancelWorkflow? || c.ContinueAsNew?
  }

  const MAX_TYPE_NAME := 256

  predicate ValidTypeName(n: string) {
    n != "" && |n| <= MAX_TYPE_NAME && forall c :: c in n ==> c as int >= 0x20 && c as int != 0x7f
  }

  predicate UsableOnceNormalized(p: Option<Policy>) { p.Some? ==> Usable(Normalize(p.value)) }

  predicate ValidOptions(o: ActivityOptions) {
    && ValidTypeName(o.activityType)
    && (o.scheduleToClose > 0 || o.startToClose > 0)
    && o.scheduleToClose >= 0 && o.scheduleToStart >= 0 && o.startToClose >= 0 && o.heartbeat >= 0
    && !(o.heartbeat > 0 && o.startToClose > 0 && o.heartbeat > o.startToClose)
    && UsableOnceNormalized(o.retry)
  }

  /** What Command.Validate accepts. */
  predicate ValidCommand(c: Command) {
    match c
    case ScheduleActivity(aid, o) => aid != "" && ValidOptions(o)
    case RequestCancelActivity(sched) => sched > 0
    case StartTimer(tid, d) => tid != "" && d >= 0
    case CancelTimer(st) => st > 0
    case FailWorkflow(f) => f.Some?
    case ContinueAsNew(_, _, _, _, _, retry) => UsableOnceNormalized(retry)
    case RecordMarker(k, _, _) => k.name != ""
    case _ => true
  }

  /** Validation normalises the retry policy a command carries. */
  function NormalizeCommand(c: Command): (r: Command)
    ensures Closing(r) <==> Closing(c)
  {
    match c
    case ScheduleActivity(aid, o) =>
      if o.retry.Some? then c.(options := o.(retry := Some(Normalize(o.retry.value)))) else c
    case ContinueAsNew(_, _, _, _, _, retry) =>
      if retry.Some? then c.(retry := Some(Normalize(retry.value))) else c
    case _ => c
  }

  function NormalizeBatch(cmds: seq<Command>): (r: seq<Command>)
    ensures |r| == |cmds|
    ensures forall i :: 0 <= i < |cmds| ==> r[i] == NormalizeCommand(cmds[i])
  {
    seq(|cmds|, i requires 0 <= i < |cmds| => NormalizeCommand(cmds[i]))
  }

  /** Every command well formed, and nothing after a closing one. */
  predicate ValidBatch(cmds: seq<Command>) {
    forall i :: 0 <= i < |cmds| ==> ValidCommand(cmds[i]) && (Closing(cmds[i]) ==> i == |cmds| - 1)
  }

  /** One pass over the batch; a rejected batch is not normalised any further. */
  method ValidateBatch(cmds: seq<Command>) returns (ok: bool, normalized: seq<Command>)
    ensures ok <==> ValidBatch(cmds)
    ensures ok ==> normalized == NormalizeBatch(cmds)
  {
    normalized := [];
    for i := 0 to |cmds|
      invariant forall j :: 0 <= j < i ==> ValidCommand(cmds[j]) && (Closing(cmds[j]) ==> j == |cmds| - 1)
      invariant |normalized| == i && forall j :: 0 <= j < i ==> normalized[j] == NormalizeCommand(cmds[j])
    {
      if !ValidCommand(cmds[i]) || (Closing(cmds[i]) && i != |cmds| - 1) {
        return false, normalized;
      }
      normalized := normalized + [NormalizeCommand(cmds[i])];
    }
    return true, normalized;
  }
}
