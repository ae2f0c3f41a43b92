/** What a replayable history rules out: double starts, double resolutions and overlapping workflow tasks. */
module ExactlyOnce {
  import opened Prelude
  import opened History
  import opened Execution
  import opened Durability

  // ------------------------------------------------------------------
  // The claims, about a history alone
  // ------------------------------------------------------------------

  /** The activity an event starts or resolves, and the timer it resolves. */
  predicate StartsActivity(a: Attrs, sched: int) { a.ActivityStarted? && a.scheduledId == sched }
  predicate ResolvesActivity(a: Attrs, sched: int) { ActivityCloser(a) && a.scheduledId == sched }
  predicate ResolvesTimer(a: Attrs, st: int) { TimerCloser(a) && a.startedId == st }

  /** The workflow-task event that may follow another. */
  predicate FollowsTask(a: Attrs, b: Attrs) {
    if a.TaskScheduled? then b.TaskStarted?
    else if a.TaskStarted? then b.TaskCompleted? || b.TaskFailed? || b.TaskTimedOut?
    else b.TaskScheduled?
  }

  // ------------------------------------------------------------------
  // The invariant linking the fold's state to every event it has seen
  // ------------------------------------------------------------------

  predicate Spent(acts: Activities, timers: Timers, a: Attrs, id: int) {
    && (a.ActivityStarted? && a.scheduledId in acts.byId ==> acts.byId[a.scheduledId].startedId == id)
    && (ActivityCloser(a) ==> a.scheduledId !in acts.byId)
    && (TimerCloser(a) ==> a.startedId !in timers.byId)
  }

  predicate AllSpent(s: State) {
    forall i :: 0 <= i < |s.events| ==> Spent(s.activities, s.timers, s.events[i].attrs, i + 1)
  }

  /** What the task record says about the last workflow-task event of an open run. */
  predicate TaskPhase(t: Task, h: seq<Event>)
    decreases |h|
  {
    if h == [] then t == NO_TASK
    else
      var a := h[|h| - 1].attrs;
      if a.TaskScheduled? then Scheduled(t)
      else if a.TaskStarted? then Started(t) && t.scheduledId != 0 && t.startedId == h[|h| - 1].id
      else if TaskEvent(a) then t == NO_TASK
      else TaskPhase(t, h[..|h| - 1])
  }

  /** The named events precede the event that names them. */
  predicate NamesEarlier(a: Attrs, n: nat) {
    && (a.ActivityStarted? || ActivityCloser(a) ==> 1 <= a.scheduledId <= n)
    && (TimerCloser(a) ==> 1 <= a.startedId <= n)
  }

  lemma RefsNameEarlier(h: seq<Event>, n: nat, a: Attrs)
    requires n <= |h| && RefsOk(h, n, a)
    ensures NamesEarlier(a, n)
  {
  }

  /** One event in front of which everything is spent leaves everything spent. */
  lemma SpentStays(s: State, e: Event, i: nat)
    requires Record(s, e).Ok? && e.id == |s.events| + 1 && i < |s.events|
    requires Spent(s.activities, s.timers, s.events[i].attrs, i + 1) && NamesEarlier(s.events[i].attrs, i)
    ensures
      var t := Record(s, e).value;
      Spent(t.activities, t.timers, s.events[i].attrs, i + 1)
  {
    hide InfoFrom, StatusAfter, OpenAttempt;
  }

  lemma SpentNow(s: State, e: Event)
    requires Record(s, e).Ok?
    ensures
      var t := Record(s, e).value;
      Spent(t.activities, t.timers, e.attrs, e.id)
  {
    hide InfoFrom, StatusAfter, OpenAttempt;
  }

  lemma WellFormedPrefix(h: seq<Event>, n: nat)
    requires WellFormed(h) && n <= |h|
    ensures WellFormed(h[..n])
  {
    hide RefsOk;
    forall i | 0 <= i < n ensures WellPlaced(h[..n], i) && RefsOk(h[..n], i, h[i].attrs) {
      assert WellPlaced(h, i) && RefsOk(h, i, h[i].attrs);
      RefsOkPrefix(h, n, i, h[i].attrs);
    }
  }

  lemma RefsOkPrefix(h: seq<Event>, m: nat, n: nat, a: Attrs)
    requires n <= m <= |h|
    ensures RefsOk(h[..m], n, a) == RefsOk(h, n, a)
  {
    assert forall id, t :: Refers(h[..m], n, id, t) == Refers(h, n, id, t);
  }

  lemma ReplayEvents(runId: string, h: seq<Event>)
    requires Replay(runId, h).Ok?
    ensures Replay(runId, h).value.events == h
  {
    if h != [] {
      assert h == h[..|h| - 1] + [h[|h| - 1]];
    }
  }

  lemma AllSpentStays(s: State, e: Event)
    requires AllSpent(s) && WellFormed(s.events) && Record(s, e).Ok? && e.id == |s.events| + 1
    ensures AllSpent(Record(s, e).value)
  {
    hide Spent, NamesEarlier, RefsOk, Record, WellPlaced;
    RecordShape(s, e);
    var t := Record(s, e).value;
    forall i | 0 <= i < |t.events| ensures Spent(t.activities, t.timers, t.events[i].attrs, i + 1) {
      if i < |s.events| {
        assert WellPlaced(s.events, i);
        RefsNameEarlier(s.events, i, s.events[i].attrs);
        SpentStays(s, e, i);
      } else {
        SpentNow(s, e);
      }
    }
  }

  lemma {:induction false} ReplaySpends(runId: string, h: seq<Event>)
    requires WellFormed(h) && Replay(runId, h).Ok?
    ensures AllSpent(Replay(runId, h).value)
    decreases |h|
  {
    hide AllSpent, RefsOk, Record;
    if h == [] {
      NothingSpent(runId);
    } else {
      var n := |h| - 1;
      WellFormedPrefix(h, n);
      ReplayEvents(runId, h[..n]);
      ReplaySpends(runId, h[..n]);
      assert WellPlaced(h, n);
      AllSpentStays(Replay(runId, h[..n]).value, h[n]);
    }
  }

  lemma NothingSpent(runId: string)
    ensures AllSpent(Empty(runId))
  {
  }

  /** The second of two events that start or resolve the same thing would have been refused by the fold. */
  lemma SecondRefused(s: State, e: Event, i: nat, k: int)
    requires AllSpent(s) && Record(s, e).Ok? && i < |s.events|
    ensures !(StartsActivity(s.events[i].attrs, k) && StartsActivity(e.attrs, k))
    ensures !(ResolvesActivity(s.events[i].attrs, k) && (ResolvesActivity(e.attrs, k) || StartsActivity(e.attrs, k)))
    ensures !(ResolvesTimer(s.events[i].attrs, k) && ResolvesTimer(e.attrs, k))
  {
    hide InfoFrom, StatusAfter, OpenAttempt;
    assert Spent(s.activities, s.timers, s.events[i].attrs, i + 1);
  }

  lemma {:induction false} ReplayPrefix(runId: string, h: seq<Event>, n: nat)
    requires Replay(runId, h).Ok? && n <= |h|
    ensures Replay(runId, h[..n]).Ok?
    decreases |h|
  {
    if n == |h| {
      assert h[..n] == h;
    } else {
      assert h[..|h| - 1][..n] == h[..n];
      ReplayPrefix(runId, h[..|h| - 1], n);
    }
  }

  /** The fold before event `j`, which accepts event `j`. */
  lemma ReplayBefore(runId: string, h: seq<Event>, j: nat)
    requires WellFormed(h) && Replay(runId, h).Ok? && j < |h|
    ensures Replay(runId, h[..j]).Ok? && Replay(runId, h[..j]).value.events == h[..j]
    ensures Record(Replay(runId, h[..j]).value, h[j]).Ok?
    ensures WellFormed(h[..j]) && forall k :: 0 <= k < j ==> !Terminal(TypeOf(h[..j][k].attrs))
  {
    hide Record, RefsOk, TypeOf, Terminal;
    ReplayPrefix(runId, h, j + 1);
    ReplayPrefix(runId, h, j);
    assert h[..j + 1][..j] == h[..j];
    WellFormedPrefix(h, j);
    ReplayEvents(runId, h[..j]);
    forall k | 0 <= k < j ensures !Terminal(TypeOf(h[..j][k].attrs)) {
      assert WellPlaced(h, k);
    }
  }

  /** An activity is started at most once and resolved at most once, and never started after it is resolved;
      a timer is resolved at most once. */
  lemma ResolvedAtMostOnce(runId: string, h: seq<Event>, i: nat, j: nat, k: int)
    requires WellFormed(h) && Replay(runId, h).Ok? && i < j < |h|
    ensures !(StartsActivity(h[i].attrs, k) && StartsActivity(h[j].attrs, k))
    ensures !(ResolvesActivity(h[i].attrs, k) && (ResolvesActivity(h[j].attrs, k) || StartsActivity(h[j].attrs, k)))
    ensures !(ResolvesTimer(h[i].attrs, k) && ResolvesTimer(h[j].attrs, k))
  {
    hide Record, AllSpent, ResolvesActivity, StartsActivity, ResolvesTimer;
    ReplayBefore(runId, h, j);
    ReplaySpends(runId, h[..j]);
    SecondRefused(Replay(runId, h[..j]).value, h[j], i, k);
  }

  // ------------------------------------------------------------------
  // Workflow tasks
  // ------------------------------------------------------------------

  lemma PhaseStep(s: State, e: Event)
    requires TaskPhase(s.task, s.events) && Record(s, e).Ok? && e.id > 0
    requires !Terminal(TypeOf(e.attrs))
    ensures TaskPhase(Record(s, e).value.task, s.events + [e])
  {
    hide ApplyToActivities, ApplyToTimers, InfoFrom;
    assert (s.events + [e])[..|s.events|] == s.events;
  }

  lemma {:induction false} ReplayPhase(runId: string, h: seq<Event>)
    requires WellFormed(h) && Replay(runId, h).Ok?
    requires forall i :: 0 <= i < |h| ==> !Terminal(TypeOf(h[i].attrs))
    ensures TaskPhase(Replay(runId, h).value.task, h)
    decreases |h|
  {
    hide Record, RefsOk, TypeOf;
    if h != [] {
      var n := |h| - 1;
      WellFormedPrefix(h, n);
      ReplayPhase(runId, h[..n]);
      ReplayEvents(runId, h[..n]);
      assert WellPlaced(h, n);
      assert h == h[..n] + [h[n]];
      PhaseStep(Replay(runId, h[..n]).value, h[n]);
    }
  }

  lemma {:induction false} PhaseOfLast(t: Task, h: seq<Event>, i: nat)
    requires TaskPhase(t, h) && i < |h| && TaskEvent(h[i].attrs)
    requires forall k :: i < k < |h| ==> !TaskEvent(h[k].attrs)
    ensures TaskPhase(t, h[..i + 1])
    decreases |h|
  {
    if i + 1 == |h| {
      assert h[..i + 1] == h;
    } else {
      assert h[..|h| - 1][..i + 1] == h[..i + 1];
      PhaseOfLast(t, h[..|h| - 1], i);
    }
  }

  /** What the last workflow-task event says about the task record. */
  predicate PhaseAt(t: Task, a: Attrs) {
    if a.TaskScheduled? then Scheduled(t)
    else if a.TaskStarted? then Started(t) && t.scheduledId != 0
    else t == NO_TASK
  }

  lemma PhaseAfter(runId: string, h: seq<Event>, i: nat)
    requires WellFormed(h) && Replay(runId, h).Ok? && i < |h| && TaskEvent(h[i].attrs)
    requires forall k :: 0 <= k < |h| ==> !Terminal(TypeOf(h[k].attrs))
    requires forall k :: i < k < |h| ==> !TaskEvent(h[k].attrs)
    ensures PhaseAt(Replay(runId, h).value.task, h[i].attrs)
  {
    hide Replay, WellFormed, TypeOf, Terminal;
    ReplayPhase(runId, h);
    PhaseOfLast(Replay(runId, h).value.task, h, i);
    assert h[..i + 1][i] == h[i];
  }

  lemma TaskEventAllowed(s: State, e: Event, a: Attrs)
    requires Record(s, e).Ok? && TaskEvent(e.attrs) && TaskEvent(a)
    requires PhaseAt(s.task, a)
    ensures FollowsTask(a, e.attrs)
  {
  }

  /** Consecutive workflow-task events alternate scheduled, started, closed: two tasks are never in flight at once. */
  lemma TasksNeverOverlap(runId: string, h: seq<Event>, i: nat, j: nat)
    requires WellFormed(h) && Replay(runId, h).Ok? && i < j < |h|
    requires TaskEvent(h[i].attrs) && TaskEvent(h[j].attrs)
    requires forall k :: i < k < j ==> !TaskEvent(h[k].attrs)
    ensures FollowsTask(h[i].attrs, h[j].attrs)
  {
    hide Record, WellFormed, Replay, TypeOf, Terminal, TaskEvent, FollowsTask;
    ReplayBefore(runId, h, j);
    PhaseAfter(runId, h[..j], i);
    TaskEventAllowed(Replay(runId, h[..j]).value, h[j], h[i].attrs);
  }
}
