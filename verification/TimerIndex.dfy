/** The due-time index: the set of rows a state implies, and the edits that make the stored index equal to it. */
module TimerIndex {
  import opened Prelude
  import opened History
  import opened Execution
  import opened Engine

  // ------------------------------------------------------------------
  // One row for four clocks
  // ------------------------------------------------------------------

  /** The smallest instant that is set, or 0 when none is: one pass over the list. */
  method Earliest(times: seq<Time>) returns (best: Time)
    ensures best == 0 <==> forall i :: 0 <= i < |times| ==> times[i] == 0
    ensures best != 0 ==> best in times && forall i :: 0 <= i < |times| && times[i] != 0 ==> best <= times[i]
  {
    best := 0;
    for i := 0 to |times|
      invariant best == 0 <==> forall j :: 0 <= j < i ==> times[j] == 0
      invariant best != 0 ==> best in times && forall j :: 0 <= j < i && times[j] != 0 ==> best <= times[j]
    {
      if times[i] != 0 && (best == 0 || times[i] < best) {
        best := times[i];
      }
    }
  }

  /** The earliest of the clocks that apply to an activity, in the order the source lists them. */
  method NextDeadline(a: Activity) returns (deadline: Time)
    ensures deadline == ActivityDeadline(a)
  {
    if a.attempts.requestId != "" {
      deadline := Earliest([a.attempts.deadline, a.attempts.heartbeatDeadline, a.closeDeadline]);
      SoonerIsEarliest(a.attempts.deadline, a.attempts.heartbeatDeadline, a.closeDeadline, deadline);
    } else {
      deadline := Earliest([StartBound(a), a.attempts.deadline, a.closeDeadline]);
      SoonerIsEarliest(StartBound(a), a.attempts.deadline, a.closeDeadline, deadline);
    }
  }

  lemma SoonerIsEarliest(x: Time, y: Time, z: Time, best: Time)
    requires best == 0 <==> forall i :: 0 <= i < |[x, y, z]| ==> [x, y, z][i] == 0
    requires best != 0 ==> best in [x, y, z] && forall i :: 0 <= i < |[x, y, z]| && [x, y, z][i] != 0 ==> best <= [x, y, z][i]
    ensures best == Sooner(Sooner(x, y), z)
  {
    var l := [x, y, z];
    assert l[0] == x && l[1] == y && l[2] == z;
  }

  /** Some clock has run out exactly when the one deadline is set and reached, so one row stands for four clocks. */
  lemma OneRowStandsForFourClocks(a: Activity, now: Time)
    ensures ExpiredTimeout(a, now) != Unspecified <==> ActivityDeadline(a) != 0 && ActivityDeadline(a) <= now
  {
  }

  // ------------------------------------------------------------------
  // The rows a state implies
  // ------------------------------------------------------------------

  /** Rows whose schedule lives in the index alone are carried forward. */
  predicate Carries(s: State, k: TimerKey) {
    (k.kind.ActivityRetryTimer? && k.eventId in s.activities.byId && Open(s)) || k.kind.WorkflowRetryTimer?
  }

  function CarriedRows(s: State, armed: Index, keys: set<TimerKey>): Index
    requires keys <= armed.Keys
  {
    map k | k in keys && Carries(s, k) :: armed[k]
  }

  function RunRows(s: State): Index {
    var d := Sooner(s.info.runDeadline, s.info.executionDeadline);
    if d != 0 then map[TimerKey(1, ExecutionTimeoutTimer) := TimerRow(d, 0, "")] else map[]
  }

  function TaskRows(t: Task): Index {
    if Started(t) && t.deadline != 0
    then map[TimerKey(t.startedId, TaskTimeoutTimer) := TimerRow(t.deadline, t.attempt, t.taskQueue)] else map[]
  }

  function UserRow(t: Timer): TimerRow { TimerRow(t.fireAt, 0, "") }

  /** The rows of the pending timers named in `ids`. */
  function UserRows(timers: map<int, Timer>, ids: set<int>): Index
    requires ids <= timers.Keys
  {
    map st | st in ids :: TimerKey(st, UserTimer) := UserRow(timers[st])
  }

  function ActivityRow(a: Activity): TimerRow { TimerRow(ActivityDeadline(a), a.attempts.number, a.options.taskQueue) }

  predicate HasDeadline(acts: map<int, Activity>, sched: int)
    requires sched in acts
  {
    ActivityDeadline(acts[sched]) != 0
  }

  /** The rows of the pending activities named in `ids` that have a deadline. */
  function ActivityRows(acts: map<int, Activity>, ids: set<int>): Index
    requires ids <= acts.Keys
  {
    map sched | sched in ids && HasDeadline(acts, sched) :: TimerKey(sched, ActivityTimeoutTimer) := ActivityRow(acts[sched])
  }

  function DerivedRows(s: State): Index {
    if Open(s) then RunRows(s) + TaskRows(s.task) + UserRows(s.timers.byId, s.timers.byId.Keys)
         + ActivityRows(s.activities.byId, s.activities.byId.Keys) else map[]
  }

  /** The complete index of a run after a transition. */
  function Desired(s: State, armed: Index, rows: Index, drops: seq<TimerKey>): Index {
    (CarriedRows(s, armed, armed.Keys) + DerivedRows(s) + rows) - (set k | k in drops)
  }

  /** Map iteration visits the keys in no particular order. */
  method AnyOf(ids: set<int>) returns (id: int)
    requires ids != {}
    ensures id in ids
  {
    assert (forall x: int :: x !in ids) ==> ids == {};
    id :| id in ids;
  }

  method CarryForward(s: State, armed: Index) returns (want: Index)
    ensures want == CarriedRows(s, armed, armed.Keys)
  {
    want := map[];
    var todo := armed.Keys;
    while todo != {}
      invariant todo <= armed.Keys && want == CarriedRows(s, armed, armed.Keys - todo)
      decreases |todo|
    {
      var k :| k in todo;
      assert armed.Keys - (todo - {k}) == (armed.Keys - todo) + {k};
      if Carries(s, k) {
        want := want[k := armed[k]];
      }
      todo := todo - {k};
    }
    assert armed.Keys - {} == armed.Keys;
  }

  method AddUserRows(base: Index, timers: map<int, Timer>) returns (want: Index)
    ensures want == base + UserRows(timers, timers.Keys)
  {
    want := base;
    var todo: set<int> := timers.Keys;
    while todo != {}
      invariant todo <= timers.Keys && want == base + UserRows(timers, timers.Keys - todo)
      decreases |todo|
    {
      var st := AnyOf(todo);
      assert timers.Keys - (todo - {st}) == (timers.Keys - todo) + {st};
      want := want[TimerKey(st, UserTimer) := UserRow(timers[st])];
      todo := todo - {st};
    }
    assert timers.Keys - {} == timers.Keys;
  }

  method AddActivityRows(base: Index, acts: map<int, Activity>) returns (want: Index)
    ensures want == base + ActivityRows(acts, acts.Keys)
  {
    hide ActivityDeadline, ActivityRows, ActivityRow;
    want := base;
    NoActivityRows(acts);
    var todo: set<int> := acts.Keys;
    ghost var seen: set<int> := {};
    while todo != {}
      invariant seen <= acts.Keys && todo == acts.Keys - seen
      invariant want == base + ActivityRows(acts, seen)
      decreases |todo|
    {
      var sched := AnyOf(todo);
      ActivityRowsGrow(acts, seen, sched);
      var deadline := NextDeadline(acts[sched]);
      if deadline != 0 {
        PlusPut(base, ActivityRows(acts, seen), TimerKey(sched, ActivityTimeoutTimer), ActivityRow(acts[sched]));
        want := want[TimerKey(sched, ActivityTimeoutTimer) := ActivityRow(acts[sched])];
      }
      todo := todo - {sched};
      seen := seen + {sched};
    }
    assert seen == acts.Keys;
  }

  lemma PlusPut(a: Index, b: Index, k: TimerKey, r: TimerRow)
    ensures a + b[k := r] == (a + b)[k := r]
  {
  }

  lemma NoActivityRows(acts: map<int, Activity>)
    ensures ActivityRows(acts, {}) == map[]
  {
  }

  lemma ActivityRowsGrow(acts: map<int, Activity>, ids: set<int>, sched: int)
    requires ids <= acts.Keys && sched in acts
    ensures ActivityRows(acts, ids + {sched}) ==
            if HasDeadline(acts, sched) then ActivityRows(acts, ids)[TimerKey(sched, ActivityTimeoutTimer) := ActivityRow(acts[sched])]
            else ActivityRows(acts, ids)
  {
    hide HasDeadline, ActivityRow;
  }

  method DropRows(base: Index, drops: seq<TimerKey>) returns (want: Index)
    ensures want == base - (set k | k in drops)
  {
    want := base;
    for i := 0 to |drops|
      invariant want == base - (set k | k in drops[..i])
    {
      assert drops[..i + 1] == drops[..i] + [drops[i]];
      want := want - {drops[i]};
    }
    assert drops[..|drops|] == drops;
  }

  /** The same set, built entry by entry. */
  method DesiredTimers(s: State, armed: Index, rows: Index, drops: seq<TimerKey>) returns (want: Index)
    ensures want == Desired(s, armed, rows, drops)
  {
    hide CarriedRows, UserRows, ActivityRows, RunRows, TaskRows;
    want := CarryForward(s, armed);
    if Open(s) {
      ghost var carried := want;
      want := want + RunRows(s) + TaskRows(s.task);
      want := AddUserRows(want, s.timers.byId);
      want := AddActivityRows(want, s.activities.byId);
      assert want == carried + DerivedRows(s);
    }
    want := DropRows(want + rows, drops);
  }

  // ------------------------------------------------------------------
  // The edits
  // ------------------------------------------------------------------

  datatype Edits = Edits(upserts: Index, deletes: set<TimerKey>)

  predicate Changed(armed: Index, want: Index, k: TimerKey)
    requires k in want
  {
    k !in armed || armed[k] != want[k]
  }

  function Diff(armed: Index, want: Index): Edits {
    Edits(Upserts(armed, want, want.Keys), armed.Keys - want.Keys)
  }

  function Upserts(armed: Index, want: Index, keys: set<TimerKey>): Index
    requires keys <= want.Keys
  {
    map k | k in keys && Changed(armed, want, k) :: want[k]
  }

  method CollectUpserts(armed: Index, want: Index) returns (upserts: Index)
    ensures upserts == Upserts(armed, want, want.Keys)
  {
    upserts := map[];
    var todo := want.Keys;
    while todo != {}
      invariant todo <= want.Keys && upserts == Upserts(armed, want, want.Keys - todo)
      decreases |todo|
    {
      var k :| k in todo;
      assert want.Keys - (todo - {k}) == (want.Keys - todo) + {k};
      if k !in armed || armed[k].fireAt != want[k].fireAt || armed[k].attempt != want[k].attempt
         || armed[k].taskQueue != want[k].taskQueue {
        upserts := upserts[k := want[k]];
      }
      todo := todo - {k};
    }
    assert want.Keys - {} == want.Keys;
  }

  method CollectDeletes(armed: Index, want: Index) returns (deletes: set<TimerKey>)
    ensures deletes == armed.Keys - want.Keys
  {
    deletes := {};
    var todo := armed.Keys;
    while todo != {}
      invariant forall k :: k in deletes <==> k in armed.Keys && k !in todo && k !in want.Keys
      decreases |todo|
    {
      var k :| k in todo;
      if k in armed && k !in want {
        deletes := deletes + {k};
      }
      todo := todo - {k};
    }
  }

  /** What is armed against what should be, in two passes. */
  method DiffTimers(armed: Index, want: Index) returns (e: Edits)
    ensures e == Diff(armed, want)
  {
    var upserts := CollectUpserts(armed, want);
    var deletes := CollectDeletes(armed, want);
    return Edits(upserts, deletes);
  }

  /** A commit's edits: the difference, and the rows the operation drops that are not wanted. */
  function CommitEdits(armed: Index, want: Index, drops: seq<TimerKey>): Edits {
    var e := Diff(armed, want);
    e.(deletes := e.deletes + (set k | k in drops && k !in want))
  }

  /** What the store does with them. */
  function Store(index: Index, e: Edits): Index { (index - e.deletes) + e.upserts }

  predicate NothingToWrite(e: Edits) { e.upserts == map[] && e.deletes == {} }

  /** An index equal to the armed set becomes exactly the desired set; with nothing to write it already was. */
  lemma IndexBecomesDesired(s: State, armed: Index, rows: Index, drops: seq<TimerKey>)
    ensures
      var want := Desired(s, armed, rows, drops);
      var e := CommitEdits(armed, want, drops);
      Store(armed, e) == want && (NothingToWrite(e) ==> want == armed)
  {
    hide Desired;
    var want := Desired(s, armed, rows, drops);
    var e := CommitEdits(armed, want, drops);
    assert armed.Keys - want.Keys <= e.deletes;
    assert forall k :: k in want && Changed(armed, want, k) ==> k in e.upserts;
    if NothingToWrite(e) {
      NothingChanged(armed, want, e);
    }
  }

  lemma NothingChanged(armed: Index, want: Index, e: Edits)
    requires NothingToWrite(e) && armed.Keys - want.Keys <= e.deletes
    requires forall k :: k in want && Changed(armed, want, k) ==> k in e.upserts
    ensures want == armed
  {
    assert armed.Keys - want.Keys == {};
    assert armed.Keys <= (armed.Keys - want.Keys) + want.Keys;
    assert {} + want.Keys == want.Keys;
    assert forall k :: k in want ==> !Changed(armed, want, k);
    assert want.Keys == armed.Keys;
  }

  /** Whatever the index holds, after the commit every desired row is there, and the only others are rows this replica
      neither armed nor dropped. A cold replica, which armed nothing, repairs the index this way. */
  lemma CommitRepairsIndex(index: Index, s: State, armed: Index, rows: Index, drops: seq<TimerKey>)
    requires forall k :: k in armed ==> k in index && index[k] == armed[k]
    ensures
      var want := Desired(s, armed, rows, drops);
      var after := Store(index, CommitEdits(armed, want, drops));
      && (forall k :: k in want ==> k in after && after[k] == want[k])
      && (forall k :: k in after && k !in want ==> k in index && k !in armed && k !in drops)
  {
    hide Desired;
    var want := Desired(s, armed, rows, drops);
    var e := CommitEdits(armed, want, drops);
    forall k | k in want ensures k in Store(index, e) && Store(index, e)[k] == want[k] {
      if Changed(armed, want, k) { assert k in e.upserts; }
    }
  }

  // ------------------------------------------------------------------
  // What each kind of pending work contributes
  // ------------------------------------------------------------------

  /** The key is armed for the given instant. */
  predicate ArmedAt(index: Index, eventId: int, kind: TimerKind, t: Time) {
    TimerKey(eventId, kind) in index && index[TimerKey(eventId, kind)].fireAt == t
  }

  lemma DesiredPlain(s: State, armed: Index)
    ensures Desired(s, armed, map[], []) == CarriedRows(s, armed, armed.Keys) + DerivedRows(s)
  {
    hide CarriedRows, DerivedRows;
    assert (set k: TimerKey | k in []) == {};
  }

  lemma RunTimerRows(s: State, armed: Index)
    requires Open(s) && Sooner(s.info.runDeadline, s.info.executionDeadline) != 0
    ensures ArmedAt(Desired(s, armed, map[], []), 1, ExecutionTimeoutTimer, Sooner(s.info.runDeadline, s.info.executionDeadline))
  {
    hide Desired, Sooner, Carries, HasDeadline, ActivityRow, CarriedRows;
    DesiredPlain(s, armed);
    var k := TimerKey(1, ExecutionTimeoutTimer);
    assert k in RunRows(s) && k !in TaskRows(s.task);
    assert k !in UserRows(s.timers.byId, s.timers.byId.Keys) && k !in ActivityRows(s.activities.byId, s.activities.byId.Keys);
  }

  lemma TaskTimerRows(s: State, armed: Index)
    requires Open(s) && Started(s.task) && s.task.deadline != 0
    ensures ArmedAt(Desired(s, armed, map[], []), s.task.startedId, TaskTimeoutTimer, s.task.deadline)
  {
    hide Desired, Sooner, Carries, HasDeadline, ActivityRow, CarriedRows, RunRows;
    DesiredPlain(s, armed);
    var k := TimerKey(s.task.startedId, TaskTimeoutTimer);
    assert k in TaskRows(s.task);
    assert k !in UserRows(s.timers.byId, s.timers.byId.Keys) && k !in ActivityRows(s.activities.byId, s.activities.byId.Keys);
  }

  lemma UserTimerRows(s: State, armed: Index, st: int)
    requires Open(s) && st in s.timers.byId
    ensures ArmedAt(Desired(s, armed, map[], []), st, UserTimer, s.timers.byId[st].fireAt)
  {
    hide Desired, Sooner, Carries, HasDeadline, ActivityRow, RunRows, TaskRows, CarriedRows;
    DesiredPlain(s, armed);
    assert TimerKey(st, UserTimer) in UserRows(s.timers.byId, s.timers.byId.Keys);
  }

  lemma ActivityTimerRows(s: State, armed: Index, k: int)
    requires Open(s) && k in s.activities.byId && ActivityDeadline(s.activities.byId[k]) != 0
    ensures ArmedAt(Desired(s, armed, map[], []), k, ActivityTimeoutTimer, ActivityDeadline(s.activities.byId[k]))
  {
    hide Desired, Sooner, Carries, ActivityDeadline, RunRows, TaskRows, CarriedRows, UserRows;
    DesiredPlain(s, armed);
    assert HasDeadline(s.activities.byId, k);
    assert TimerKey(k, ActivityTimeoutTimer) in ActivityRows(s.activities.byId, s.activities.byId.Keys);
  }
}
