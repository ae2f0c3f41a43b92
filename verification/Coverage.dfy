/** Which of the rows a state implies are in the index after a request has been committed. */
module Coverage {
  import opened Prelude
  import opened History
  import opened Execution
  import opened Durability
  import opened Engine
  import opened Rebuilding
  import opened TimerIndex
  import opened Redelivery

  /** A row the state implies is in the index after a commit exactly if the request did not drop its key. */
  lemma DerivedRowSurvives(index: Index, s: State, armed: Index, rows: Index, drops: seq<TimerKey>, k: TimerKey)
    requires k in DerivedRows(s)
    ensures
      var after := Store(index, CommitEdits(armed, Desired(s, armed, rows, drops), drops));
      && (k in after ==> k !in drops)
      && (k !in drops && (k in armed ==> k in index && index[k] == armed[k])
          ==> k in after && (k !in rows ==> after[k] == DerivedRows(s)[k]))
  {
    hide CarriedRows, DerivedRows;
    var want := Desired(s, armed, rows, drops);
    var e := CommitEdits(armed, want, drops);
    if k in drops {
      assert k !in want && k in e.deletes && k !in e.upserts;
    } else {
      assert k in want;
      assert Changed(armed, want, k) ==> k in e.upserts;
    }
  }

  /** The request's own rows are activity backoffs, which no state implies. */
  lemma {:induction false} RetryRowKinds(s: State, es: seq<Effect>)
    ensures forall k :: k in RetryRows(s, es) ==> k.kind.ActivityRetryTimer?
    decreases |es|
  {
    if es != [] {
      RetryRowKinds(s, es[..|es| - 1]);
    }
  }

  lemma UserKey(timers: map<int, Timer>, k: TimerKey)
    ensures k in UserRows(timers, timers.Keys) <==> k.kind.UserTimer? && k.eventId in timers
  {
    if k.kind.UserTimer? {
      assert k == TimerKey(k.eventId, UserTimer);
    }
  }

  lemma ActivityKey(acts: map<int, Activity>, k: TimerKey)
    ensures k in ActivityRows(acts, acts.Keys)
            <==> k.kind.ActivityTimeoutTimer? && k.eventId in acts && ActivityDeadline(acts[k.eventId]) != 0
  {
    hide ActivityDeadline;
    if k.kind.ActivityTimeoutTimer? && k.eventId in acts {
      assert k == TimerKey(k.eventId, ActivityTimeoutTimer);
      assert HasDeadline(acts, k.eventId) <==> ActivityDeadline(acts[k.eventId]) != 0;
    }
  }

  /** The kinds of row a state implies, and what each stands for. */
  lemma DerivedKey(s: State, k: TimerKey)
    ensures k in DerivedRows(s) <==>
      Open(s) &&
      match k.kind
      case ExecutionTimeoutTimer => k.eventId == 1 && Sooner(s.info.runDeadline, s.info.executionDeadline) != 0
      case TaskTimeoutTimer => Started(s.task) && s.task.deadline != 0 && k.eventId == s.task.startedId
      case UserTimer => k.eventId in s.timers.byId
      case ActivityTimeoutTimer => k.eventId in s.activities.byId && ActivityDeadline(s.activities.byId[k.eventId]) != 0
      case _ => false
  {
    hide Sooner, ActivityDeadline, UserRows, ActivityRows;
    UserKey(s.timers.byId, k);
    ActivityKey(s.activities.byId, k);
  }

  /** The requests that drop a row the state they leave still implies: a task timeout that comes too early; and an activity
      timeout that comes too early while some clock is running, or that opens the next attempt under a schedule-to-close
      deadline. */
  predicate DropsLiveRow(s: State, req: Request, now: Time, k: TimerKey) {
    && req.TimerDue? && k == req.key && Open(s)
    && match k.kind
       case TaskTimeoutTimer => Started(s.task) && s.task.startedId == k.eventId && TooEarly(s, k, req.row, now)
       case ActivityTimeoutTimer =>
         k.eventId in s.activities.byId
         && var a := Caught(s.activities.byId[k.eventId], req.row);
            if TooEarly(s, k, req.row, now) then ActivityDeadline(a) != 0
            else RetriesInPlace(s, k, req.row, now) && (a.closeDeadline != 0 || StartBoundAgain(a) != 0)
       case _ => false
  }

  /** The schedule-to-start bound of the attempt after this one; attempts count from one, so there is none. */
  function StartBoundAgain(a: Activity): Time { if a.attempts.number < 1 then StartBound(a) else 0 }

  // ----- each kind of timer -----

  lemma FiredDropsNothing(s: State, req: Request, now: Time)
    requires req.TimerDue? && req.key.kind.UserTimer? && OnTimer(s, req.key, req.row, now).Write?
    ensures req.key !in DerivedRows(OnTimer(s, req.key, req.row, now).out.state)
  {
    hide FireTimer, RetryRows, DerivedRows;
    FiredTimerGone(s, req.key.eventId, now);
    DerivedKey(OnTimer(s, req.key, req.row, now).out.state, req.key);
  }

  lemma TaskTimeoutDrops(s: State, req: Request, now: Time)
    requires Ready(s, now) && req.TimerDue? && req.key.kind.TaskTimeoutTimer? && OnTimer(s, req.key, req.row, now).Write?
    ensures req.key in DerivedRows(OnTimer(s, req.key, req.row, now).out.state) <==> DropsLiveRow(s, req, now, req.key)
  {
    hide Durable, TimeoutTask, RetryRows, DerivedRows;
    DerivedKey(OnTimer(s, req.key, req.row, now).out.state, req.key);
    if !TooEarly(s, req.key, req.row, now) {
      TimedOutTaskGone(s, now);
    }
  }

  lemma RunTimeoutDrops(s: State, req: Request, now: Time)
    requires req.TimerDue? && req.key.kind.ExecutionTimeoutTimer? && OnTimer(s, req.key, req.row, now).Write?
    ensures req.key !in DerivedRows(OnTimer(s, req.key, req.row, now).out.state)
  {
    hide RetryRows, DerivedRows, InfoFrom;
    DerivedKey(OnTimer(s, req.key, req.row, now).out.state, req.key);
  }

  lemma ActivityTimeoutDrops(s: State, req: Request, now: Time)
    requires Ready(s, now) && req.TimerDue? && req.key.kind.ActivityTimeoutTimer? && OnTimer(s, req.key, req.row, now).Write?
    ensures req.key in DerivedRows(OnTimer(s, req.key, req.row, now).out.state) <==> DropsLiveRow(s, req, now, req.key)
  {
    hide Durable, RetryRows, DerivedRows, ExpiredTimeout, RetryDelay, TimeoutFailure, ActivityDeadline, AppendAndWake, Kept;
    var key, k := req.key, req.key.eventId;
    var t := OnTimer(s, key, req.row, now).out.state;
    DerivedKey(t, key);
    var a := Caught(s.activities.byId[k], req.row);
    var s' := PutActivity(s, k, a);
    PatchedActivityKept(s, k, a, now);
    KeptParts(s, s', now);
    ActivityRefs(s', k);
    if !TooEarly(s, key, req.row, now) {
      var kind := ExpiredTimeout(a, now);
      if RetriesInPlace(s, key, req.row, now) {
        var delay := RetryDelay(s', a, TimeoutFailure(kind), now).value;
        RearmedDeadline(s', a, TimeoutFailure(kind), delay, now);
        RestoredDeadline(RetryActivity(s', a, TimeoutFailure(kind), delay, now).state, k, a.startedId);
      } else {
        var e := ActivityTimedOut(k, a.startedId, kind, a.attempts.heartbeat);
        CloserRemoves(s', e, now);
      }
    }
  }

  lemma RearmedDeadline(s: State, a: Activity, failure: Failure, delay: Duration, now: Time)
    ensures
      var t := RetryActivity(s, a, failure, delay, now).state;
      && a.scheduledId in t.activities.byId && Open(t) == Open(s)
      && (ActivityDeadline(t.activities.byId[a.scheduledId]) != 0 <==> a.closeDeadline != 0 || StartBoundAgain(a) != 0)
  {
  }

  lemma RestoredDeadline(s: State, sched: int, startedId: int)
    requires sched in s.activities.byId
    ensures
      var t := RestoreStarted(s, sched, startedId);
      && sched in t.activities.byId && Open(t) == Open(s)
      && ActivityDeadline(t.activities.byId[sched]) == ActivityDeadline(s.activities.byId[sched])
  {
  }

  // ----- every request -----

  lemma TimerVerdict(s: State, req: Request, draw: Draw, now: Time)
    ensures req.TimerDue? ==> Handle(s, req, draw, now) == OnTimer(s, req.key, req.row, now)
  {
    hide OnTimer;
  }

  lemma DropsOnly(s: State, req: Request, draw: Draw, now: Time)
    requires Handle(s, req, draw, now).Write?
    ensures
      var drops := Handle(s, req, draw, now).out.drops;
      if req.TimerDue? then drops == [req.key] else forall k :: k in drops ==> k.kind.ActivityRetryTimer?
  {
    hide RetryRows, RespondWithCommands, OwnsTask, FireTimer, TimeoutTask, TimeoutActivity, ScheduleTask, TimeoutExecution, ExpiredTimeout;
  }

  /** The requests that drop a row their outcome still implies are exactly those listed. */
  lemma DroppedLiveRows(s: State, req: Request, draw: Draw, now: Time, k: TimerKey)
    requires Ready(s, now) && Handle(s, req, draw, now).Write?
    ensures
      var out := Handle(s, req, draw, now).out;
      k in out.drops && k in DerivedRows(out.state) <==> DropsLiveRow(s, req, now, k)
  {
    hide Durable, DerivedRows, TooEarly, RetriesInPlace, Handle, OnTimer;
    var out := Handle(s, req, draw, now).out;
    DerivedKey(out.state, k);
    DropsOnly(s, req, draw, now);
    TimerVerdict(s, req, draw, now);
    if req.TimerDue? && k == req.key {
      match k.kind
      case UserTimer => FiredDropsNothing(s, req, now);
      case TaskTimeoutTimer => TaskTimeoutDrops(s, req, now);
      case ActivityTimeoutTimer => ActivityTimeoutDrops(s, req, now);
      case ExecutionTimeoutTimer => RunTimeoutDrops(s, req, now);
      case _ =>
    }
  }

  /** After any request has been committed, a row the new state implies is in the index, at the implied instant, unless the
      request was one of those that drop it; then it is gone until a later commit. */
  lemma CommitCoversExactly(s: State, req: Request, draw: Draw, now: Time, armed: Index, index: Index, k: TimerKey)
    requires Ready(s, now) && Handle(s, req, draw, now).Write?
    requires forall x :: x in armed ==> x in index && index[x] == armed[x]
    requires k in DerivedRows(Handle(s, req, draw, now).out.state)
    ensures
      var out := Handle(s, req, draw, now).out;
      var after := Store(index, CommitEdits(armed, Desired(out.state, armed, out.rows, out.drops), out.drops));
      && (k in after <==> !DropsLiveRow(s, req, now, k))
      && (k in after ==> after[k] == DerivedRows(out.state)[k])
  {
    hide Durable, DerivedRows, DropsLiveRow, Desired, CommitEdits, Handle;
    var out := Handle(s, req, draw, now).out;
    DroppedLiveRows(s, req, draw, now, k);
    DerivedRowSurvives(index, out.state, armed, out.rows, out.drops, k);
    DerivedKey(out.state, k);
    RowKinds(s, req, draw, now);
  }

  lemma RowKinds(s: State, req: Request, draw: Draw, now: Time)
    requires Handle(s, req, draw, now).Write?
    ensures forall k :: k in Handle(s, req, draw, now).out.rows ==> k.kind.ActivityRetryTimer?
  {
    hide RetryRows, RespondWithCommands, OwnsTask;
    forall t: State, es: seq<Effect> ensures forall k :: k in RetryRows(t, es) ==> k.kind.ActivityRetryTimer? {
      RetryRowKinds(t, es);
    }
  }

  /** The failing family in the small: a heartbeat moved the deadline of a held attempt, the old row is delivered, and the
      commit leaves the activity without a row. */
  lemma HeartbeatingActivityLosesItsRow(s: State, k: int, row: TimerRow, draw: Draw, now: Time, armed: Index, index: Index)
    requires Ready(s, now) && Open(s) && k in s.activities.byId && Held(s.activities.byId[k])
    requires row.attempt == s.activities.byId[k].attempts.number
    requires ActivityDeadline(s.activities.byId[k]) > now > 0
    requires forall x :: x in armed ==> x in index && index[x] == armed[x]
    ensures
      var key := TimerKey(k, ActivityTimeoutTimer);
      var v := Handle(s, TimerDue(key, row), draw, now);
      && v.Write? && key in DerivedRows(v.out.state)
      && key !in Store(index, CommitEdits(armed, Desired(v.out.state, armed, v.out.rows, v.out.drops), v.out.drops))
  {
    hide Durable, DerivedRows, Desired, CommitEdits;
    var key := TimerKey(k, ActivityTimeoutTimer);
    OneRowStandsForFourClocks(s.activities.byId[k], now);
    var v := Handle(s, TimerDue(key, row), draw, now);
    var acts := s.activities.byId;
    assert acts[k := acts[k]] == acts;
    assert v.out.state == s;
    DerivedKey(v.out.state, key);
    CommitCoversExactly(s, TimerDue(key, row), draw, now, armed, index, key);
  }
}
