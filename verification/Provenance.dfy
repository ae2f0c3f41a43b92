/** Attempt numbers across replicas: every reference and every index row carries the attempt its maker's state was in, so no
    replica is ever taken past a policy's maximum. */
module Provenance {
  import opened Prelude
  import opened History
  import opened Execution
  import opened Durability
  import opened Engine
  import opened Rebuilding
  import opened Runs
  import opened Retries
  import opened Policies
  import opened Attempts
  import opened Effects
  import opened Cluster
  import Recovery
  import TimerIndex

  /** The attempt of an activity, as a reference or a row carries it. */
  datatype Carried = Carried(runId: string, sched: int, attempt: int)

  /** The attempt a dispatched reference is stamped with. */
  function AttemptOf(s: State, k: int): int { if k in s.activities.byId then s.activities.byId[k].attempts.number else 1 }

  function StampedEffects(runId: string, s: State, es: seq<Effect>): set<Carried> {
    set x | x in es && x.DispatchActivity? :: Carried(runId, x.scheduledId, AttemptOf(s, x.scheduledId))
  }

  function StampedRecovery(runId: string, s: State): set<Carried> {
    if Open(s) then set x | x in Recovery.Redispatched(s) && x.DispatchActivity? :: Carried(runId, x.scheduledId, AttemptOf(s, x.scheduledId))
    else {}
  }

  predicate ActivityKind(k: TimerKey) { k.kind.ActivityRetryTimer? || k.kind.ActivityTimeoutTimer? }

  function StampedRows(runId: string, rows: Index): set<Carried> {
    set k | k in rows && ActivityKind(k) :: Carried(runId, k.eventId, rows[k].attempt)
  }

  // ------------------------------------------------------------------
  // The system with what it has made
  // ------------------------------------------------------------------

  /** The references dispatched and the rows written so far. A row carried forward was written before. */
  datatype Tracked = Tracked(sys: System, refs: set<Carried>, rows: set<Carried>)

  /** The store took the write of this request. */
  predicate Takes(sys: System, runId: string, e: Entry, out: Outcome, now: Time, fate: Fate) {
    && (fate.Committed? || fate.ReplyLost?) && |e.state.events| <= |out.state.events|
    && Cluster.Append(sys.store, runId, e.version, out.state.events[|e.state.events|..], Planned(out.successor, now)).Some?
  }

  /** The request goes on to dispatch: its write was confirmed, or there was nothing to write. */
  predicate GoesOn(sys: System, runId: string, e: Entry, out: Outcome, now: Time, fate: Fate) {
    if fate.NothingToWrite? then out.state.events == e.state.events && out.successor.None?
    else fate.Committed? && Takes(sys, runId, e, out, now, fate)
  }

  function MadeRefs(sys: System, step: Cluster.Step): set<Carried> {
    if step.r !in sys.replicas || !sys.replicas[step.r].op.Loaded? then {}
    else
      var op := sys.replicas[step.r].op;
      match step
      case Serve(_, req, draw, now, fate) =>
        (match Engine.Handle(op.entry.state, req, draw, now)
         case Write(out) =>
           if GoesOn(sys, op.runId, op.entry, out, now, fate) then StampedEffects(op.runId, out.state, out.effects) else {}
         case _ => {})
      case Redispatch(_) => StampedRecovery(op.runId, op.entry.state)
      case _ => {}
  }

  function MadeRows(sys: System, step: Cluster.Step): set<Carried> {
    if step.r !in sys.replicas then {}
    else
      var op := sys.replicas[step.r].op;
      match step
      case Serve(_, req, draw, now, fate) =>
        if !op.Loaded? then {}
        else
          (match Engine.Handle(op.entry.state, req, draw, now)
           case Write(out) =>
             if Takes(sys, op.runId, op.entry, out, now, fate)
             then StampedRows(op.runId, TimerIndex.DerivedRows(out.state)) + StampedRows(op.runId, out.rows) else {}
           case _ => {})
      case Reconcile(_, _) => if op.Reconciling? then StampedRows(op.runId, TimerIndex.DerivedRows(op.entry.state)) else {}
      case _ => {}
  }

  function NextTracked(t: Tracked, step: Cluster.Step): Tracked {
    Tracked(Cluster.Next(t.sys, step), t.refs + MadeRefs(t.sys, step), t.rows + MadeRows(t.sys, step))
  }

  /** A poll carries a reference somebody dispatched, a timer a row somebody wrote. */
  predicate Traceable(t: Tracked, step: Cluster.Step) {
    step.Serve? && step.r in t.sys.replicas && t.sys.replicas[step.r].op.Loaded? && Brought(step.req).Some? ==>
      Carried(t.sys.replicas[step.r].op.runId, Brought(step.req).value.0, Brought(step.req).value.1)
        in (if step.req.PollActivity? then t.refs else t.rows)
  }

  // ------------------------------------------------------------------
  // The invariant
  // ------------------------------------------------------------------

  predicate ScheduledWithin(h: seq<Event>, k: int, attempt: int) {
    1 <= k <= |h| && h[k - 1].attrs.ActivityScheduled? && Within(attempt, h[k - 1].attrs.options)
  }

  /** It names an activity the store knows, in an attempt within that activity's policy. */
  predicate CarriedFits(store: Cluster.Store, x: Carried) {
    x.runId in store.runs && ScheduledWithin(store.runs[x.runId].events, x.sched, x.attempt)
  }

  predicate AllCarriedFit(store: Cluster.Store, xs: set<Carried>) { forall x :: x in xs ==> CarriedFits(store, x) }

  predicate EntryWithin(e: Entry) { AllWithin(e.state) && StartsWithin(e.state.events) }

  predicate OpWithin(op: Op) { op.Loaded? || op.Reconciling? ==> EntryWithin(op.entry) }

  predicate ReplicaWithin(rep: Replica) { OpWithin(rep.op) && forall id :: id in rep.cache ==> EntryWithin(rep.cache[id]) }

  predicate ReplicasWithin(replicas: map<nat, Replica>) { forall r :: r in replicas ==> ReplicaWithin(replicas[r]) }

  predicate StoreWithin(store: Cluster.Store) { forall id :: id in store.runs ==> StartsWithin(store.runs[id].events) }

  ghost predicate TrackedInv(t: Tracked) {
    && Inv(t.sys) && StoreWithin(t.sys.store) && ReplicasWithin(t.sys.replicas)
    && AllCarriedFit(t.sys.store, t.refs) && AllCarriedFit(t.sys.store, t.rows)
  }

  // ----- what is stamped fits -----

  lemma CarriedStay(a: Cluster.Store, b: Cluster.Store, xs: set<Carried>)
    requires Grows(a, b) && AllCarriedFit(a, xs)
    ensures AllCarriedFit(b, xs)
  {
    hide Within;
    forall x | x in xs ensures CarriedFits(b, x) {
      assert CarriedFits(a, x);
      assert a.runs[x.runId].events <= b.runs[x.runId].events;
    }
  }

  /** The stamp of a recorded activity is within its policy: the state is, and an activity no longer pending counts as first. */
  lemma StampWithin(s: State, k: int, h: seq<Event>)
    requires Durable(s) && AllWithin(s) && Refers(s.events, |s.events|, k, ActivityScheduledType) && s.events <= h
    ensures ScheduledWithin(h, k, AttemptOf(s, k))
  {
    hide Durable;
    if k in s.activities.byId {
      PendingIsRecorded(s, k);
      WithinAt(s, k);
    }
  }

  lemma EffectsStamped(store: Cluster.Store, runId: string, s: State, es: seq<Effect>)
    requires Durable(s) && AllWithin(s) && AllNamed(s.events, es) && runId in store.runs && s.events <= store.runs[runId].events
    ensures AllCarriedFit(store, StampedEffects(runId, s, es))
  {
    hide Durable, AllWithin, ScheduledWithin, Refers, AttemptOf;
    forall x | x in StampedEffects(runId, s, es) ensures CarriedFits(store, x) {
      var e :| e in es && e.DispatchActivity? && x == Carried(runId, e.scheduledId, AttemptOf(s, e.scheduledId));
      var i :| 0 <= i < |es| && es[i] == e;
      assert Named(s.events, es[i]);
      StampWithin(s, e.scheduledId, store.runs[runId].events);
    }
  }

  lemma RecoveryStamped(store: Cluster.Store, runId: string, s: State)
    requires Durable(s) && AllWithin(s) && runId in store.runs && s.events <= store.runs[runId].events
    ensures AllCarriedFit(store, StampedRecovery(runId, s))
  {
    hide Durable, AllWithin, ScheduledWithin, Refers, AttemptOf, Recovery.Redispatched;
    forall x | x in StampedRecovery(runId, s) ensures CarriedFits(store, x) {
      var e :| e in Recovery.Redispatched(s) && e.DispatchActivity? && x == Carried(runId, e.scheduledId, AttemptOf(s, e.scheduledId));
      RecoveryNames(s, e);
      StampWithin(s, e.scheduledId, store.runs[runId].events);
    }
  }

  /** Rows whose attempt is the one the state is in. */
  predicate RowsCurrent(s: State, rows: Index) {
    forall k :: k in rows && ActivityKind(k) ==>
      k.eventId in s.activities.byId && rows[k].attempt == s.activities.byId[k.eventId].attempts.number
  }

  lemma RowsStamped(store: Cluster.Store, runId: string, s: State, rows: Index)
    requires Durable(s) && AllWithin(s) && RowsCurrent(s, rows) && runId in store.runs && s.events <= store.runs[runId].events
    ensures AllCarriedFit(store, StampedRows(runId, rows))
  {
    hide Durable, AllWithin, ScheduledWithin;
    forall x | x in StampedRows(runId, rows) ensures CarriedFits(store, x) {
      var k :| k in rows && ActivityKind(k) && x == Carried(runId, k.eventId, rows[k].attempt);
      ActivityRefs(s, k.eventId);
      StampWithin(s, k.eventId, store.runs[runId].events);
    }
  }

  lemma CurrentTogether(s: State, a: Index, b: Index)
    requires RowsCurrent(s, a) && RowsCurrent(s, b)
    ensures RowsCurrent(s, a + b)
  {
  }

  lemma OtherRowsCurrent(s: State)
    ensures RowsCurrent(s, TimerIndex.RunRows(s)) && RowsCurrent(s, TimerIndex.TaskRows(s.task))
    ensures RowsCurrent(s, TimerIndex.UserRows(s.timers.byId, s.timers.byId.Keys))
  {
    hide Sooner;
  }

  lemma ActivityRowsCurrent(s: State)
    ensures RowsCurrent(s, TimerIndex.ActivityRows(s.activities.byId, s.activities.byId.Keys))
  {
    hide ActivityDeadline, TimerIndex.HasDeadline;
  }

  lemma DerivedCurrent(s: State)
    ensures RowsCurrent(s, TimerIndex.DerivedRows(s))
  {
    hide RowsCurrent, TimerIndex.RunRows, TimerIndex.TaskRows, TimerIndex.UserRows, TimerIndex.ActivityRows;
    OtherRowsCurrent(s);
    ActivityRowsCurrent(s);
    var run, task := TimerIndex.RunRows(s), TimerIndex.TaskRows(s.task);
    var user := TimerIndex.UserRows(s.timers.byId, s.timers.byId.Keys);
    CurrentTogether(s, run, task);
    CurrentTogether(s, run + task, user);
    CurrentTogether(s, run + task + user, TimerIndex.ActivityRows(s.activities.byId, s.activities.byId.Keys));
    NothingCurrent(s);
  }

  lemma NothingCurrent(s: State)
    ensures RowsCurrent(s, map[])
  {
  }

  lemma {:induction false} RetryRowsCurrent(s: State, es: seq<Effect>)
    ensures RowsCurrent(s, RetryRows(s, es))
    decreases |es|
  {
    if es != [] {
      RetryRowsCurrent(s, es[..|es| - 1]);
    }
  }

  lemma OutcomeRowsCurrent(s: State, req: Request, draw: Draw, now: Time)
    requires Engine.Handle(s, req, draw, now).Write?
    ensures RowsCurrent(Engine.Handle(s, req, draw, now).out.state, Engine.Handle(s, req, draw, now).out.rows)
  {
    hide RetryRows, RespondWithCommands, OwnsTask, RowsCurrent, FireTimer, TimeoutTask, TimeoutActivity, ScheduleTask, TimeoutExecution,
         ExpiredTimeout, Signal, RequestCancel, Terminate, StartTask, FailTask, StartActivity, CompleteActivity, FailActivity, CancelActivity,
         RecordHeartbeat;
    forall t: State, es: seq<Effect> ensures RowsCurrent(t, RetryRows(t, es)) {
      RetryRowsCurrent(t, es);
    }
  }

  // ----- what a request leaves -----

  /** What a traceable request brings along is within the policy of the activity it is for. */
  lemma BroughtWithin(store: Cluster.Store, runId: string, e: Entry, req: Request)
    requires EntryFits(store, runId, e)
    requires Brought(req).Some? ==> CarriedFits(store, Carried(runId, Brought(req).value.0, Brought(req).value.1))
    ensures BringsWithin(e.state, req)
  {
    hide Durable;
    if Brought(req).Some? && Brought(req).value.0 in e.state.activities.byId {
      PendingIsRecorded(e.state, Brought(req).value.0);
    }
  }

  lemma OutcomeWithin(store: Cluster.Store, runId: string, e: Entry, req: Request, draw: Draw, now: Time)
    requires EntryFits(store, runId, e) && EntryWithin(e) && LastTime(e.state) <= now && draw.freshId != ""
    requires Brought(req).Some? ==> CarriedFits(store, Carried(runId, Brought(req).value.0, Brought(req).value.1))
    requires Engine.Handle(e.state, req, draw, now).Write?
    ensures
      var out := Engine.Handle(e.state, req, draw, now).out;
      && AllWithin(out.state) && StartsWithin(out.state.events)
      && Durable(out.state) && e.state.events <= out.state.events && AllNamed(out.state.events, out.effects)
      && RowsCurrent(out.state, out.rows) && RowsCurrent(out.state, TimerIndex.DerivedRows(out.state))
  {
    hide Durable, Engine.Handle, AllWithin, StartsWithin, BringsWithin, CarriedFits, RowsCurrent, AllNamed, TimerIndex.DerivedRows, Kept;
    BroughtWithin(store, runId, e, req);
    HandleKeepsWithin(e.state, req, draw, now);
    HandleKept(e.state, req, draw, now);
    KeptParts(e.state, Engine.Handle(e.state, req, draw, now).out.state, now);
    HandleNames(e.state, req, draw, now);
    OutcomeRowsCurrent(e.state, req, draw, now);
    DerivedCurrent(Engine.Handle(e.state, req, draw, now).out.state);
  }

  /** A new run has started nothing. */
  lemma CreatedWithin(runId: string, st: StartAttrs, birth: Birth, now: Time)
    requires now > 0 && st.workflowType != "" && st.taskQueue != "" && (birth.WithSignal? ==> birth.name != "")
    ensures Create(runId, st, birth, now).Ok?
    ensures
      var s := Create(runId, st, birth, now).value.state;
      AllWithin(s) && StartsWithin(s.events)
  {
    hide Create, AllWithin, StartsWithin;
    CreateWithin(Origin(runId, st, birth, now));
  }

  lemma PlannedWithin(s: State, out: Outcome, now: Time)
    requires SuccessorFits(s, out) && now > 0
    ensures Planned(out.successor, now).Some? ==> StartsWithin(Planned(out.successor, now).value.events)
  {
    hide Create, StartsWithin;
    if out.successor.Some? {
      var n := out.successor.value;
      CreatedWithin(n.runId, n.start, BirthOf(n), now);
    }
  }

  lemma AppendWithin(store: Cluster.Store, runId: string, e: Entry, h: seq<Event>, n: Option<NewRun>)
    requires StoreWithin(store) && EntryFits(store, runId, e) && e.state.events <= h && StartsWithin(h)
    requires n.Some? ==> StartsWithin(n.value.events)
    ensures
      var w := Cluster.Append(store, runId, e.version, h[|e.state.events|..], n);
      w.Some? ==> StoreWithin(w.value) && runId in w.value.runs && w.value.runs[runId].events == h
  {
    hide Durable, StartsWithin;
    var w := Cluster.Append(store, runId, e.version, h[|e.state.events|..], n);
    if w.Some? {
      assert store.runs[runId].events + h[|e.state.events|..] == h;
      forall id | id in w.value.runs ensures StartsWithin(w.value.runs[id].events) {
        if id in store.runs && id != runId { assert StartsWithin(store.runs[id].events); }
      }
    }
  }

  // ------------------------------------------------------------------
  // Every step
  // ------------------------------------------------------------------

  lemma PutWithinReplicas(replicas: map<nat, Replica>, r: nat, rep: Replica)
    requires ReplicasWithin(replicas) && ReplicaWithin(rep)
    ensures ReplicasWithin(replicas[r := rep])
  {
    hide ReplicaWithin;
  }

  lemma DropWithin(rep: Replica, runId: string)
    requires ReplicaWithin(rep)
    ensures ReplicaWithin(Replica(Without(rep.cache, runId), Idle)) && ReplicaWithin(rep.(op := Idle))
    ensures ReplicaWithin(rep.(cache := Without(rep.cache, runId))) && ReplicaWithin(Replica(map[], Idle))
  {
    hide EntryWithin;
  }

  lemma CacheWithin(rep: Replica, runId: string, e: Entry, op: Op)
    requires ReplicaWithin(rep) && EntryWithin(e) && OpWithin(op)
    ensures ReplicaWithin(Replica(rep.cache[runId := e], op))
  {
    hide EntryWithin;
  }

  lemma ServesWithin(sys: System, r: nat, runId: string, e: Entry, req: Request, draw: Draw, now: Time, fate: Fate)
    requires Inv(sys) && StoreWithin(sys.store) && ReplicasWithin(sys.replicas) && r in sys.replicas
    requires EntryFits(sys.store, runId, e) && EntryWithin(e) && LastTime(e.state) <= now && now > 0
    requires draw.freshId != "" && draw.freshId != PENDING_RUN_ID
    requires Brought(req).Some? ==> CarriedFits(sys.store, Carried(runId, Brought(req).value.0, Brought(req).value.1))
    ensures
      var next := Serves(sys, r, runId, e, req, draw, now, fate);
      StoreWithin(next.store) && ReplicasWithin(next.replicas)
  {
    hide Inv, StoreWithin, ReplicasWithin, EntryFits, Cluster.Append, Engine.Handle, AllWithin, StartsWithin, CarriedFits, ReplicaWithin, Planned,
         SuccessorRefs, Without, RowsCurrent, AllNamed, Durable, SuccessorFits, TimerIndex.DerivedRows;
    var rep := sys.replicas[r];
    assert ReplicaWithin(rep) by { ReplicaAt(sys.replicas, r); }
    DropWithin(rep, runId);
    PutWithinReplicas(sys.replicas, r, Replica(Without(rep.cache, runId), Idle));
    PutWithinReplicas(sys.replicas, r, rep.(op := Idle));
    var v := Engine.Handle(e.state, req, draw, now);
    if v.Write? {
      var out := v.out;
      OutcomeWithin(sys.store, runId, e, req, draw, now);
      assert Ready(e.state, now) by { EntryReady(sys.store, runId, e, now); }
      HandleSuccessor(e.state, req, draw, now);
      PlannedWithin(e.state, out, now);
      AppendWithin(sys.store, runId, e, out.state.events, Planned(out.successor, now));
      var todo := Dispatching(RefsOf(runId, out.effects));
      var all := Dispatching(SuccessorRefs(out.successor, now) + RefsOf(runId, out.effects));
      CacheWithin(rep, runId, Entry(out.state, e.version), todo);
      CacheWithin(rep, runId, Entry(out.state, e.version + 1), all);
      PutWithinReplicas(sys.replicas, r, Replica(rep.cache[runId := Entry(out.state, e.version)], todo));
      PutWithinReplicas(sys.replicas, r, Replica(rep.cache[runId := Entry(out.state, e.version + 1)], all));
    }
  }

  lemma ReplicaAt(replicas: map<nat, Replica>, r: nat)
    requires ReplicasWithin(replicas) && r in replicas
    ensures ReplicaWithin(replicas[r])
  {
    hide ReplicaWithin;
  }

  /** What a request dispatches and writes is stamped within the policies the store then knows. */
  lemma ServeMakes(sys: System, step: Cluster.Step)
    requires Inv(sys) && Permitted(sys, step) && StoreWithin(sys.store) && step.Serve? && step.r in sys.replicas && sys.replicas[step.r].op.Loaded?
    requires EntryWithin(sys.replicas[step.r].op.entry)
    requires
      Brought(step.req).Some? ==>
        CarriedFits(sys.store, Carried(sys.replicas[step.r].op.runId, Brought(step.req).value.0, Brought(step.req).value.1))
    ensures AllCarriedFit(Cluster.Next(sys, step).store, MadeRefs(sys, step)) && AllCarriedFit(Cluster.Next(sys, step).store, MadeRows(sys, step))
  {
    hide Inv, StoreWithin, EntryFits, Cluster.Append, Engine.Handle, AllWithin, StartsWithin, CarriedFits, AllCarriedFit, Planned, EntryWithin,
         SuccessorRefs, Without, RowsCurrent, AllNamed, Durable, SuccessorFits, TimerIndex.DerivedRows, StampedRows, StampedEffects;
    var op := sys.replicas[step.r].op;
    var e, runId := op.entry, op.runId;
    NothingCarried(Cluster.Next(sys, step).store);
    assert EntryFits(sys.store, runId, e) by { InvSafe(sys); HeldFits(sys, step.r); }
    var v := Engine.Handle(e.state, step.req, step.draw, step.now);
    if v.Write? {
      var out := v.out;
      OutcomeWithin(sys.store, runId, e, step.req, step.draw, step.now);
      assert Ready(e.state, step.now) by { EntryReady(sys.store, runId, e, step.now); }
      HandleSuccessor(e.state, step.req, step.draw, step.now);
      PlannedWithin(e.state, out, step.now);
      AppendWithin(sys.store, runId, e, out.state.events, Planned(out.successor, step.now));
      if Takes(sys, runId, e, out, step.now, step.fate) {
        var after := Cluster.Next(sys, step).store;
        RowsStamped(after, runId, out.state, TimerIndex.DerivedRows(out.state));
        RowsStamped(after, runId, out.state, out.rows);
        BothCarried(after, StampedRows(runId, TimerIndex.DerivedRows(out.state)), StampedRows(runId, out.rows));
        EffectsStamped(after, runId, out.state, out.effects);
      }
      if GoesOn(sys, runId, e, out, step.now, step.fate) && step.fate.NothingToWrite? {
        assert runId in sys.store.runs && e.state.events <= sys.store.runs[runId].events by { EntryPrefix(sys.store, runId, e); }
        EffectsStamped(sys.store, runId, out.state, out.effects);
      }
    }
  }

  lemma InvSafe(sys: System)
    requires Inv(sys)
    ensures Safe(sys)
  {
    hide Safe, Chained;
  }

  lemma EntryPrefix(store: Cluster.Store, runId: string, e: Entry)
    requires EntryFits(store, runId, e)
    ensures runId in store.runs && e.state.events <= store.runs[runId].events && Durable(e.state)
  {
    hide Durable;
  }

  lemma NothingCarried(store: Cluster.Store)
    ensures AllCarriedFit(store, {})
  {
  }

  lemma BothCarried(store: Cluster.Store, a: set<Carried>, b: set<Carried>)
    requires AllCarriedFit(store, a) && AllCarriedFit(store, b)
    ensures AllCarriedFit(store, a + b)
  {
    hide CarriedFits;
  }

  // ----- the other steps -----

  lemma ReadWithin(sys: System, r: nat)
    requires Inv(sys) && StoreWithin(sys.store) && ReplicasWithin(sys.replicas) && r in sys.replicas
    ensures ReplicasWithin(Cluster.Next(sys, ReadHistory(r)).replicas)
  {
    hide Inv, StoreWithin, ReplicasWithin, AllWithin, StartsWithin, ReplicaWithin, Replay, WellFormed, Durable;
    var rep := sys.replicas[r];
    ReplicaAt(sys.replicas, r);
    DropWithin(rep, "");
    if rep.op.Reading? && rep.op.runId in sys.store.runs {
      var id, h := rep.op.runId, sys.store.runs[rep.op.runId].events;
      if Rebuild(id, h).Ok? {
        assert StartsWithin(h) by { StoredAt(sys.store, id); }
        ReplayWithin(id, h);
        assert Replay(id, h).value.events == h by { InvSafe(sys); StoredSound(sys, id); }
        var e := Entry(Rebuild(id, h).value, rep.op.version);
        CacheWithin(rep, id, e, Loaded(id, e));
        PutWithinReplicas(sys.replicas, r, Replica(rep.cache[id := e], Loaded(id, e)));
      } else {
        PutWithinReplicas(sys.replicas, r, rep.(op := Idle));
      }
    }
  }

  lemma StoredAt(store: Cluster.Store, id: string)
    requires StoreWithin(store) && id in store.runs
    ensures StartsWithin(store.runs[id].events)
  {
    hide StartsWithin;
  }

  lemma StoredSound(sys: System, id: string)
    requires Safe(sys) && id in sys.store.runs
    ensures SoundRun(id, sys.store.runs[id].events)
  {
    hide SoundRun, ReplicaFits, RefFits;
  }

  lemma ReconcileWithin(sys: System, r: nat, fate: Fate)
    requires Inv(sys) && StoreWithin(sys.store) && ReplicasWithin(sys.replicas) && r in sys.replicas
    ensures StoreWithin(Cluster.Next(sys, Reconcile(r, fate)).store) && ReplicasWithin(Cluster.Next(sys, Reconcile(r, fate)).replicas)
  {
    hide Inv, StoreWithin, ReplicasWithin, AllWithin, StartsWithin, ReplicaWithin, Durable, Cluster.Append, EntryFits, Without;
    var rep := sys.replicas[r];
    ReplicaAt(sys.replicas, r);
    if rep.op.Reconciling? {
      var id, e := rep.op.runId, rep.op.entry;
      assert EntryWithin(e) by { OpAt(rep); }
      assert EntryFits(sys.store, id, e) by { InvSafe(sys); HeldFits(sys, r); }
      DropWithin(rep, id);
      assert e.state.events[|e.state.events|..] == [];
      AppendWithin(sys.store, id, e, e.state.events, None);
      CacheWithin(rep, id, Entry(e.state, e.version + 1), Idle);
      PutWithinReplicas(sys.replicas, r, rep.(op := Idle));
      PutWithinReplicas(sys.replicas, r, Replica(Without(rep.cache, id), Idle));
      PutWithinReplicas(sys.replicas, r, Replica(rep.cache[id := Entry(e.state, e.version + 1)], Idle));
    }
  }

  lemma OpAt(rep: Replica)
    requires ReplicaWithin(rep) && (rep.op.Loaded? || rep.op.Reconciling?)
    ensures EntryWithin(rep.op.entry)
  {
    hide EntryWithin;
  }

  lemma StartWithinSystem(sys: System, step: Cluster.Step)
    requires StoreWithin(sys.store) && ReplicasWithin(sys.replicas) && step.StartRun? && step.r in sys.replicas && Permitted(sys, step)
    ensures StoreWithin(Cluster.Next(sys, step).store) && ReplicasWithin(Cluster.Next(sys, step).replicas)
  {
    hide ReplicasWithin, AllWithin, StartsWithin, ReplicaWithin, Create;
    var rep := sys.replicas[step.r];
    ReplicaAt(sys.replicas, step.r);
    CreatedWithin(step.runId, step.start, step.birth, step.now);
    var first := Create(step.runId, step.start, step.birth, step.now).value;
    var todo := Dispatching(RefsOf(step.runId, first.effects));
    CacheWithin(rep, step.runId, Entry(first.state, 1), todo);
    PutWithinReplicas(sys.replicas, step.r, Replica(rep.cache[step.runId := Entry(first.state, 1)], todo));
  }

  lemma MoveWithin(sys: System, step: Cluster.Step)
    requires ReplicasWithin(sys.replicas) && step.r in sys.replicas
    requires step.Fetch? || step.Dispatch? || step.Redispatch? || step.Evict? || step.Restart?
    ensures ReplicasWithin(Cluster.Next(sys, step).replicas) && Cluster.Next(sys, step).store == sys.store
  {
    hide ReplicasWithin, EntryWithin, RecoveryRefs;
    var rep := sys.replicas[step.r];
    ReplicaAt(sys.replicas, step.r);
    DropWithin(rep, if step.Evict? then step.runId else "");
    assert ReplicaWithin(Cluster.Next(sys, step).replicas[step.r]);
    PutWithinReplicas(sys.replicas, step.r, Cluster.Next(sys, step).replicas[step.r]);
    assert sys.replicas[step.r := rep] == sys.replicas;
  }

  /** Recovery's references and rows, too. */
  lemma RecoveryMakes(sys: System, step: Cluster.Step)
    requires Inv(sys) && ReplicasWithin(sys.replicas) && step.r in sys.replicas && (step.Redispatch? || step.Reconcile?)
    ensures AllCarriedFit(sys.store, MadeRefs(sys, step)) && AllCarriedFit(sys.store, MadeRows(sys, step))
  {
    hide Inv, ReplicasWithin, EntryFits, AllWithin, StartsWithin, AllCarriedFit, RowsCurrent, Durable, TimerIndex.DerivedRows, StampedRows,
         StampedRecovery;
    var rep := sys.replicas[step.r];
    NothingCarried(sys.store);
    if rep.op.Loaded? || rep.op.Reconciling? {
      ReplicaAt(sys.replicas, step.r);
      OpAt(rep);
      var e := rep.op.entry;
      assert EntryFits(sys.store, rep.op.runId, e) by { InvSafe(sys); HeldFits(sys, step.r); }
      EntryPrefix(sys.store, rep.op.runId, e);
      RecoveryStamped(sys.store, rep.op.runId, e.state);
      DerivedCurrent(e.state);
      RowsStamped(sys.store, rep.op.runId, e.state, TimerIndex.DerivedRows(e.state));
    }
  }

  lemma BroughtFits(t: Tracked, step: Cluster.Step)
    requires TrackedInv(t) && Traceable(t, step) && step.Serve? && step.r in t.sys.replicas && t.sys.replicas[step.r].op.Loaded?
    ensures
      Brought(step.req).Some? ==>
        CarriedFits(t.sys.store, Carried(t.sys.replicas[step.r].op.runId, Brought(step.req).value.0, Brought(step.req).value.1))
  {
    hide Inv, StoreWithin, ReplicasWithin, CarriedFits;
  }

  /** Where the replicas and the store stand after a step. */
  lemma StepWithin(t: Tracked, step: Cluster.Step)
    requires TrackedInv(t) && Permitted(t.sys, step) && Traceable(t, step) && step.r in t.sys.replicas
    ensures StoreWithin(Cluster.Next(t.sys, step).store) && ReplicasWithin(Cluster.Next(t.sys, step).replicas)
  {
    hide Inv, StoreWithin, ReplicasWithin, AllCarriedFit, CarriedFits, EntryFits, Serves, Starts, Reconciles, Create, Rebuild, RecoveryRefs,
         EntryWithin;
    var rep := t.sys.replicas[step.r];
    match step
    case Serve(r, req, draw, now, fate) =>
      if rep.op.Loaded? {
        ReplicaAt(t.sys.replicas, r);
        OpAt(rep);
        BroughtFits(t, step);
        assert EntryFits(t.sys.store, rep.op.runId, rep.op.entry) by { InvSafe(t.sys); HeldFits(t.sys, r); }
        ServesWithin(t.sys, r, rep.op.runId, rep.op.entry, req, draw, now, fate);
      }
    case ReadHistory(r) => ReadWithin(t.sys, r);
    case Reconcile(r, fate) => ReconcileWithin(t.sys, r, fate);
    case StartRun(_, _, _, _, _, _, _, _) => StartWithinSystem(t.sys, step);
    case _ => MoveWithin(t.sys, step);
  }

  lemma StepMakes(t: Tracked, step: Cluster.Step)
    requires TrackedInv(t) && Permitted(t.sys, step) && Traceable(t, step) && step.r in t.sys.replicas
    requires Grows(t.sys.store, Cluster.Next(t.sys, step).store)
    ensures
      var after := Cluster.Next(t.sys, step).store;
      AllCarriedFit(after, MadeRefs(t.sys, step)) && AllCarriedFit(after, MadeRows(t.sys, step))
  {
    hide Inv, StoreWithin, ReplicasWithin, AllCarriedFit, CarriedFits, EntryWithin, Cluster.Next, Grows;
    var rep, after := t.sys.replicas[step.r], Cluster.Next(t.sys, step).store;
    NothingCarried(after);
    if step.Serve? && rep.op.Loaded? {
      ReplicaAt(t.sys.replicas, step.r);
      OpAt(rep);
      BroughtFits(t, step);
      ServeMakes(t.sys, step);
    } else if step.Redispatch? || step.Reconcile? {
      RecoveryMakes(t.sys, step);
      CarriedStay(t.sys.store, after, MadeRefs(t.sys, step));
      CarriedStay(t.sys.store, after, MadeRows(t.sys, step));
    }
  }

  /** Every step keeps every attempt within its policy: in the replicas' states, in the stored histories, in what was
      dispatched and in what was written. */
  lemma StepKeepsTracked(t: Tracked, step: Cluster.Step)
    requires TrackedInv(t) && Permitted(t.sys, step) && Traceable(t, step)
    ensures TrackedInv(NextTracked(t, step))
  {
    hide Inv, StoreWithin, ReplicasWithin, AllCarriedFit, MadeRefs, MadeRows, Grows, Permitted, Traceable;
    StepKeepsInv(t.sys, step);
    var after := Cluster.Next(t.sys, step).store;
    if step.r in t.sys.replicas {
      StepWithin(t, step);
      StepMakes(t, step);
    } else {
      NothingMade(t.sys, step);
      NothingCarried(after);
    }
    CarriedStay(t.sys.store, after, t.refs);
    CarriedStay(t.sys.store, after, t.rows);
    BothCarried(after, t.refs, MadeRefs(t.sys, step));
    BothCarried(after, t.rows, MadeRows(t.sys, step));
  }

  lemma NothingMade(sys: System, step: Cluster.Step)
    requires step.r !in sys.replicas
    ensures MadeRefs(sys, step) == {} && MadeRows(sys, step) == {} && Cluster.Next(sys, step) == sys
  {
  }

  // ------------------------------------------------------------------
  // Every interleaving
  // ------------------------------------------------------------------

  /** Point `n` of an interleaving in which polls and timers carry what was dispatched and written. */
  predicate TrackedComes(ids: set<nat>, points: seq<Tracked>, steps: seq<Cluster.Step>, n: nat)
    requires |points| == |steps| + 1 && n < |points|
  {
    if n == 0 then points[0] == Tracked(Boot(ids), {}, {})
    else
      && Permitted(points[n - 1].sys, steps[n - 1]) && Traceable(points[n - 1], steps[n - 1])
      && points[n] == NextTracked(points[n - 1], steps[n - 1])
  }

  predicate TrackedInterleaves(ids: set<nat>, points: seq<Tracked>, steps: seq<Cluster.Step>) {
    && |points| == |steps| + 1
    && forall n {:trigger TrackedComes(ids, points, steps, n)} :: 0 <= n < |points| ==> TrackedComes(ids, points, steps, n)
  }

  lemma BootTracked(ids: set<nat>)
    ensures TrackedInv(Tracked(Boot(ids), {}, {}))
  {
    hide Inv;
    BootInv(ids);
  }

  lemma {:induction false} TrackedAlways(ids: set<nat>, points: seq<Tracked>, steps: seq<Cluster.Step>, n: nat)
    requires TrackedInterleaves(ids, points, steps) && n < |points|
    ensures TrackedInv(points[n])
  {
    hide TrackedInv, NextTracked, Permitted, Traceable, Boot;
    assert TrackedComes(ids, points, steps, n);
    if n == 0 {
      BootTracked(ids);
    } else {
      TrackedAlways(ids, points, steps, n - 1);
      StepKeepsTracked(points[n - 1], steps[n - 1]);
    }
  }

  /** Under every interleaving of replicas, no cached activity is further into its attempts than its policy allows. */
  lemma NoReplicaExceedsAttempts(ids: set<nat>, points: seq<Tracked>, steps: seq<Cluster.Step>, n: nat, r: nat, runId: string, k: int)
    requires TrackedInterleaves(ids, points, steps) && n < |points|
    requires r in points[n].sys.replicas && runId in points[n].sys.replicas[r].cache
    requires k in points[n].sys.replicas[r].cache[runId].state.activities.byId
    ensures
      var a := points[n].sys.replicas[r].cache[runId].state.activities.byId[k];
      1 <= a.attempts.number && (PolicyOf(a.options).maxAttempts > 0 ==> a.attempts.number <= PolicyOf(a.options).maxAttempts)
  {
    hide TrackedInterleaves, Inv, StoreWithin, AllCarriedFit;
    TrackedAlways(ids, points, steps, n);
    ReplicaAt(points[n].sys.replicas, r);
    assert EntryWithin(points[n].sys.replicas[r].cache[runId]);
    WithinAt(points[n].sys.replicas[r].cache[runId].state, k);
  }

  /** Under every interleaving, every reference dispatched and every row written names an activity the store has recorded, in
      an attempt its policy allows. */
  lemma CarriedAttemptsFit(ids: set<nat>, points: seq<Tracked>, steps: seq<Cluster.Step>, n: nat, x: Carried)
    requires TrackedInterleaves(ids, points, steps) && n < |points| && (x in points[n].refs || x in points[n].rows)
    ensures x.runId in points[n].sys.store.runs
    ensures
      var h := points[n].sys.store.runs[x.runId].events;
      && 1 <= x.sched <= |h| && h[x.sched - 1].attrs.ActivityScheduled? && 1 <= x.attempt
      && var p := PolicyOf(h[x.sched - 1].attrs.options);
         p.maxAttempts > 0 ==> x.attempt <= p.maxAttempts
  {
    hide TrackedInterleaves, Inv, StoreWithin, ReplicasWithin;
    TrackedAlways(ids, points, steps, n);
    assert CarriedFits(points[n].sys.store, x);
  }
}
