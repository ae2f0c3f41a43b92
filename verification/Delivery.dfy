/** Nothing a run waits for goes unsaid: what a commit hands out, and what any replica can hand out again from the store. */
module Delivery {
  import opened Prelude
  import opened History
  import opened Execution
  import opened Durability
  import opened Engine
  import opened Cluster
  import Clocks
  import Recovery
  import Written

  // ------------------------------------------------------------------
  // After a commit
  // ------------------------------------------------------------------

  /** The references a committed request owes: its effects, and the first task of a successor that need not wait. */
  ghost function Owed(runId: string, out: Outcome): set<Ref> {
    (set x | x in out.effects :: Ref(runId, x))
    + (if out.successor.Some? && out.successor.value.delay <= 0
       then {Ref(out.successor.value.runId, DispatchTask(out.successor.value.start.taskQueue, 2))} else {})
  }

  lemma OwedRefs(runId: string, out: Outcome, now: Time)
    ensures (set x | x in SuccessorRefs(out.successor, now) + RefsOf(runId, out.effects)) == Owed(runId, out)
    ensures out.successor.None? ==> (set x | x in RefsOf(runId, out.effects)) == Owed(runId, out)
  {
    hide Create;
    var refs := RefsOf(runId, out.effects);
    forall x | x in refs ensures exists e :: e in out.effects && x == Ref(runId, e) {
      var i :| 0 <= i < |refs| && refs[i] == x;
      assert out.effects[i] in out.effects;
    }
    forall e | e in out.effects ensures Ref(runId, e) in refs {
      var i :| 0 <= i < |out.effects| && out.effects[i] == e;
      assert refs[i] == Ref(runId, e);
    }
    if out.successor.Some? {
      var n := out.successor.value;
      Written.CreateWrites(n.runId, n.start, BirthOf(n), now);
      var first := Create(n.runId, n.start, BirthOf(n), now).value.effects;
      var begun := RefsOf(n.runId, first);
      assert n.delay <= 0 ==> begun == [Ref(n.runId, DispatchTask(n.start.taskQueue, 2))];
      assert n.delay > 0 ==> begun == [];
    }
  }

  /** A replica that has committed a request, or applied one that writes no event, hands out exactly what the request owes. */
  lemma CommitHandsOut(sys: System, r: nat, req: Request, draw: Draw, now: Time, fate: Fate)
    requires r in sys.replicas && sys.replicas[r].op.Loaded?
    requires Engine.Handle(sys.replicas[r].op.entry.state, req, draw, now).Write?
    requires
      var out := Engine.Handle(sys.replicas[r].op.entry.state, req, draw, now).out;
      var e := sys.replicas[r].op.entry;
      || (fate.Committed? && Cluster.Next(sys, Serve(r, req, draw, now, fate)).store != sys.store)
      || (fate.NothingToWrite? && out.state.events == e.state.events && out.successor.None?)
    ensures
      var out := Engine.Handle(sys.replicas[r].op.entry.state, req, draw, now).out;
      var served := Cluster.Next(sys, Serve(r, req, draw, now, fate));
      Cluster.Next(served, Dispatch(r)).handed == sys.handed + Owed(sys.replicas[r].op.runId, out)
  {
    hide Engine.Handle, Cluster.Append, SuccessorRefs, Planned, Owed, RefsOf;
    var out := Engine.Handle(sys.replicas[r].op.entry.state, req, draw, now).out;
    OwedRefs(sys.replicas[r].op.runId, out, now);
  }

  /** A replica that has created a run hands out its first task, unless the run serves a backoff. */
  lemma StartHandsOut(sys: System, r: nat, runId: string, st: StartAttrs, birth: Birth, q: string, reusable: bool, now: Time)
    requires r in sys.replicas && sys.replicas[r].op.Idle?
    requires Cluster.Next(sys, Cluster.Step.StartRun(r, runId, st, birth, q, reusable, now, Committed)).store != sys.store
    ensures
      var started := Cluster.Next(sys, Cluster.Step.StartRun(r, runId, st, birth, q, reusable, now, Committed));
      Cluster.Next(started, Dispatch(r)).handed
      == sys.handed + (if birth.Deferred? then {} else {Ref(runId, DispatchTask(st.taskQueue, |Written.FirstEvents(runId, st, birth, now)|))})
  {
    hide Create, CreateRun, Written.FirstEvents;
    Written.CreateWrites(runId, st, birth, now);
    var refs := RefsOf(runId, Create(runId, st, birth, now).value.effects);
    assert !birth.Deferred? ==> refs == [Ref(runId, DispatchTask(st.taskQueue, |Written.FirstEvents(runId, st, birth, now)|))];
    assert birth.Deferred? ==> refs == [];
  }

  // ------------------------------------------------------------------
  // From the store alone
  // ------------------------------------------------------------------

  /** By its history, a workflow task waits for a worker under event `id`. */
  ghost predicate TaskWaits(h: seq<Event>, id: int) {
    && 1 <= id <= |h| && h[id - 1].attrs.TaskScheduled? && !Clocks.Ended(h)
    && forall j :: id <= j < |h| ==> !Clocks.Turns(h[j].attrs)
  }

  /** By its history, activity `id` waits for a first worker. */
  ghost predicate ActivityWaits(h: seq<Event>, id: int) {
    Clocks.ActivityPending(h, id) && forall n :: !Clocks.StartedAs(h, id, n)
  }

  /** A replica reads a run: its version, and its history unless the cache is current. */
  function Opened(sys: System, r: nat, runId: string): System {
    var fetched := Cluster.Next(sys, Fetch(r, runId));
    if r in fetched.replicas && fetched.replicas[r].op.Reading? then Cluster.Next(fetched, ReadHistory(r)) else fetched
  }

  lemma TaskWaitsScheduled(s: State, id: int)
    requires Durable(s) && TaskWaits(s.events, id)
    ensures Open(s) && s.task.scheduledId == id && 1 <= id <= |s.events| && s.task.startedId == 0 && s.task.taskQueue == s.events[id - 1].attrs.taskQueue
  {
    hide Durable, Clocks.TimersFollow, Clocks.ActivitiesFollow, Clocks.InfoFollows, Clocks.RequestsFollow, Clocks.TaskScheduledAs,
         Clocks.TaskStartedAs;
    Clocks.DurableFollows(s);
    assert Clocks.OutAt(s.events, id - 1);
    assert Clocks.TaskOut(s.events);
    TaskIs(s.events, s.task, id);
    OpenIsOpen(s);
  }

  lemma TaskIs(h: seq<Event>, t: Task, id: int)
    requires Clocks.TaskFollows(h, t) && t.scheduledId != 0 && TaskWaits(h, id)
    ensures t.scheduledId == id && t.startedId == 0 && t.taskQueue == h[id - 1].attrs.taskQueue
  {
    assert Clocks.Turns(h[t.scheduledId - 1].attrs) && Clocks.Turns(h[id - 1].attrs);
    assert forall j :: 0 <= j < |h| && Clocks.Turns(h[j].attrs) ==> j < id;
  }

  lemma ActivityWaitsUnstarted(s: State, id: int)
    requires Durable(s) && ActivityWaits(s.events, id)
    ensures
      && Open(s) && id in s.activities.byId && s.activities.byId[id].startedId == 0
      && 1 <= id <= |s.events| && s.events[id - 1].attrs.ActivityScheduled?
      && s.activities.byId[id].options == s.events[id - 1].attrs.options
  {
    hide Durable, Clocks.TimersFollow, Clocks.TaskFollows, Clocks.InfoFollows, Clocks.RequestsFollow, Clocks.ActivityDone, Clocks.CancelAsked;
    Clocks.DurableFollows(s);
    assert Clocks.ActivityFollows(s.events, id, s.activities.byId[id]);
    OpenIsOpen(s);
  }

  /** What recovery hands out for a loaded state. */
  lemma RedispatchHandsOut(s: State, runId: string, id: int)
    requires Durable(s)
    ensures TaskWaits(s.events, id) ==> Ref(runId, DispatchTask(s.events[id - 1].attrs.taskQueue, id)) in RecoveryRefs(runId, s)
    ensures ActivityWaits(s.events, id) ==>
      && 1 <= id <= |s.events| && s.events[id - 1].attrs.ActivityScheduled?
      && Ref(runId, DispatchActivity(s.events[id - 1].attrs.options.taskQueue, id)) in RecoveryRefs(runId, s)
  {
    hide Durable, TaskWaits, ActivityWaits;
    if TaskWaits(s.events, id) {
      TaskWaitsScheduled(s, id);
      assert DispatchTask(s.task.taskQueue, s.task.scheduledId) in Recovery.Redispatched(s);
    }
    if ActivityWaits(s.events, id) {
      ActivityWaitsUnstarted(s, id);
      assert DispatchActivity(s.activities.byId[id].options.taskQueue, id)
             in Recovery.UnstartedRefs(s.activities.byId, s.activities.byId.Keys);
      assert DispatchActivity(s.activities.byId[id].options.taskQueue, id) in Recovery.Redispatched(s);
    }
  }

  /** Reading a stored run under the cap gives its stored events. */
  lemma OpenedHolds(sys: System, r: nat, runId: string)
    requires Inv(sys) && r in sys.replicas && sys.replicas[r].op.Idle? && runId in sys.store.runs
    requires |sys.store.runs[runId].events| <= MAX_EVENTS
    ensures
      var at := Opened(sys, r, runId);
      && at.store == sys.store && at.handed == sys.handed && r in at.replicas
      && at.replicas[r].op.Loaded? && at.replicas[r].op.runId == runId
      && Durable(at.replicas[r].op.entry.state)
      && at.replicas[r].op.entry.state.events == sys.store.runs[runId].events
  {
    hide Chained, Durable, Replay, WellFormed, RefFits;
    var h := sys.store.runs[runId].events;
    assert SoundRun(runId, h);
    SoundWellFormed(runId, h);
    assert ReplicaFits(sys.store, sys.replicas[r]);
    if runId in sys.replicas[r].cache {
      assert EntryFits(sys.store, runId, sys.replicas[r].cache[runId]);
    }
  }

  /** Whatever was lost, in whichever replica: from any reachable system, any idle replica that reads a stored run and recovers it
      hands out the workflow task that its history shows waiting, and every activity that its history shows waiting for a first
      worker, on the queues those events name. */
  lemma AnyReplicaRecovers(ids: set<nat>, systems: seq<System>, steps: seq<Cluster.Step>, n: nat, r: nat, runId: string, id: int)
    requires Interleaves(ids, systems, steps) && n < |systems|
    requires r in systems[n].replicas && systems[n].replicas[r].op.Idle? && runId in systems[n].store.runs
    requires |systems[n].store.runs[runId].events| <= MAX_EVENTS
    ensures
      var h := systems[n].store.runs[runId].events;
      var handed := Cluster.Next(Opened(systems[n], r, runId), Redispatch(r)).handed;
      && (TaskWaits(h, id) ==> Ref(runId, DispatchTask(h[id - 1].attrs.taskQueue, id)) in handed)
      && (ActivityWaits(h, id) ==>
            1 <= id <= |h| && h[id - 1].attrs.ActivityScheduled?
            && Ref(runId, DispatchActivity(h[id - 1].attrs.options.taskQueue, id)) in handed)
  {
    hide Interleaves, Inv, Opened, Durable, TaskWaits, ActivityWaits, RecoveryRefs;
    InterleavingInv(ids, systems, steps, n);
    OpenedHolds(systems[n], r, runId);
    RedispatchHandsOut(Opened(systems[n], r, runId).replicas[r].op.entry.state, runId, id);
  }
}
