/** What a stored run hands to the run that follows it: the follower's first event carries on from the closing event. */
module Inheritance {
  import opened Prelude
  import opened RetryPolicy
  import opened History
  import opened Execution
  import opened Durability
  import opened Engine
  import opened Rebuilding
  import opened Appends
  import opened Effects
  import opened Cluster
  import opened Exclusion
  import Agreement
  import Batches
  import Successors
  import Written

  // ------------------------------------------------------------------
  // What a closing event promises its follower
  // ------------------------------------------------------------------

  predicate Begun(h: seq<Event>) { h != [] && h[0].attrs.ExecutionStarted? }

  /** The closing event says that the failed run is retried. */
  predicate EndsInRetry(h: seq<Event>) {
    h != [] && h[|h| - 1].attrs.ExecutionFailed? && h[|h| - 1].attrs.retryState == InProgress
  }

  /** The follower of a continue-as-new starts with what the closing event says, and with this run's own input if that names
      none; the time the whole execution has and the first run of the chain are this run's. */
  predicate ContinuesFrom(h: seq<Event>, runId: string, st: StartAttrs)
    requires Begun(h) && EndsInContinue(h)
  {
    var own, closing := h[0].attrs.start, h[|h| - 1].attrs;
    && st.workflowType == closing.workflowType && st.taskQueue == closing.taskQueue && st.retry == closing.retry
    && st.runTimeout == closing.runTimeout && st.taskTimeout == closing.taskTimeout && st.executionTimeout == own.executionTimeout
    && st.input == (if closing.input == NoPayload then own.input else closing.input)
    && st.attempt == 1 && st.continuedRunId == runId && st.firstRunId == own.firstRunId
  }

  /** The follower of a retried run starts as that run did, one attempt later. */
  predicate RetriesFrom(h: seq<Event>, runId: string, st: StartAttrs)
    requires Begun(h)
  {
    var own := h[0].attrs.start;
    && st == own.(attempt := st.attempt, continuedRunId := runId, seed := st.seed)
    && (own.attempt >= 0 ==> st.attempt == own.attempt + 1)
  }

  /** A run that was continued or retried has a stored follower that carries on from it. */
  ghost predicate Inherited(store: Store, id: string)
    requires id in store.runs
  {
    var h := store.runs[id].events;
    && (Begun(h) && EndsInContinue(h) ==>
          var n := h[|h| - 1].attrs.newRunId;
          && n in store.runs && Begun(store.runs[n].events) && ContinuesFrom(h, id, store.runs[n].events[0].attrs.start))
    && (Begun(h) && EndsInRetry(h) ==>
          SuccessorRequest(id) in store.requests &&
          var n := store.requests[SuccessorRequest(id)];
          && n in store.runs && Begun(store.runs[n].events) && RetriesFrom(h, id, store.runs[n].events[0].attrs.start))
  }

  ghost predicate AllInherited(store: Store) { forall id :: id in store.runs ==> Inherited(store, id) }

  // ------------------------------------------------------------------
  // What does not change it
  // ------------------------------------------------------------------

  lemma InheritedStays(a: Store, b: Store, id: string)
    requires id in a.runs && id in b.runs && b.runs[id].events == a.runs[id].events && Inherited(a, id)
    requires Grows(a, b) && RequestsKept(a, b)
    ensures Inherited(b, id)
  {
    hide ContinuesFrom, RetriesFrom, SuccessorRequest;
    forall n | n in a.runs && Begun(a.runs[n].events)
      ensures n in b.runs && Begun(b.runs[n].events) && b.runs[n].events[0] == a.runs[n].events[0]
    {
      assert a.runs[n].events <= b.runs[n].events;
    }
  }

  /** A run just created has not ended. */
  lemma NewInherits(store: Store, id: string, st: StartAttrs, birth: Birth, now: Time)
    requires id in store.runs && Create(id, st, birth, now).Ok? && store.runs[id].events == Create(id, st, birth, now).value.state.events
    ensures Inherited(store, id)
  {
    hide Create;
    Written.CreateWrites(id, st, birth, now);
  }

  // ------------------------------------------------------------------
  // A written request
  // ------------------------------------------------------------------

  lemma LastOfAnswer(s: State, identity: string, cmds: seq<Command>, draw: Draw, now: Time, out: Outcome)
    requires Successors.Rooted(s) && ValidBatch(cmds) && Successors.Answers(s, identity, cmds, draw, now, out)
    requires out.state.events[|out.state.events| - 1].attrs.ExecutionFailed?
    ensures cmds != [] && cmds[|cmds| - 1].FailWorkflow?
  {
    hide Successors.ClosesAs, Successors.Work, Successors.NextOf, ValidCommand;
    var n := |s.events|;
    var h := out.state.events;
    if !Successors.Interrupted(s, cmds) && cmds != [] {
      var i := |cmds| - 1;
      assert Successors.SpelledAt(s, cmds[i], h[n + 1 + i], n + 1 + i, n + 1, draw, now, draw.freshId);
    }
  }

  /** Only a response that ends in a failure closes a run as failed. */
  lemma FailedByResponse(s: State, req: Request, draw: Draw, now: Time)
    requires Ready(s, now) && Open(s) && Engine.Handle(s, req, draw, now).Write?
    requires
      var h := Engine.Handle(s, req, draw, now).out.state.events;
      h != [] && h[|h| - 1].attrs.ExecutionFailed?
    ensures req.RespondTask? && req.commands != [] && req.commands[|req.commands| - 1].FailWorkflow?
  {
    hide Ready, Engine.Handle, Successors.Answers, Successors.Rooted, Written.Answerable, Batches.Accepted, Batches.CancelsOnce;
    var out := Engine.Handle(s, req, draw, now).out;
    if req.RespondTask? {
      Successors.ResponseAnswers(s, req.identity, req.commands, draw, now);
      LastOfAnswer(s, req.identity, req.commands, draw, now, out);
    } else {
      HandleAdds(s, req, draw, now);
      Successors.ReadyDurable(s, now);
      NotFailedAlready(s, out.state);
    }
  }

  lemma NotFailedAlready(s: State, t: State)
    requires Durable(s) && Open(s) && Adds(s, t) && t.events != []
    ensures !t.events[|t.events| - 1].attrs.ExecutionFailed?
  {
    hide Durable;
    OpenIsOpen(s);
    if |t.events| > |s.events| {
      assert Agreement.External(t.events[|t.events| - 1].attrs);
    } else {
      assert t.events == s.events;
    }
  }

  /** The run that was written, once its follower is stored. */
  lemma HandOverInherits(s: State, req: Request, draw: Draw, now: Time, b: Store)
    requires Ready(s, now) && Open(s) && Engine.Handle(s, req, draw, now).Write? && draw.freshId != "" && draw.freshId != PENDING_RUN_ID
    requires Begun(s.events) && s.events[0].attrs.start.firstRunId != ""
    requires
      var out := Engine.Handle(s, req, draw, now).out;
      && s.runId in b.runs && b.runs[s.runId].events == out.state.events
      && (out.successor.Some? ==>
            var n := out.successor.value;
            && n.runId in b.runs && Create(n.runId, n.start, BirthOf(n), now).Ok?
            && b.runs[n.runId].events == Create(n.runId, n.start, BirthOf(n), now).value.state.events
            && SuccessorRequest(s.runId) in b.requests && b.requests[SuccessorRequest(s.runId)] == n.runId)
    ensures Inherited(b, s.runId)
  {
    hide Ready, Engine.Handle, Create, SuccessorRequest, Successors.Rooted, Successors.ContinuedAs, Successors.RetriedAs, ContinuesFrom, RetriesFrom;
    var out := Engine.Handle(s, req, draw, now).out;
    var h := out.state.events;
    HandleKept(s, req, draw, now);
    KeptParts(s, out.state, now);
    assert Begun(h) && h[0] == s.events[0];
    HandleSuccessor(s, req, draw, now);
    Successors.SuccessorFollows(s, req, draw, now);
    if out.successor.Some? {
      var n := out.successor.value;
      Written.CreateWrites(n.runId, n.start, BirthOf(n), now);
      if EndsInContinue(h) {
        Carries(s, req, draw, now, out);
      }
      if EndsInRetry(h) {
        FailedByResponse(s, req, draw, now);
        Repeats(s, req.commands[|req.commands| - 1].failure.value, draw, now, out);
      }
    } else if EndsInRetry(h) {
      FailedByResponse(s, req, draw, now);
      RetryHasFollower(s, req.commands[|req.commands| - 1].failure.value, draw, now, out);
    }
  }

  lemma RetryHasFollower(s: State, f: Failure, draw: Draw, now: Time, out: Outcome)
    requires Begun(s.events) && Successors.RetriedAs(s, f, draw, now, out) && EndsInRetry(out.state.events)
    ensures out.successor.Some?
  {
    hide Successors.ClosesAs;
  }

  /** A continued run's start, as it is recorded. */
  lemma Carries(s: State, req: Request, draw: Draw, now: Time, out: Outcome)
    requires Begun(s.events) && s.events[0].attrs.start.firstRunId != "" && Begun(out.state.events) && out.state.events[0] == s.events[0]
    requires Successors.FollowedAs(s, req, draw, now, out) && EndsInContinue(out.state.events) && out.successor.Some?
    ensures
      var n := out.successor.value;
      && n.runId == out.state.events[|out.state.events| - 1].attrs.newRunId
      && ContinuesFrom(out.state.events, s.runId, Written.FirstEvent(n.runId, n.start, now).attrs.start)
  {
    hide Successors.ClosesAs, Successors.Tidied, Successors.Own;
  }

  /** A retried run's start, as it is recorded. */
  lemma Repeats(s: State, f: Failure, draw: Draw, now: Time, out: Outcome)
    requires Begun(s.events) && s.events[0].attrs.start.firstRunId != "" && Begun(out.state.events) && out.state.events[0] == s.events[0]
    requires Successors.RetriedAs(s, f, draw, now, out) && out.successor.Some?
    ensures
      var n := out.successor.value;
      RetriesFrom(out.state.events, s.runId, Written.FirstEvent(n.runId, n.start, now).attrs.start)
  {
    hide Successors.ClosesAs, Backoff;
  }

  // ------------------------------------------------------------------
  // Every step of every replica
  // ------------------------------------------------------------------

  /** The commit of a written request. */
  lemma CommitInherits(store: Store, runId: string, e: Entry, req: Request, draw: Draw, now: Time, b: Store)
    requires StoreFits(store) && Chained(store) && AllInherited(store) && EntryFits(store, runId, e) && now > 0 && LastTime(e.state) <= now
    requires draw.freshId != "" && draw.freshId != PENDING_RUN_ID && Engine.Handle(e.state, req, draw, now).Write?
    requires
      var out := Engine.Handle(e.state, req, draw, now).out;
      && |out.state.events| >= |e.state.events|
      && Cluster.Append(store, runId, e.version, out.state.events[|e.state.events|..], Planned(out.successor, now)) == Some(b)
    requires StoreFits(b) && Grows(store, b) && RequestsKept(store, b)
    ensures AllInherited(b)
  {
    hide StoreFits, Chained, Grows, Durable, Engine.Handle, SuccessorFits, Cluster.Append, Create, Inherited, RequestsKept, SuccessorRequest, Kept;
    var s := e.state;
    var out := Engine.Handle(s, req, draw, now).out;
    assert Ready(s, now) by { EntryReady(store, runId, e, now); }
    HandleKept(s, req, draw, now);
    KeptParts(s, out.state, now);
    HandleSuccessor(s, req, draw, now);
    var next := Planned(out.successor, now);
    AppendOnCurrent(store, runId, e, out.state.events, next);
    if Open(s) {
      OpenCommits(store, runId, e, req, draw, now, b);
    } else {
      ClosedCommits(store, runId, e, out, now, b);
    }
  }

  lemma ClosedCommits(store: Store, runId: string, e: Entry, out: Outcome, now: Time, b: Store)
    requires AllInherited(store) && EntryFits(store, runId, e) && !Open(e.state)
    requires Kept(e.state, out.state, now) && SuccessorFits(e.state, out) && e.state.events == store.runs[runId].events
    requires |out.state.events| >= |e.state.events|
    requires Cluster.Append(store, runId, e.version, out.state.events[|e.state.events|..], Planned(out.successor, now)) == Some(b)
    requires Grows(store, b) && RequestsKept(store, b)
    ensures AllInherited(b)
  {
    hide Grows, Durable, Cluster.Append, Inherited, RequestsKept;
    assert out.successor.None?;
    assert Durable(e.state) by { EntryDurable(store, runId, e); }
    ClosedWritesNothing(e.state, out.state, now);
    AppendNoRun(store, runId, e, out.state.events);
    forall id | id in b.runs ensures Inherited(b, id) {
      InheritedStays(store, b, id);
    }
  }

  lemma EntryDurable(store: Store, runId: string, e: Entry)
    requires EntryFits(store, runId, e)
    ensures Durable(e.state) && e.state.runId == runId
  {
  }

  lemma OpenCommits(store: Store, runId: string, e: Entry, req: Request, draw: Draw, now: Time, b: Store)
    requires StoreFits(store) && Chained(store) && AllInherited(store) && EntryFits(store, runId, e) && now > 0 && LastTime(e.state) <= now
    requires draw.freshId != "" && draw.freshId != PENDING_RUN_ID && Engine.Handle(e.state, req, draw, now).Write? && Open(e.state)
    requires e.version == store.runs[runId].version && e.state.events == store.runs[runId].events
    requires
      var out := Engine.Handle(e.state, req, draw, now).out;
      && |out.state.events| >= |e.state.events|
      && Cluster.Append(store, runId, e.version, out.state.events[|e.state.events|..], Planned(out.successor, now)) == Some(b)
    requires StoreFits(b) && Grows(store, b) && RequestsKept(store, b)
    ensures AllInherited(b)
  {
    hide StoreFits, Grows, Durable, Engine.Handle, SuccessorFits, Cluster.Append, Create, Inherited, RequestsKept, SuccessorRequest, Kept, WellBegun,
         WellEnded, ClosedBeforeSuccessor;
    var s := e.state;
    var out := Engine.Handle(s, req, draw, now).out;
    var h := out.state.events;
    assert Ready(s, now) by { EntryReady(store, runId, e, now); }
    HandleKept(s, req, draw, now);
    KeptParts(s, out.state, now);
    HandleSuccessor(s, req, draw, now);
    EntryDurable(store, runId, e);
    NoSuccessorYet(store, runId, e);
    var next := Planned(out.successor, now);
    AppendShape(store, runId, e, h, next);
    assert WellBegun(store, runId);
    BegunFirst(store, runId);
    assert Begun(s.events) && s.events[0].attrs.start.firstRunId != "";
    if out.successor.Some? {
      HandOverChained(store, runId, e, out, now, b);
    }
    HandOverInherits(s, req, draw, now, b);
    forall id | id in b.runs ensures Inherited(b, id) {
      if id in store.runs && id != runId {
        InheritedStays(store, b, id);
      } else if id != runId {
        var n := out.successor.value;
        NewInherits(b, id, n.start, BirthOf(n), now);
      }
    }
  }

  lemma ServesInherits(sys: System, r: nat, runId: string, e: Entry, req: Request, draw: Draw, now: Time, fate: Fate)
    requires Inv(sys) && AllInherited(sys.store) && r in sys.replicas && EntryFits(sys.store, runId, e) && LastTime(e.state) <= now && now > 0
    requires draw.freshId != "" && draw.freshId != PENDING_RUN_ID
    requires
      var b := Serves(sys, r, runId, e, req, draw, now, fate).store;
      StoreFits(b) && Grows(sys.store, b) && RequestsKept(sys.store, b)
    ensures AllInherited(Serves(sys, r, runId, e, req, draw, now, fate).store)
  {
    hide StoreFits, Grows, Durable, Engine.Handle, EntryFits, Cluster.Append, AllInherited, RequestsKept, Chained, ReplicaFits, RefFits, SuccessorRefs,
         Planned;
    var v := Engine.Handle(e.state, req, draw, now);
    if v.Write? && |v.out.state.events| >= |e.state.events| && !fate.NothingToWrite? && !fate.NeverWritten? {
      var w := Cluster.Append(sys.store, runId, e.version, v.out.state.events[|e.state.events|..], Planned(v.out.successor, now));
      if w.Some? {
        CommitInherits(sys.store, runId, e, req, draw, now, w.value);
      }
    }
  }

  lemma ReconcilesInherits(sys: System, r: nat, runId: string, e: Entry, fate: Fate)
    requires AllInherited(sys.store) && r in sys.replicas && EntryFits(sys.store, runId, e)
    requires
      var b := Reconciles(sys, r, runId, e, fate).store;
      Grows(sys.store, b) && RequestsKept(sys.store, b)
    ensures AllInherited(Reconciles(sys, r, runId, e, fate).store)
  {
    hide Grows, Durable, Inherited, RequestsKept;
    var b := Reconciles(sys, r, runId, e, fate).store;
    if b != sys.store {
      assert b.runs == sys.store.runs[runId := StoredRun(sys.store.runs[runId].events + [], sys.store.runs[runId].version + 1)];
      forall id | id in b.runs ensures Inherited(b, id) {
        assert b.runs[id].events == sys.store.runs[id].events;
        InheritedStays(sys.store, b, id);
      }
    }
  }

  lemma StartsInherits(sys: System, r: nat, n: NewRun, st: StartAttrs, birth: Birth, now: Time, q: string, reusable: bool, fate: Fate)
    requires AllInherited(sys.store) && r in sys.replicas && Create(n.runId, st, birth, now).Ok?
    requires n.events == Create(n.runId, st, birth, now).value.state.events
    requires
      var b := Starts(sys, r, n, Create(n.runId, st, birth, now).value, q, reusable, fate).store;
      Grows(sys.store, b) && RequestsKept(sys.store, b)
    ensures AllInherited(Starts(sys, r, n, Create(n.runId, st, birth, now).value, q, reusable, fate).store)
  {
    hide Grows, Inherited, RequestsKept, Create, AnyOpen;
    var b := Starts(sys, r, n, Create(n.runId, st, birth, now).value, q, reusable, fate).store;
    if b != sys.store {
      forall id | id in b.runs ensures Inherited(b, id) {
        if id == n.runId { NewInherits(b, id, st, birth, now); } else { InheritedStays(sys.store, b, id); }
      }
    }
  }

  lemma StepInherits(sys: System, step: Cluster.Step)
    requires Inv(sys) && Permitted(sys, step) && AllInherited(sys.store)
    requires Inv(Cluster.Next(sys, step)) && Grows(sys.store, Cluster.Next(sys, step).store) && RequestsKept(sys.store, Cluster.Next(sys, step).store)
    ensures AllInherited(Cluster.Next(sys, step).store)
  {
    hide AllInherited, RequestsKept, Grows, Serves, Starts, Reconciles, Rebuild, Create, RecoveryRefs, Chained, StoreFits, EntryFits, ReplicaFits,
         RefFits;
    if step.r in sys.replicas {
      var rep := sys.replicas[step.r];
      match step
      case Serve(r, req, draw, now, fate) =>
        if rep.op.Loaded? {
          HeldFits(sys, r);
          ServesInherits(sys, r, rep.op.runId, rep.op.entry, req, draw, now, fate);
        }
      case Reconcile(r, fate) =>
        if rep.op.Reconciling? {
          HeldFits(sys, r);
          ReconcilesInherits(sys, r, rep.op.runId, rep.op.entry, fate);
        }
      case StartRun(r, runId, start, birth, q, reusable, now, fate) =>
        if rep.op.Idle? && Create(runId, start, birth, now).Ok? {
          StartsInherits(sys, r, NewRun(runId, Create(runId, start, birth, now).value.state.events), start, birth, now, q, reusable, fate);
        }
      case _ =>
    }
  }

  lemma {:induction false} StoreInherits(ids: set<nat>, systems: seq<System>, steps: seq<Cluster.Step>, n: nat)
    requires Interleaves(ids, systems, steps) && n < |systems|
    ensures AllInherited(systems[n].store)
  {
    hide OneOpen, RequestsStand, RequestsKept, Cluster.Next, Permitted, Inv, Inherited, Grows;
    assert Comes(ids, systems, steps, n);
    if n > 0 {
      StoreInherits(ids, systems, steps, n - 1);
      InterleavingInv(ids, systems, steps, n - 1);
      InterleavingInv(ids, systems, steps, n);
      StoreKeeps(ids, systems, steps, n);
      StepInherits(systems[n - 1], steps[n - 1]);
    } else {
      assert AllInherited(Boot(ids).store);
    }
  }

  /** Under every interleaving: a run that was continued as new or retried after a failure is followed by a stored run that starts
      from exactly what was recorded, however often replicas restarted, lost replies or raced each other. */
  lemma FollowersCarryOn(ids: set<nat>, systems: seq<System>, steps: seq<Cluster.Step>, n: nat, id: string)
    requires Interleaves(ids, systems, steps) && n < |systems| && id in systems[n].store.runs
    ensures Begun(systems[n].store.runs[id].events) && Inherited(systems[n].store, id)
  {
    hide Interleaves, Inherited, Safe, SuccessorRequest;
    StoreInherits(ids, systems, steps, n);
    InterleavingInv(ids, systems, steps, n);
    assert WellBegun(systems[n].store, id);
  }

  /** The follower as it is first stored: nothing but event 1 while it serves a backoff, and with its first task otherwise. */
  lemma FollowerBegins(store: Store, runId: string, e: Entry, req: Request, draw: Draw, now: Time, b: Store)
    requires StoreFits(store) && Chained(store) && EntryFits(store, runId, e) && now > 0 && LastTime(e.state) <= now
    requires draw.freshId != "" && draw.freshId != PENDING_RUN_ID && Engine.Handle(e.state, req, draw, now).Write?
    requires
      var out := Engine.Handle(e.state, req, draw, now).out;
      && out.successor.Some? && |out.state.events| >= |e.state.events|
      && Cluster.Append(store, runId, e.version, out.state.events[|e.state.events|..], Planned(out.successor, now)) == Some(b)
    requires StoreFits(b) && Grows(store, b)
    ensures
      var n := Engine.Handle(e.state, req, draw, now).out.successor.value;
      var first := Written.FirstEvent(n.runId, n.start, now);
      var task := TaskScheduled(n.start.taskQueue, if n.start.taskTimeout > 0 then n.start.taskTimeout else 10_000_000_000, 1);
      n.runId in b.runs && b.runs[n.runId].events == if n.delay > 0 then [first] else [first, Event(2, now, task)]
  {
    hide StoreFits, Chained, Grows, Durable, Engine.Handle, SuccessorFits, Cluster.Append, Create, Kept, Written.FirstEvent;
    var s := e.state;
    var out := Engine.Handle(s, req, draw, now).out;
    assert Ready(s, now) by { EntryReady(store, runId, e, now); }
    HandleKept(s, req, draw, now);
    HandleSuccessor(s, req, draw, now);
    HandOverChained(store, runId, e, out, now, b);
    var n := out.successor.value;
    Written.CreateWrites(n.runId, n.start, BirthOf(n), now);
  }
}
