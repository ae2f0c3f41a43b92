/** One workflow ID, one open run: whatever the replicas do, and whoever asks to start it, and how often. */
module Exclusion {
  import opened Prelude
  import opened History
  import opened Execution
  import opened Durability
  import opened Engine
  import opened Cluster

  /** No two runs of the workflow ID are open. */
  ghost predicate OneOpen(store: Store) {
    forall x, y :: x in store.runs && y in store.runs && RunIsOpen(store.runs[x].events) && RunIsOpen(store.runs[y].events) ==> x == y
  }

  /** Every known request created a run that is still stored. */
  ghost predicate RequestsStand(store: Store) { forall q :: q in store.requests ==> store.requests[q] in store.runs }

  /** Requests are never forgotten and never create another run. */
  ghost predicate RequestsKept(a: Store, b: Store) {
    forall q :: q in a.requests ==> q in b.requests && b.requests[q] == a.requests[q]
  }

  // ------------------------------------------------------------------
  // What a step can do to the store
  // ------------------------------------------------------------------

  ghost predicate Wrote(a: Store, b: Store, runId: string, expected: nat, events: seq<Event>, next: Option<NewRun>) {
    Cluster.Append(a, runId, expected, events, next) == Some(b)
  }

  ghost predicate Created(a: Store, b: Store, n: NewRun, q: string, reusable: bool) { CreateRun(a, n, q, reusable) == Some(b) }

  ghost predicate Moves(a: Store, b: Store) {
    || b == a
    || (exists runId, expected, events, next :: Wrote(a, b, runId, expected, events, next))
    || (exists n, q, reusable :: Created(a, b, n, q, reusable))
  }

  lemma ServesMoves(sys: System, r: nat, runId: string, e: Entry, req: Request, draw: Draw, now: Time, fate: Fate)
    requires r in sys.replicas
    ensures Moves(sys.store, Serves(sys, r, runId, e, req, draw, now, fate).store)
  {
    hide Engine.Handle, Planned, RefsOf, SuccessorRefs, Cluster.Append;
    var v := Engine.Handle(e.state, req, draw, now);
    if v.Write? && |v.out.state.events| >= |e.state.events| {
      var w := Cluster.Append(sys.store, runId, e.version, v.out.state.events[|e.state.events|..], Planned(v.out.successor, now));
      if w.Some? {
        assert Wrote(sys.store, w.value, runId, e.version, v.out.state.events[|e.state.events|..], Planned(v.out.successor, now));
      }
    }
  }

  lemma ReconcilesMoves(sys: System, r: nat, runId: string, e: Entry, fate: Fate)
    requires r in sys.replicas
    ensures Moves(sys.store, Reconciles(sys, r, runId, e, fate).store)
  {
    hide Cluster.Append;
    var w := Cluster.Append(sys.store, runId, e.version, [], None);
    if w.Some? {
      assert Wrote(sys.store, w.value, runId, e.version, [], None);
    }
  }

  lemma StartsMoves(sys: System, r: nat, n: NewRun, first: Execution.Step, q: string, reusable: bool, fate: Fate)
    requires r in sys.replicas
    ensures Moves(sys.store, Starts(sys, r, n, first, q, reusable, fate).store)
  {
    hide CreateRun, RefsOf;
    var w := CreateRun(sys.store, n, q, reusable);
    if w.Some? {
      assert Created(sys.store, w.value, n, q, reusable);
    }
  }

  lemma StepMoves(sys: System, step: Cluster.Step)
    ensures Moves(sys.store, Cluster.Next(sys, step).store)
  {
    hide Moves, Serves, Starts, Reconciles, Rebuild, Create, RecoveryRefs;
    assert Moves(sys.store, sys.store) by { NoMove(sys.store); }
    if step.r in sys.replicas {
      var rep := sys.replicas[step.r];
      match step
      case Serve(r, req, draw, now, fate) =>
        if rep.op.Loaded? { ServesMoves(sys, r, rep.op.runId, rep.op.entry, req, draw, now, fate); }
      case Reconcile(r, fate) =>
        if rep.op.Reconciling? { ReconcilesMoves(sys, r, rep.op.runId, rep.op.entry, fate); }
      case StartRun(r, runId, start, birth, q, reusable, now, fate) =>
        if Create(runId, start, birth, now).Ok? {
          var first := Create(runId, start, birth, now).value;
          StartsMoves(sys, r, NewRun(runId, first.state.events), first, q, reusable, fate);
        }
      case _ =>
    }
  }

  lemma NoMove(s: Store)
    ensures Moves(s, s)
  {
  }

  // ------------------------------------------------------------------
  // Each keeps the promise
  // ------------------------------------------------------------------

  lemma WriteKeepsOneOpen(a: Store, b: Store, runId: string, expected: nat, events: seq<Event>, next: Option<NewRun>)
    requires OneOpen(a) && StoreFits(b) && Wrote(a, b, runId, expected, events, next)
    ensures OneOpen(b)
  {
    hide SoundRun, RunIsOpen, SuccessorRequest;
    var run := a.runs[runId];
    var runs := a.runs[runId := StoredRun(run.events + events, run.version + 1)];
    if b.runs == runs {
      assert SoundRun(runId, b.runs[runId].events);
      if !RunIsOpen(run.events) {
        ClosedNeverGrows(runId, run.events, run.events + events);
      }
    } else {
      assert forall x :: x in b.runs && x != next.value.runId ==> x in runs && b.runs[x] == runs[x];
    }
  }

  lemma CreateKeepsOneOpen(a: Store, b: Store, n: NewRun, q: string, reusable: bool)
    requires OneOpen(a) && Created(a, b, n, q, reusable)
    ensures OneOpen(b)
  {
    hide RunIsOpen;
    assert forall x :: x in b.runs && x != n.runId ==> x in a.runs && b.runs[x] == a.runs[x];
  }

  lemma MoveKeeps(a: Store, b: Store)
    requires OneOpen(a) && RequestsStand(a) && StoreFits(b) && Moves(a, b)
    ensures OneOpen(b) && RequestsStand(b) && RequestsKept(a, b)
  {
    hide OneOpen, StoreFits, RunIsOpen, AnyOpen, SuccessorRequest;
    if runId, expected, events, next :| Wrote(a, b, runId, expected, events, next) {
      WriteKeepsOneOpen(a, b, runId, expected, events, next);
    } else if n, q, reusable :| Created(a, b, n, q, reusable) {
      CreateKeepsOneOpen(a, b, n, q, reusable);
    }
  }

  // ------------------------------------------------------------------
  // Under every interleaving
  // ------------------------------------------------------------------

  lemma {:induction false} StoreKeeps(ids: set<nat>, systems: seq<System>, steps: seq<Cluster.Step>, n: nat)
    requires Interleaves(ids, systems, steps) && n < |systems|
    ensures OneOpen(systems[n].store) && RequestsStand(systems[n].store)
    ensures n > 0 ==> RequestsKept(systems[n - 1].store, systems[n].store)
  {
    hide OneOpen, RequestsStand, RequestsKept, Moves, Cluster.Next, Permitted, Inv;
    assert Comes(ids, systems, steps, n);
    if n == 0 {
      assert OneOpen(Boot(ids).store) && RequestsStand(Boot(ids).store) by { NothingStored(ids); }
    } else {
      StoreKeeps(ids, systems, steps, n - 1);
      StepMoves(systems[n - 1], steps[n - 1]);
      InterleavingInv(ids, systems, steps, n);
      assert StoreFits(systems[n].store) by { InvFits(systems[n]); }
      MoveKeeps(systems[n - 1].store, systems[n].store);
    }
  }

  lemma NothingStored(ids: set<nat>)
    ensures OneOpen(Boot(ids).store) && RequestsStand(Boot(ids).store)
  {
  }

  lemma InvFits(sys: System)
    requires Inv(sys)
    ensures StoreFits(sys.store)
  {
    hide Chained, StoreFits;
  }

  /** At most one run of a workflow ID is ever open, whatever is started, continued, retried, lost or repeated. */
  lemma OneRunAtATime(ids: set<nat>, systems: seq<System>, steps: seq<Cluster.Step>, n: nat, x: string, y: string)
    requires Interleaves(ids, systems, steps) && n < |systems|
    requires x in systems[n].store.runs && y in systems[n].store.runs
    requires RunIsOpen(systems[n].store.runs[x].events) && RunIsOpen(systems[n].store.runs[y].events)
    ensures x == y
  {
    hide Interleaves, RunIsOpen;
    StoreKeeps(ids, systems, steps, n);
  }

  lemma {:induction false} RequestsNeverMove(ids: set<nat>, systems: seq<System>, steps: seq<Cluster.Step>, m: nat, n: nat)
    requires Interleaves(ids, systems, steps) && m <= n < |systems|
    ensures RequestsKept(systems[m].store, systems[n].store)
    decreases n
  {
    hide Interleaves;
    if m < n {
      RequestsNeverMove(ids, systems, steps, m, n - 1);
      StoreKeeps(ids, systems, steps, n);
    }
  }

  /** A request that has created a run creates no other: at every later point it stands for that very run, which is still stored,
      and asking again changes nothing in the store. */
  lemma RequestCreatesOnce(ids: set<nat>, systems: seq<System>, steps: seq<Cluster.Step>, m: nat, n: nat, q: string)
    requires Interleaves(ids, systems, steps) && m <= n < |systems| && q in systems[m].store.requests
    ensures q in systems[n].store.requests && systems[n].store.requests[q] == systems[m].store.requests[q]
    ensures systems[n].store.requests[q] in systems[n].store.runs
    ensures n < |steps| && steps[n].StartRun? && steps[n].requestId == q ==> systems[n + 1].store == systems[n].store
  {
    assert |systems| == |steps| + 1;
    hide Interleaves, Moves, OneOpen;
    StoreKeeps(ids, systems, steps, n);
    RequestsNeverMove(ids, systems, steps, m, n);
    if n < |steps| && steps[n].StartRun? && steps[n].requestId == q {
      assert systems[n + 1] == Cluster.Next(systems[n], steps[n]) by { StepComes(ids, systems, steps, n + 1); }
      KnownRequestStartsNothing(systems[n], steps[n]);
    }
  }

  lemma StepComes(ids: set<nat>, systems: seq<System>, steps: seq<Cluster.Step>, n: nat)
    requires Interleaves(ids, systems, steps) && 0 < n < |systems|
    ensures systems[n] == Cluster.Next(systems[n - 1], steps[n - 1])
  {
    hide Cluster.Next, Permitted;
    assert Comes(ids, systems, steps, n);
  }

  lemma KnownRequestStartsNothing(sys: System, step: Cluster.Step)
    requires step.StartRun? && step.requestId in sys.store.requests
    ensures Cluster.Next(sys, step).store == sys.store
  {
    hide Create, AnyOpen, RefsOf;
  }
}
