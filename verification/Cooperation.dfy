/** Server and workers together: runs in which every workflow task is answered by a warm or a cold instance. */
module Cooperation {
  import opened Prelude
  import opened History
  import opened Execution
  import opened Durability
  import opened ExactlyOnce
  import opened Engine
  import opened Rebuilding
  import opened Runs
  import opened Batches
  import opened Sdk
  import opened Determinism
  import opened Agreement
  import opened Protocol
  import opened Appends
  import opened Effects

  // ------------------------------------------------------------------
  // The batch of a live run is always taken
  // ------------------------------------------------------------------

  /** Naming the successor changes nothing a batch's record depends on. */
  lemma FinalizeKeepsRecord(step: Step, draw: Draw, h: seq<Event>, cmds: seq<Command>, now: Time)
    requires |RunsIn(step.effects)| <= 1 && Continues(h, step.state.events, cmds, now)
    ensures Finalize(step, draw).Write? && Continues(h, Finalize(step, draw).out.state.events, cmds, now)
  {
    hide RetryRows, RunsIn, OthersIn;
    var t := step.state;
    if SuccessorRunId(t) == PENDING_RUN_ID {
      RenamedContinues(h, t.events, cmds, draw.freshId, now);
    }
  }

  lemma RenamedContinues(h: seq<Event>, h': seq<Event>, cmds: seq<Command>, run: string, now: Time)
    requires Continues(h, h', cmds, now) && h'[|h'| - 1].attrs.ExecutionContinuedAsNew?
    ensures
      var e := h'[|h'| - 1];
      Continues(h, h'[|h'| - 1 := e.(attrs := e.attrs.(newRunId := run))], cmds, now)
  {
    var e := h'[|h'| - 1];
    var h2 := h'[|h'| - 1 := e.(attrs := e.attrs.(newRunId := run))];
    assert |h| < |h'| - 1;
    forall i | 0 <= i < |cmds| ensures RecordsAt(cmds[i], h2[|h| + 1 + i], |h| + 1 + i, |h| + 1, now) {
      assert RecordsAt(cmds[i], h'[|h| + 1 + i], |h| + 1 + i, |h| + 1, now);
    }
  }

  lemma SamePrecheck(s: State, t: State, cmds: seq<Command>)
    requires Agree(t, s) && Precheck(t, cmds)
    ensures Precheck(s, cmds)
  {
    hide ActivityIdsIn, TimerIdsIn, Durability.Core;
    forall i | 0 <= i < |cmds| ensures PrecheckAt(s, cmds, i) {
      assert PrecheckAt(t, cmds, i);
    }
  }

  /** The server takes the batch of a live run whole. */
  lemma AnswerTaken<P(!new)>(w: Workflow<P>, s: State, cl: Core<P>, identity: string, world: World, draw: Draw, now: Time, fuel: nat)
    requires WellFormedCode(w) && Durable(s) && Synced(w, s.runId, s.events, fuel)
    requires OwnsTask(s, identity) && s.task.startedId == |s.events|
    requires s.events[|s.events| - 1].attrs.TaskStarted?
    requires RunCode(w, Cold(w, s.events, fuel).value, MarkersIn(s.events, |s.events|), false, world, fuel) == Ok(cl)
    ensures
      var cmds := Batch(cl.env.desk.outstanding);
      var v := Engine.Handle(s, RespondTask(identity, cmds), draw, now);
      v.Write? && Continues(s.events, v.out.state.events, cmds, now)
  {
    hide WellFormedCode, Synced, Durable, RunCode, Cold, CompleteTask, ValidBatch, Precheck, CancelsOnce, Sim, Accounted, Finalize, Agree,
         RecordsAll, Replay, Linked, WellFormed, OwnsTask, ScheduleTask;
    var cmds := Batch(cl.env.desk.outstanding);
    LiveFinishes(w, s.runId, s.events, cl, world, fuel);
    assert Agree(Replay(s.runId, s.events).value, s) by { DurableAgrees(s); }
    SamePrecheck(s, Replay(s.runId, s.events).value, cmds);
    assert Started(s.task) by { OwnerOpen(s, identity); }
    BatchAtomic(s, identity, cmds, draw, now);
    CompleteStartsOneRun(s, identity, cmds, draw, now);
    var step := CompleteTask(s, identity, cmds, draw, now).step;
    assert NextEventId(s.events) == |s.events| + 1 by { DurableIds(s); }
    assert RespondWithCommands(s, cmds, identity, draw, now) == Applied(step);
    FinalizeKeepsRecord(step, draw, s.events, cmds, now);
  }

  lemma DurableAgrees(s: State)
    requires Durable(s)
    ensures Replay(s.runId, s.events).Ok? && Agree(Replay(s.runId, s.events).value, s)
  {
    hide Replay, Agree, Linked, WellFormed;
  }

  lemma DurableIds(s: State)
    requires Durable(s)
    ensures NextEventId(s.events) == |s.events| + 1
  {
    hide Replays, WellFormed;
    LinkedDense(s);
  }

  // ------------------------------------------------------------------
  // The system
  // ------------------------------------------------------------------

  /** The server's state of one run, and the instances the workers keep warm for it. */
  datatype System<P> = System(server: State, warm: seq<Instance<P>>)

  /** A run nobody has worked on yet. */
  function NewSystem<P>(s: State): System<P> { System(s, []) }

  /** A move of the system. `Answer` takes a warm instance out of a cache, or builds a cold one when `which` names none;
      `world` is what side effects and local activities say this time. */
  datatype Move =
    | Serve(turn: Turn)
    | Answer(which: nat, identity: string, world: World, draw: Draw, now: Time, stored: bool)

  function Without<T>(xs: seq<T>, i: nat): seq<T> {
    if i < |xs| then xs[..i] + xs[i + 1..] else xs
  }

  function Taken<P>(warm: seq<Instance<P>>, which: nat): Instance<P> {
    if which < |warm| then warm[which] else NewInstance()
  }

  /** One move; None when the server can no longer load the run. An instance goes back to its cache only once its batch
      has been taken. */
  function Advances<P>(w: Workflow<P>, sys: System<P>, move: Move, fuel: nat): Option<System<P>> {
    match move
    case Serve(turn) =>
      (match Next(sys.server, turn)
       case Some(t) => Some(sys.(server := t))
       case None => None)
    case Answer(which, identity, world, draw, now, stored) =>
      var done := ProcessTask(w, Taken(sys.warm, which), sys.server.events, sys.server.task.startedId, false, world, fuel);
      var rest := Without(sys.warm, which);
      match done.result
      case Err(_) => Some(sys.(warm := rest))
      case Ok(cmds) =>
        var turn := Turn(RespondTask(identity, cmds), draw, now, stored);
        match Next(sys.server, turn)
        case None => None
        case Some(t) =>
          var taken := stored && Engine.Handle(sys.server, turn.req, draw, now).Write?;
          Some(System(t, if taken then rest + [done.instance] else rest))
  }

  function ClockOf(move: Move): Time { if move.Serve? then move.turn.now else move.now }

  /** What is asked of a move: clocks in order, fresh IDs, task responses come from instances, answers a marker can
      reproduce, and a task answered before anything else is written after its started event. */
  ghost predicate Allowed<P>(sys: System<P>, move: Move, from: Time) {
    && from <= ClockOf(move)
    && match move
       case Serve(turn) => !turn.req.RespondTask? && turn.draw.freshId != ""
       case Answer(_, identity, world, draw, _, _) =>
         && StableWorld(world) && draw.freshId != ""
         && OwnsTask(sys.server, identity)
         && sys.server.task.startedId == |sys.server.events|
  }

  function ClockBefore(o: Origin, moves: seq<Move>, n: nat): Time
    requires n <= |moves|
  {
    if n == 0 then o.born else ClockOf(moves[n - 1])
  }

  /** System `n` of a run: a created run nobody has worked on, then what each move leads to. */
  ghost predicate Reaches<P(!new)>(w: Workflow<P>, o: Origin, systems: seq<System<P>>, moves: seq<Move>, n: nat, fuel: nat)
    requires |systems| == |moves| + 1 && n < |systems|
  {
    if n == 0 then
      && Startable(o)
      && Create(o.runId, o.start, o.birth, o.born).Ok?
      && systems[0] == NewSystem(Create(o.runId, o.start, o.birth, o.born).value.state)
    else
      && Allowed(systems[n - 1], moves[n - 1], ClockBefore(o, moves, n - 1))
      && Advances(w, systems[n - 1], moves[n - 1], fuel) == Some(systems[n])
  }

  /** `systems` are what server and workers go through from the creation of a run. */
  ghost predicate Works<P(!new)>(w: Workflow<P>, o: Origin, systems: seq<System<P>>, moves: seq<Move>, fuel: nat) {
    && |systems| == |moves| + 1
    && forall n {:trigger Reaches(w, o, systems, moves, n, fuel)} :: 0 <= n < |systems| ==> Reaches(w, o, systems, moves, n, fuel)
  }

  /** Server and instances agree. */
  ghost predicate Agreed<P(!new)>(w: Workflow<P>, sys: System<P>, fuel: nat) {
    && Durable(sys.server)
    && Synced(w, sys.server.runId, sys.server.events, fuel)
    && AllWarm(w, sys.warm, sys.server.events, fuel)
  }

  ghost predicate AllWarm<P(!new)>(w: Workflow<P>, warm: seq<Instance<P>>, h: seq<Event>, fuel: nat) {
    forall i :: 0 <= i < |warm| ==> Warm(w, warm[i], h, fuel)
  }

  // ----- the server on its own -----

  lemma {:induction false} ExternalRun<P(!new)>(w: Workflow<P>, runId: string, h: seq<Event>, h': seq<Event>, inst: Instance<P>, fuel: nat)
    requires Synced(w, runId, h, fuel) && h <= h' && WellFormed(h') && Replay(runId, h').Ok?
    requires forall i :: |h| <= i < |h'| ==> External(h'[i].attrs)
    ensures Synced(w, runId, h', fuel)
    ensures Warm(w, inst, h, fuel) ==> Warm(w, inst, h', fuel)
    decreases |h'|
  {
    hide Synced, Warm, WellFormed, Replay, External;
    if |h'| == |h| {
      assert h' == h;
    } else {
      var n := |h'| - 1;
      assert h <= h'[..n];
      assert h' == h'[..n] + [h'[n]];
      WellFormedPrefix(h', n);
      ReplayPrefix(runId, h', n);
      ExternalRun(w, runId, h, h'[..n], inst, fuel);
      ExternalSynced(w, runId, h'[..n], h'[n], fuel);
      if Warm(w, inst, h, fuel) {
        ExternalWarm(w, inst, h'[..n], h'[n], fuel);
      }
    }
  }

  lemma ServerAlone<P(!new)>(w: Workflow<P>, sys: System<P>, t: State, fuel: nat)
    requires Agreed(w, sys, fuel) && Durable(t) && t.runId == sys.server.runId && Adds(sys.server, t)
    ensures Agreed(w, sys.(server := t), fuel)
  {
    hide Synced, Warm, Linked;
    var h, h' := sys.server.events, t.events;
    assert WellFormed(h') && Replay(t.runId, h').Ok?;
    ExternalRun(w, t.runId, h, h', NewInstance<P>(), fuel);
    forall i | 0 <= i < |sys.warm| ensures Warm(w, sys.warm[i], h', fuel) {
      ExternalRun(w, t.runId, h, h', sys.warm[i], fuel);
    }
  }

  lemma NextAdds(s: State, turn: Turn)
    requires Durable(s) && Next(s, turn).Some?
    requires !turn.req.RespondTask? || !(turn.stored && Engine.Handle(s, turn.req, turn.draw, turn.now).Write?)
    ensures Adds(s, Next(s, turn).value)
  {
    hide Durable, Engine.Handle, Adds, Rebuild, Agree;
    AddsSelf(s, s);
    ReloadAgrees(s);
    if Reload(s).Some? {
      AgreeHistory(Reload(s).value, s);
      AddsSelf(s, Reload(s).value);
    }
    if !turn.req.RespondTask? && Engine.Handle(s, turn.req, turn.draw, turn.now).Write? {
      HandleAdds(s, turn.req, turn.draw, turn.now);
    }
  }

  lemma ServerMoves<P(!new)>(w: Workflow<P>, sys: System<P>, turn: Turn, fuel: nat)
    requires Agreed(w, sys, fuel) && LastTime(sys.server) <= turn.now && turn.draw.freshId != "" && Next(sys.server, turn).Some?
    requires !turn.req.RespondTask? || !(turn.stored && Engine.Handle(sys.server, turn.req, turn.draw, turn.now).Write?)
    ensures Agreed(w, sys.(server := Next(sys.server, turn).value), fuel)
    ensures LastTime(Next(sys.server, turn).value) <= turn.now
  {
    hide Synced, AllWarm, Next, Durable, Adds;
    NextKept(sys.server, turn);
    NextAdds(sys.server, turn);
    ServerAlone(w, sys, Next(sys.server, turn).value, fuel);
  }

  // ----- a task answered -----

  lemma WithoutWarm<P(!new)>(w: Workflow<P>, warm: seq<Instance<P>>, which: nat, h: seq<Event>, fuel: nat)
    requires AllWarm(w, warm, h, fuel)
    ensures AllWarm(w, Without(warm, which), h, fuel)
  {
    hide Warm;
    var rest := Without(warm, which);
    forall i | 0 <= i < |rest| ensures Warm(w, rest[i], h, fuel) {
      if which < |warm| {
        assert rest[i] == warm[if i < which then i else i + 1];
      }
    }
  }

  lemma TakenWarm<P(!new)>(w: Workflow<P>, sys: System<P>, which: nat, fuel: nat)
    requires Agreed(w, sys, fuel)
    ensures Warm(w, Taken(sys.warm, which), sys.server.events, fuel)
  {
    hide Warm, Synced, Linked, Replays, WellFormed;
    if which >= |sys.warm| {
      NewWarm(w, sys.server.events, fuel);
    }
  }

  lemma StartedLast(s: State)
    requires Durable(s) && Started(s.task) && s.task.startedId == |s.events|
    ensures s.events[|s.events| - 1].attrs.TaskStarted?
  {
    hide Durable;
    TaskRefs(s);
  }

  lemma AnswerMoves<P(!new)>(w: Workflow<P>, sys: System<P>, cl: Core<P>, turn: Turn, world: World, rest: seq<Instance<P>>, fuel: nat)
    requires WellFormedCode(w) && StableWorld(world)
    requires Agreed(w, sys, fuel) && LastTime(sys.server) <= turn.now && turn.draw.freshId != ""
    requires sys.server.events[|sys.server.events| - 1].attrs.TaskStarted?
    requires turn.req.RespondTask? && turn.req.commands == Batch(cl.env.desk.outstanding)
    requires RunCode(w, Cold(w, sys.server.events, fuel).value, MarkersIn(sys.server.events, |sys.server.events|), false, world, fuel) == Ok(cl)
    requires AllWarm(w, rest, sys.server.events, fuel)
    requires Engine.Handle(sys.server, turn.req, turn.draw, turn.now).Write?
    requires
      Continues(sys.server.events, Engine.Handle(sys.server, turn.req, turn.draw, turn.now).out.state.events, turn.req.commands, turn.now)
    ensures
      var t := Engine.Handle(sys.server, turn.req, turn.draw, turn.now).out.state;
      Agreed(w, System(t, rest + [After(cl, sys.server.events)]), fuel) && LastTime(t) <= turn.now
  {
    hide WellFormedCode, StableWorld, Synced, Warm, RunCode, Cold, Continues, Engine.Handle, Linked, MarkersIn;
    var s, h := sys.server, sys.server.events;
    HandleKept(s, turn.req, turn.draw, turn.now);
    var t := Engine.Handle(s, turn.req, turn.draw, turn.now).out.state;
    var h' := t.events;
    assert WellFormed(h') && Replay(t.runId, h').Ok?;
    BatchSynced(w, s.runId, h, h', cl, world, turn.now, fuel);
    AnswererWarm(w, s.runId, h, h', cl, world, turn.now, fuel);
    var warm := rest + [After(cl, h)];
    forall i | 0 <= i < |warm| ensures Warm(w, warm[i], h', fuel) {
      if i < |rest| {
        BatchWarm(w, rest[i], s.runId, h, h', cl, world, turn.now, fuel);
      }
    }
  }

  /** Every move keeps server and instances agreed. */
  lemma MoveAgreed<P(!new)>(w: Workflow<P>, sys: System<P>, move: Move, from: Time, fuel: nat)
    requires WellFormedCode(w) && Agreed(w, sys, fuel) && LastTime(sys.server) <= from && Allowed(sys, move, from)
    ensures
      var next := Advances(w, sys, move, fuel);
      next.Some? ==> Agreed(w, next.value, fuel) && LastTime(next.value.server) <= ClockOf(move)
  {
    hide WellFormedCode, StableWorld, Synced, AllWarm, Warm, RunCode, Cold, Next, Durable, ProcessTask, OwnsTask, Continues, MarkersIn, Without,
         After;
    if Advances(w, sys, move, fuel).Some? {
      match move
      case Serve(turn) => ServerMoves(w, sys, turn, fuel);
      case Answer(which, identity, world, draw, now, stored) =>
        var s, h := sys.server, sys.server.events;
        WithoutWarm(w, sys.warm, which, h, fuel);
        var rest := Without(sys.warm, which);
        assert Agreed(w, sys.(warm := rest), fuel);
        TakenWarm(w, sys, which, fuel);
        OwnerOpen(s, identity);
        StartedLast(s);
        SyncedNotEmpty(w, s.runId, h, fuel);
        LiveTask(w, Taken(sys.warm, which), s.runId, h, world, fuel);
        var r := RunCode(w, Cold(w, h, fuel).value, MarkersIn(h, |h|), false, world, fuel);
        if r.Ok? {
          var turn := Turn(RespondTask(identity, Batch(r.value.env.desk.outstanding)), draw, now, stored);
          AnswerTaken(w, s, r.value, identity, world, draw, now, fuel);
          if stored {
            AnswerMoves(w, sys, r.value, turn, world, rest, fuel);
            NextStored(s, turn);
          } else {
            ServerMoves(w, sys.(warm := rest), turn, fuel);
          }
        }
    }
  }

  lemma NextStored(s: State, turn: Turn)
    requires turn.stored && Engine.Handle(s, turn.req, turn.draw, turn.now).Write?
    ensures Next(s, turn) == Some(Engine.Handle(s, turn.req, turn.draw, turn.now).out.state)
  {
    hide Engine.Handle;
  }

  // ----- from creation -----

  lemma FirstSynced<P(!new)>(w: Workflow<P>, runId: string, h: seq<Event>, fuel: nat)
    requires |h| == 1 && WellFormed(h) && Replay(runId, h).Ok?
    ensures Synced(w, runId, h, fuel)
  {
    hide WellFormed;
    assert h[0].attrs.ExecutionStarted? by { FirstStarted(h); }
    assert h[..0] == [];
    assert MarkersIn(h, 0) == map[];
    assert ReplayRange(w, Fresh<P>(), map[], h, 0, 0, IDLE, fuel) == Ok(Fresh<P>());
    FreshKeys<P>();
    assert Replay(runId, []) == Ok(Empty(runId));
  }

  lemma FirstStarted(h: seq<Event>)
    requires |h| == 1 && WellFormed(h)
    ensures h[0].attrs.ExecutionStarted?
  {
    hide RefsOk;
    assert WellPlaced(h, 0);
  }

  lemma CreateAgreed<P(!new)>(w: Workflow<P>, runId: string, st: StartAttrs, birth: Birth, now: Time, fuel: nat)
    requires now > 0 && st.workflowType != "" && st.taskQueue != "" && (birth.WithSignal? ==> birth.name != "")
    ensures Create(runId, st, birth, now).Ok?
    ensures Agreed(w, NewSystem<P>(Create(runId, st, birth, now).value.state), fuel)
    ensures LastTime(Create(runId, st, birth, now).value.state) <= now
  {
    hide Start, Create, Adds, Synced, Linked;
    CreateDurable(runId, st, birth, now);
    CreateAdds(runId, st, birth, now);
    StartDurable(runId, st, now);
    var s := Start(Empty(runId), st, now).value;
    FirstSynced(w, runId, s.events, fuel);
    ServerAlone(w, NewSystem<P>(s), Create(runId, st, birth, now).value.state, fuel);
  }

  lemma {:induction false} WorksAgreed<P(!new)>(w: Workflow<P>, o: Origin, systems: seq<System<P>>, moves: seq<Move>, n: nat, fuel: nat)
    requires WellFormedCode(w) && Works(w, o, systems, moves, fuel) && n < |systems|
    ensures Agreed(w, systems[n], fuel) && LastTime(systems[n].server) <= ClockBefore(o, moves, n)
  {
    hide WellFormedCode, Agreed, Advances, Allowed, Create;
    assert Reaches(w, o, systems, moves, n, fuel);
    if n == 0 {
      CreateAgreed(w, o.runId, o.start, o.birth, o.born, fuel);
    } else {
      WorksAgreed(w, o, systems, moves, n - 1, fuel);
      MoveAgreed(w, systems[n - 1], moves[n - 1], ClockBefore(o, moves, n - 1), fuel);
    }
  }

  // ------------------------------------------------------------------
  // The theorems
  // ------------------------------------------------------------------

  /** On every run in which each task is answered before anything follows its started event, and side effects give
      answers a marker can reproduce, at every point: the history replays cold without a mismatch, its queue consumed. */
  lemma NoFalseAlarm<P(!new)>(w: Workflow<P>, o: Origin, systems: seq<System<P>>, moves: seq<Move>, n: nat, fuel: nat)
    requires WellFormedCode(w) && Works(w, o, systems, moves, fuel) && n < |systems|
    ensures
      var cold := Cold(w, systems[n].server.events, fuel);
      cold.Ok? && cold.value.env.desk.outstanding == []
  {
    hide WellFormedCode, Works, Durable, AllWarm, Cold, KeysAhead, Exactly, Sim, WellFormed, Replay, MarkersIn;
    WorksAgreed(w, o, systems, moves, n, fuel);
  }

  /** On the same runs, a task in flight gets the same batch from any warm instance as from a cold one, and leaves the same
      instance behind. */
  lemma WarmAndColdAgree<P(!new)>(w: Workflow<P>, o: Origin, systems: seq<System<P>>, moves: seq<Move>, n: nat, fuel: nat,
                                  which: nat, world: World)
    requires WellFormedCode(w) && Works(w, o, systems, moves, fuel) && n < |systems|
    requires which < |systems[n].warm|
    requires Started(systems[n].server.task) && systems[n].server.task.startedId == |systems[n].server.events|
    ensures
      var h := systems[n].server.events;
      var warm := ProcessTask(w, systems[n].warm[which], h, |h|, false, world, fuel);
      var cold := ProcessTask(w, NewInstance<P>(), h, |h|, false, world, fuel);
      warm.result == cold.result && (warm.result.Ok? ==> warm.instance == cold.instance)
  {
    hide WellFormedCode, Works, Durable, Warm, ProcessTask, Synced;
    WorksAgreed(w, o, systems, moves, n, fuel);
    var s := systems[n].server;
    StartedLast(s);
    WarmMatchesCold(w, systems[n].warm[which], s.runId, s.events, world, fuel);
  }

  /** On the same runs, the batch of any live task passes every check of the server and is written whole: nothing the
      workflow side produces from well-formed options is refused, crashes a completion, or is written in part. */
  lemma EveryBatchIsTaken<P(!new)>(w: Workflow<P>, o: Origin, systems: seq<System<P>>, moves: seq<Move>, n: nat, fuel: nat,
                                   which: nat, world: World, identity: string, draw: Draw, now: Time)
    requires WellFormedCode(w) && Works(w, o, systems, moves, fuel) && n < |systems|
    requires OwnsTask(systems[n].server, identity) && systems[n].server.task.startedId == |systems[n].server.events|
    ensures
      var s := systems[n].server;
      var done := ProcessTask(w, Taken(systems[n].warm, which), s.events, |s.events|, false, world, fuel);
      done.result.Ok? ==>
        var v := Engine.Handle(s, RespondTask(identity, done.result.value), draw, now);
        v.Write? && Continues(s.events, v.out.state.events, done.result.value, now)
  {
    hide WellFormedCode, Works, Durable, Warm, ProcessTask, Cold, RunCode, Engine.Handle, Continues, OwnsTask, MarkersIn,
         Synced, AllWarm, Taken, After;
    WorksAgreed(w, o, systems, moves, n, fuel);
    var s, h := systems[n].server, systems[n].server.events;
    OwnerOpen(s, identity);
    StartedLast(s);
    SyncedNotEmpty(w, s.runId, h, fuel);
    TakenWarm(w, systems[n], which, fuel);
    LiveTask(w, Taken(systems[n].warm, which), s.runId, h, world, fuel);
    var r := RunCode(w, Cold(w, h, fuel).value, MarkersIn(h, |h|), false, world, fuel);
    if r.Ok? {
      AnswerTaken(w, s, r.value, identity, world, draw, now, fuel);
    }
  }
}
