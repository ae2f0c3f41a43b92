/** Several replicas over one store: every interleaving of loads, conflicting writes, lost replies and crashes, for the
    runs of one workflow ID. */
module Cluster {
  import opened Prelude
  import opened History
  import opened Execution
  import opened Durability
  import opened ExactlyOnce
  import opened Engine
  import opened Rebuilding
  import opened Runs
  import opened Agreement
  import opened Appends
  import opened Effects
  import Recovery

  // ------------------------------------------------------------------
  // The store
  // ------------------------------------------------------------------

  datatype StoredRun = StoredRun(events: seq<Event>, version: nat)

  /** The runs of the workflow ID, and the run each request ID created. */
  datatype Store = Store(runs: map<string, StoredRun>, requests: map<string, string>)

  datatype NewRun = NewRun(runId: string, events: seq<Event>)

  function SuccessorRequest(runId: string): string { "successor-of:" + runId }

  predicate RunIsOpen(h: seq<Event>) { h == [] || !Terminal(TypeOf(h[|h| - 1].attrs)) }

  predicate AnyOpen(runs: map<string, StoredRun>) { exists id :: id in runs && RunIsOpen(runs[id].events) }

  /** Appending is a compare-and-set on the version; a successor is created in the same transaction or not at all. */
  function Append(store: Store, runId: string, expected: nat, newEvents: seq<Event>, next: Option<NewRun>): Option<Store> {
    if runId !in store.runs || store.runs[runId].version != expected then None
    else
      var run := store.runs[runId];
      var runs := store.runs[runId := StoredRun(run.events + newEvents, run.version + 1)];
      if next.None? || SuccessorRequest(runId) in store.requests then Some(store.(runs := runs))
      else if next.value.runId in runs || AnyOpen(runs) then None
      else Some(Store(runs[next.value.runId := StoredRun(next.value.events, 1)],
                      store.requests[SuccessorRequest(runId) := next.value.runId]))
  }

  /** Creating a run: a known request ID creates nothing, and neither does a workflow ID that is busy or may not be reused. */
  function CreateRun(store: Store, next: NewRun, requestId: string, reusable: bool): Option<Store> {
    if requestId in store.requests || next.runId in store.runs || AnyOpen(store.runs) || !reusable then None
    else Some(Store(store.runs[next.runId := StoredRun(next.events, 1)],
                    if requestId == "" then store.requests else store.requests[requestId := next.runId]))
  }

  // ------------------------------------------------------------------
  // Replicas
  // ------------------------------------------------------------------

  /** A cached state and the version it is believed to have. */
  datatype Entry = Entry(state: State, version: nat)

  /** Where a replica stands with the execution it has locked. */
  datatype Op =
    | Idle
    | Reading(runId: string, version: nat)
    | Loaded(runId: string, entry: Entry)
    | Dispatching(todo: seq<Ref>)
    | Reconciling(runId: string, entry: Entry)

  /** A reference handed to matching. */
  datatype Ref = Ref(runId: string, effect: Effect)

  datatype Replica = Replica(cache: map<string, Entry>, op: Op)

  datatype System = System(store: Store, replicas: map<nat, Replica>, handed: set<Ref>)

  /** How a write the store accepted looks to the replica, or whether it reached the store at all. */
  datatype Fate = Committed | ReplyLost | NeverWritten | NothingToWrite

  datatype Step =
    | Fetch(r: nat, runId: string)
    | ReadHistory(r: nat)
    | Serve(r: nat, req: Request, draw: Draw, now: Time, fate: Fate)
    | Dispatch(r: nat)
    | Redispatch(r: nat)
    | Reconcile(r: nat, fate: Fate)
    | Evict(r: nat, runId: string)
    | Restart(r: nat)
    | StartRun(r: nat, runId: string, start: StartAttrs, birth: Birth, requestId: string, reusable: bool, now: Time, fate: Fate)

  function Without(cache: map<string, Entry>, runId: string): map<string, Entry> { cache - {runId} }

  function BirthOf(n: Successor): Birth { if n.delay > 0 then Deferred(n.delay) else Immediate }

  /** The successor as the store will see it; building it cannot fail for a closed run's own attributes. */
  function Planned(n: Option<Successor>, now: Time): Option<NewRun> {
    if n.None? then None
    else
      match Create(n.value.runId, n.value.start, BirthOf(n.value), now)
      case Ok(step) => Some(NewRun(n.value.runId, step.state.events))
      case Err(_) => None
  }

  function RefsOf(runId: string, es: seq<Effect>): (refs: seq<Ref>)
    ensures |refs| == |es| && forall i :: 0 <= i < |es| ==> refs[i] == Ref(runId, es[i])
  {
    seq(|es|, i requires 0 <= i < |es| => Ref(runId, es[i]))
  }

  function SuccessorRefs(n: Option<Successor>, now: Time): seq<Ref> {
    if n.None? then []
    else
      match Create(n.value.runId, n.value.start, BirthOf(n.value), now)
      case Ok(step) => RefsOf(n.value.runId, step.effects)
      case Err(_) => []
  }

  /** One request against a loaded entry, with the write and its fate. */
  function Serves(sys: System, r: nat, runId: string, e: Entry, req: Request, draw: Draw, now: Time, fate: Fate): System
    requires r in sys.replicas
  {
    var rep := sys.replicas[r];
    var dropped := sys.(replicas := sys.replicas[r := Replica(Without(rep.cache, runId), Idle)]);
    match Engine.Handle(e.state, req, draw, now)
    case Noop => sys.(replicas := sys.replicas[r := rep.(op := Idle)])
    case Write(out) =>
      if fate.NothingToWrite? then
        if out.state.events != e.state.events || out.successor.Some? then dropped
        else sys.(replicas := sys.replicas[r := Replica(rep.cache[runId := Entry(out.state, e.version)],
                                                        Dispatching(RefsOf(runId, out.effects)))])
      else if |out.state.events| < |e.state.events| || fate.NeverWritten? then dropped
      else
        (match Append(sys.store, runId, e.version, out.state.events[|e.state.events|..], Planned(out.successor, now))
         case None => dropped
         case Some(store) =>
           if fate.ReplyLost? then dropped.(store := store)
           else System(store,
                       sys.replicas[r := Replica(rep.cache[runId := Entry(out.state, e.version + 1)],
                                                 Dispatching(SuccessorRefs(out.successor, now) + RefsOf(runId, out.effects)))],
                       sys.handed))
    case _ => dropped
  }

  /** A new run: once it is stored its creator caches it and has its first task to hand out. */
  function Starts(sys: System, r: nat, n: NewRun, first: Execution.Step, requestId: string, reusable: bool, fate: Fate): System
    requires r in sys.replicas
  {
    match CreateRun(sys.store, n, requestId, reusable)
    case None => sys
    case Some(store) =>
      if fate.Committed? then
        var rep := sys.replicas[r];
        System(store, sys.replicas[r := Replica(rep.cache[n.runId := Entry(first.state, 1)], Dispatching(RefsOf(n.runId, first.effects)))],
               sys.handed)
      else if fate.ReplyLost? then sys.(store := store)
      else sys
  }

  /** What recovery hands to matching for an open run: the scheduled task and the activities nobody has started. */
  function RecoveryRefs(runId: string, s: State): set<Ref> {
    if Open(s) then set x | x in Recovery.Redispatched(s) :: Ref(runId, x) else {}
  }

  /** Recovery's second half: rows the index lost are put back by a compare-and-set that writes no event. A conflict drops
      the entry; any other failure keeps it. */
  function Reconciles(sys: System, r: nat, runId: string, e: Entry, fate: Fate): System
    requires r in sys.replicas
  {
    var rep := sys.replicas[r];
    var done := sys.(replicas := sys.replicas[r := rep.(op := Idle)]);
    if fate.NothingToWrite? || fate.NeverWritten? then done
    else
      match Append(sys.store, runId, e.version, [], None)
      case None => sys.(replicas := sys.replicas[r := Replica(Without(rep.cache, runId), Idle)])
      case Some(store) =>
        if fate.ReplyLost? then done.(store := store)
        else System(store, sys.replicas[r := Replica(rep.cache[runId := Entry(e.state, e.version + 1)], Idle)], sys.handed)
  }

  /** One step of the system; a step that is not enabled changes nothing. */
  function Next(sys: System, step: Step): System {
    if step.r in sys.replicas then ReplicaStep(sys, step, sys.replicas[step.r]) else sys
  }

  function ReplicaStep(sys: System, step: Step, rep: Replica): System
    requires step.r in sys.replicas && sys.replicas[step.r] == rep
  {
    match step
    case Fetch(r, runId) =>
      if !rep.op.Idle? || runId !in sys.store.runs then sys
      else
        var version := sys.store.runs[runId].version;
        var op := if runId in rep.cache && rep.cache[runId].version == version then Loaded(runId, rep.cache[runId])
                  else Reading(runId, version);
        sys.(replicas := sys.replicas[r := rep.(op := op)])
    case ReadHistory(r) =>
      if !rep.op.Reading? || rep.op.runId !in sys.store.runs then sys
      else
        // the version was read earlier: another replica may have written in between
        (match Rebuild(rep.op.runId, sys.store.runs[rep.op.runId].events)
         case Err(_) => sys.(replicas := sys.replicas[r := rep.(op := Idle)])
         case Ok(s) =>
           var e := Entry(s, rep.op.version);
           sys.(replicas := sys.replicas[r := Replica(rep.cache[rep.op.runId := e], Loaded(rep.op.runId, e))]))
    case Serve(r, req, draw, now, fate) =>
      if !rep.op.Loaded? then sys else Serves(sys, r, rep.op.runId, rep.op.entry, req, draw, now, fate)
    case Dispatch(r) =>
      if !rep.op.Dispatching? then sys
      else System(sys.store, sys.replicas[r := rep.(op := Idle)], sys.handed + (set x | x in rep.op.todo))
    case Redispatch(r) =>
      if !rep.op.Loaded? then sys
      else
        var e := rep.op.entry;
        System(sys.store, sys.replicas[r := rep.(op := if Open(e.state) then Reconciling(rep.op.runId, e) else Idle)],
               sys.handed + RecoveryRefs(rep.op.runId, e.state))
    case Reconcile(r, fate) => if !rep.op.Reconciling? then sys else Reconciles(sys, r, rep.op.runId, rep.op.entry, fate)
    case StartRun(r, runId, start, birth, requestId, reusable, now, fate) =>
      if !rep.op.Idle? || Create(runId, start, birth, now).Err? then sys
      else
        var first := Create(runId, start, birth, now).value;
        Starts(sys, r, NewRun(runId, first.state.events), first, requestId, reusable, fate)
    case Evict(r, runId) => sys.(replicas := sys.replicas[r := rep.(cache := Without(rep.cache, runId))])
    case Restart(r) => sys.(replicas := sys.replicas[r := Replica(map[], Idle)])
  }

  // ------------------------------------------------------------------
  // The invariant
  // ------------------------------------------------------------------

  /** The stored history folds to a durable state of that run. */
  predicate SoundRun(runId: string, h: seq<Event>) {
    Replay(runId, h).Ok? && Durable(Replay(runId, h).value) && Replay(runId, h).value.events == h && Replay(runId, h).value.runId == runId
  }

  /** An entry holds a prefix of what is stored, and exactly what is stored when its version is current. */
  predicate EntryFits(store: Store, runId: string, e: Entry) {
    && runId in store.runs
    && Durable(e.state) && e.state.runId == runId
    && e.version <= store.runs[runId].version
    && e.state.events <= store.runs[runId].events
    && (e.version == store.runs[runId].version ==> e.state.events == store.runs[runId].events)
  }

  predicate RefFits(store: Store, x: Ref) { x.runId in store.runs && Named(store.runs[x.runId].events, x.effect) }

  predicate OpFits(store: Store, op: Op) {
    match op
    case Idle => true
    case Reading(runId, version) => runId in store.runs && version <= store.runs[runId].version
    case Loaded(runId, e) => EntryFits(store, runId, e)
    case Dispatching(todo) => forall i :: 0 <= i < |todo| ==> RefFits(store, todo[i])
    case Reconciling(runId, e) => EntryFits(store, runId, e)
  }

  predicate ReplicaFits(store: Store, rep: Replica) {
    OpFits(store, rep.op) && forall id :: id in rep.cache ==> EntryFits(store, id, rep.cache[id])
  }

  predicate StoreFits(store: Store) { forall id :: id in store.runs ==> SoundRun(id, store.runs[id].events) }

  predicate Safe(sys: System) {
    && StoreFits(sys.store)
    && (forall r :: r in sys.replicas ==> ReplicaFits(sys.store, sys.replicas[r]))
    && (forall x :: x in sys.handed ==> RefFits(sys.store, x))
  }

  /** Runs never disappear, and a run's history and version only grow. */
  predicate Grows(a: Store, b: Store) {
    forall id :: id in a.runs ==>
      id in b.runs && a.runs[id].events <= b.runs[id].events
      && (a.runs[id].version < b.runs[id].version || a.runs[id] == b.runs[id])
  }

  /** What is asked of a step: clocks do not go back, fresh IDs are fresh, clients stay out of the successor namespace. */
  predicate Permitted(sys: System, step: Step) {
    match step
    case Serve(r, _, draw, now, _) =>
      && draw.freshId != "" && draw.freshId != PENDING_RUN_ID && now > 0
      && (r in sys.replicas && sys.replicas[r].op.Loaded? ==> LastTime(sys.replicas[r].op.entry.state) <= now)
    case StartRun(_, runId, start, birth, requestId, _, now, _) =>
      && now > 0 && start.workflowType != "" && start.taskQueue != "" && (birth.WithSignal? ==> birth.name != "")
      && runId != "" && start.continuedRunId == "" && start.firstRunId == ""
      && !(SuccessorRequest("") <= requestId)
    case _ => true
  }

  // ----- growing stores -----

  lemma GrowsSelf(s: Store)
    ensures Grows(s, s)
  {
  }

  lemma EntryStays(a: Store, b: Store, runId: string, e: Entry)
    requires Grows(a, b) && EntryFits(a, runId, e)
    ensures EntryFits(b, runId, e)
  {
    hide Durable;
    assert a.runs[runId].events <= b.runs[runId].events;
  }

  lemma RefStays(a: Store, b: Store, x: Ref)
    requires Grows(a, b) && RefFits(a, x)
    ensures RefFits(b, x)
  {
    NamedGrows(a.runs[x.runId].events, b.runs[x.runId].events, [x.effect]);
    assert AllNamed(a.runs[x.runId].events, [x.effect]);
    assert Named(b.runs[x.runId].events, [x.effect][0]);
  }

  lemma ReplicaStays(a: Store, b: Store, rep: Replica)
    requires Grows(a, b) && ReplicaFits(a, rep)
    ensures ReplicaFits(b, rep)
  {
    hide EntryFits, RefFits;
    forall id | id in rep.cache ensures EntryFits(b, id, rep.cache[id]) {
      EntryStays(a, b, id, rep.cache[id]);
    }
    match rep.op
    case Loaded(runId, e) => EntryStays(a, b, runId, e);
    case Reconciling(runId, e) => EntryStays(a, b, runId, e);
    case Dispatching(todo) =>
      forall i | 0 <= i < |todo| ensures RefFits(b, todo[i]) {
        RefStays(a, b, todo[i]);
      }
    case _ =>
  }

  /** A new store that has grown, and one replica replaced, keep the system safe. */
  lemma SafeAfter(sys: System, store: Store, r: nat, rep: Replica, handed: set<Ref>)
    requires Safe(sys) && Grows(sys.store, store) && StoreFits(store)
    requires r in sys.replicas && ReplicaFits(store, rep)
    requires forall x :: x in handed ==> x in sys.handed || RefFits(store, x)
    ensures Safe(System(store, sys.replicas[r := rep], handed))
  {
    hide ReplicaFits, StoreFits, Grows, RefFits;
    var next := System(store, sys.replicas[r := rep], handed);
    forall k | k in next.replicas ensures ReplicaFits(store, next.replicas[k]) {
      if k != r {
        ReplicaStays(sys.store, store, sys.replicas[k]);
      }
    }
    forall x | x in handed ensures RefFits(store, x) {
      if x in sys.handed {
        RefStays(sys.store, store, x);
      }
    }
  }

  lemma DropFits(store: Store, rep: Replica, runId: string)
    requires ReplicaFits(store, rep)
    ensures ReplicaFits(store, Replica(Without(rep.cache, runId), Idle))
    ensures ReplicaFits(store, rep.(op := Idle))
    ensures ReplicaFits(store, rep.(cache := Without(rep.cache, runId)))
    ensures ReplicaFits(store, Replica(map[], Idle))
  {
    hide EntryFits, RefFits;
  }

  lemma CacheFits(store: Store, rep: Replica, runId: string, e: Entry, op: Op)
    requires ReplicaFits(store, rep) && EntryFits(store, runId, e) && OpFits(store, op)
    ensures ReplicaFits(store, Replica(rep.cache[runId := e], op))
  {
    hide EntryFits, RefFits;
  }

  lemma RefsFit(store: Store, runId: string, es: seq<Effect>)
    requires runId in store.runs && AllNamed(store.runs[runId].events, es)
    ensures forall i :: 0 <= i < |RefsOf(runId, es)| ==> RefFits(store, RefsOf(runId, es)[i])
  {
    hide Named;
  }

  // ----- stored histories -----

  /** The fold of a durable state's history is itself durable. */
  lemma DurableIsSound(s: State)
    requires Durable(s)
    ensures SoundRun(s.runId, s.events)
  {
    hide Linked, WellFormed, Agree;
    var t := Replay(s.runId, s.events).value;
    LinkedAgree(t, s);
    AgreeHistory(t, s);
    AgreeSelf(t);
  }

  lemma StoredWrite(store: Store, runId: string, h: seq<Event>)
    requires StoreFits(store) && runId in store.runs && store.runs[runId].events <= h && SoundRun(runId, h)
    ensures
      var next := store.(runs := store.runs[runId := StoredRun(h, store.runs[runId].version + 1)]);
      StoreFits(next) && Grows(store, next)
  {
    hide SoundRun;
  }

  lemma StoredCreation(store: Store, n: NewRun, requests: map<string, string>)
    requires StoreFits(store) && n.runId !in store.runs && SoundRun(n.runId, n.events)
    ensures
      var next := Store(store.runs[n.runId := StoredRun(n.events, 1)], requests);
      StoreFits(next) && Grows(store, next)
  {
    hide SoundRun;
  }

  /** What the store holds after a compare-and-set that succeeded. */
  lemma AppendFits(store: Store, runId: string, e: Entry, h: seq<Event>, next: Option<NewRun>)
    requires StoreFits(store) && EntryFits(store, runId, e) && e.state.events <= h && SoundRun(runId, h)
    requires next.Some? ==> SoundRun(next.value.runId, next.value.events)
    ensures
      var r := Append(store, runId, e.version, h[|e.state.events|..], next);
      r.Some? ==>
        && StoreFits(r.value) && Grows(store, r.value)
        && runId in r.value.runs && r.value.runs[runId] == StoredRun(h, e.version + 1)
  {
    hide SoundRun, Durable, Grows, StoreFits;
    if Append(store, runId, e.version, h[|e.state.events|..], next).Some? {
      assert store.runs[runId].events + h[|e.state.events|..] == h;
      StoredWrite(store, runId, h);
      var mid := store.(runs := store.runs[runId := StoredRun(h, e.version + 1)]);
      if next.Some? && SuccessorRequest(runId) !in store.requests {
        StoredCreation(mid, next.value, store.requests[SuccessorRequest(runId) := next.value.runId]);
        GrowsTwice(store, mid, Append(store, runId, e.version, h[|e.state.events|..], next).value);
      }
    }
  }

  lemma GrowsTwice(a: Store, b: Store, c: Store)
    requires Grows(a, b) && Grows(b, c)
    ensures Grows(a, c)
  {
    forall id | id in a.runs
      ensures id in c.runs && a.runs[id].events <= c.runs[id].events && (a.runs[id].version < c.runs[id].version || a.runs[id] == c.runs[id])
    {
      assert id in b.runs && a.runs[id].events <= b.runs[id].events;
      assert b.runs[id].events <= c.runs[id].events;
    }
  }

  lemma PlannedSound(s: State, out: Outcome, now: Time)
    requires SuccessorFits(s, out) && now > 0
    ensures Planned(out.successor, now).Some? <==> out.successor.Some?
    ensures Planned(out.successor, now).Some? ==>
              SoundRun(Planned(out.successor, now).value.runId, Planned(out.successor, now).value.events)
  {
    hide SoundRun, Durable, Create;
    if out.successor.Some? {
      var n := out.successor.value;
      CreateDurable(n.runId, n.start, BirthOf(n), now);
      DurableIsSound(Create(n.runId, n.start, BirthOf(n), now).value.state);
    }
  }

  // ----- every step -----

  lemma FetchSafe(sys: System, step: Step)
    requires Safe(sys) && (step.Fetch? || step.Evict? || step.Restart?) && step.r in sys.replicas
    ensures Safe(Next(sys, step)) && Next(sys, step).store == sys.store
  {
    hide StoreFits, EntryFits, RefFits;
    var rep := sys.replicas[step.r];
    GrowsSelf(sys.store);
    assert ReplicaFits(sys.store, rep);
    if step.Fetch? {
      if rep.op.Idle? && step.runId in sys.store.runs {
        SafeAfter(sys, sys.store, step.r, Next(sys, step).replicas[step.r], sys.handed);
      }
    } else {
      DropFits(sys.store, rep, if step.Evict? then step.runId else "");
      SafeAfter(sys, sys.store, step.r, Next(sys, step).replicas[step.r], sys.handed);
    }
  }

  lemma ReadSafe(sys: System, r: nat)
    requires Safe(sys) && r in sys.replicas
    ensures Safe(Next(sys, ReadHistory(r))) && Next(sys, ReadHistory(r)).store == sys.store
  {
    hide StoreFits, EntryFits, RefFits, Rebuild;
    var rep := sys.replicas[r];
    GrowsSelf(sys.store);
    assert ReplicaFits(sys.store, rep);
    if rep.op.Reading? {
      DropFits(sys.store, rep, "");
      var h := sys.store.runs[rep.op.runId].events;
      if Rebuild(rep.op.runId, h).Ok? {
        var e := Entry(Rebuild(rep.op.runId, h).value, rep.op.version);
        RebuiltFits(sys.store, rep.op.runId, rep.op.version);
        CacheFits(sys.store, rep, rep.op.runId, e, Loaded(rep.op.runId, e));
      }
      SafeAfter(sys, sys.store, r, Next(sys, ReadHistory(r)).replicas[r], sys.handed);
    }
  }

  /** A rebuild of what is stored now fits under any version read earlier. */
  lemma RebuiltFits(store: Store, runId: string, version: nat)
    requires StoreFits(store) && runId in store.runs && version <= store.runs[runId].version
    requires Rebuild(runId, store.runs[runId].events).Ok?
    ensures EntryFits(store, runId, Entry(Rebuild(runId, store.runs[runId].events).value, version))
  {
    hide Durable, Replay, WellFormed;
    assert SoundRun(runId, store.runs[runId].events);
  }

  lemma DispatchSafe(sys: System, step: Step)
    requires Safe(sys) && step.Dispatch? && step.r in sys.replicas
    ensures Safe(Next(sys, step)) && Next(sys, step).store == sys.store
  {
    hide StoreFits, RefFits, Durable;
    var rep := sys.replicas[step.r];
    GrowsSelf(sys.store);
    assert ReplicaFits(sys.store, rep);
    DropFits(sys.store, rep, "");
    if rep.op.Dispatching? {
      SafeAfter(sys, sys.store, step.r, rep.(op := Idle), Next(sys, step).handed);
    }
  }

  // ----- recovery -----

  /** What recovery dispatches is recorded, because a durable state knows what it waits for from its history. */
  lemma RecoveryNames(s: State, x: Effect)
    requires Durable(s) && x in Recovery.Redispatched(s)
    ensures Named(s.events, x)
  {
    hide Durable, Refers;
    TaskRefs(s);
    if x.DispatchActivity? {
      ActivityRefs(s, x.scheduledId);
    }
  }

  lemma RecoveryRefsFit(store: Store, runId: string, e: Entry)
    requires EntryFits(store, runId, e)
    ensures forall x :: x in RecoveryRefs(runId, e.state) ==> RefFits(store, x)
  {
    hide Durable, Recovery.Redispatched, Named;
    forall x | x in RecoveryRefs(runId, e.state) ensures RefFits(store, x) {
      RecoveryNames(e.state, x.effect);
      NamedGrows(e.state.events, store.runs[runId].events, [x.effect]);
      assert AllNamed(store.runs[runId].events, [x.effect]);
      assert Named(store.runs[runId].events, [x.effect][0]);
    }
  }

  lemma RedispatchSafe(sys: System, r: nat)
    requires Safe(sys) && r in sys.replicas
    ensures Safe(Next(sys, Redispatch(r))) && Next(sys, Redispatch(r)).store == sys.store
  {
    hide StoreFits, RefFits, Durable, EntryFits, RecoveryRefs;
    var rep := sys.replicas[r];
    GrowsSelf(sys.store);
    assert ReplicaFits(sys.store, rep);
    DropFits(sys.store, rep, "");
    if rep.op.Loaded? {
      RecoveryRefsFit(sys.store, rep.op.runId, rep.op.entry);
      SafeAfter(sys, sys.store, r, Next(sys, Redispatch(r)).replicas[r], Next(sys, Redispatch(r)).handed);
    }
  }

  lemma TodoFits(store: Store, a: seq<Ref>, b: seq<Ref>)
    requires forall i :: 0 <= i < |a| ==> RefFits(store, a[i])
    requires forall i :: 0 <= i < |b| ==> RefFits(store, b[i])
    ensures forall i :: 0 <= i < |a + b| ==> RefFits(store, (a + b)[i])
  {
    hide RefFits;
  }

  /** The first task of a successor that now exists. */
  lemma SuccessorRefsFit(store: Store, out: Outcome, s: State, now: Time)
    requires SuccessorFits(s, out) && now > 0
    requires out.successor.Some? ==>
      out.successor.value.runId in store.runs
      && store.runs[out.successor.value.runId].events == Create(out.successor.value.runId, out.successor.value.start, BirthOf(out.successor.value), now).value.state.events
    requires out.successor.Some? ==> Create(out.successor.value.runId, out.successor.value.start, BirthOf(out.successor.value), now).Ok?
    ensures forall i :: 0 <= i < |SuccessorRefs(out.successor, now)| ==> RefFits(store, SuccessorRefs(out.successor, now)[i])
  {
    hide RefFits, Durable, Start, AllNamed;
    if out.successor.Some? {
      var n := out.successor.value;
      CreationNames(n.runId, n.start, BirthOf(n), now);
      RefsFit(store, n.runId, Create(n.runId, n.start, BirthOf(n), now).value.effects);
    }
  }

  /** However a run begins, what it dispatches is recorded. */
  lemma CreationNames(runId: string, st: StartAttrs, birth: Birth, now: Time)
    requires now > 0 && st.workflowType != "" && st.taskQueue != "" && (birth.WithSignal? ==> birth.name != "")
    ensures Create(runId, st, birth, now).Ok?
    ensures AllNamed(Create(runId, st, birth, now).value.state.events, Create(runId, st, birth, now).value.effects)
  {
    hide Start, ScheduleTask, Signal, AllNamed, Durable, Dense;
    CreateDurable(runId, st, birth, now);
    StartDurable(runId, st, now);
    var s := Start(Empty(runId), st, now).value;
    KeptSelf(s, now);
    match birth
    case Deferred(_) => NothingNamed(s.events);
    case Immediate => ScheduleNames(s, now);
    case WithSignal(name, input) =>
      SignalSucceeds(s, name, input, now);
      SignalKept(s, name, input, now);
      var t := Signal(s, name, input, now).value;
      KeptParts(s, t.state, now);
      KeptSelf(t.state, now);
      TransitionsName(s, 0, name, input, now);
      ScheduleNames(t.state, now);
      ScheduleKept(t.state, now);
      var u := ScheduleTask(t.state, now).value;
      KeptParts(t.state, u.state, now);
      NamedGrows(t.state.events, u.state.events, t.effects);
      NamedConcat(u.state.events, t.effects, u.effects);
  }

  // ------------------------------------------------------------------
  // Chains of runs
  // ------------------------------------------------------------------

  predicate EndsInContinue(h: seq<Event>) { h != [] && h[|h| - 1].attrs.ExecutionContinuedAsNew? }

  /** The run's first event, and what it says about the run before. */
  predicate WellBegun(store: Store, id: string)
    requires id in store.runs
  {
    var st := Started1(store.runs[id].events);
    && st.Some? && st.value.firstRunId != ""
    && (st.value.continuedRunId != "" ==>
          var p := st.value.continuedRunId;
          && p in store.runs && SuccessorRequest(p) in store.requests && store.requests[SuccessorRequest(p)] == id
          && Started1(store.runs[p].events).Some?
          && Started1(store.runs[p].events).value.firstRunId == st.value.firstRunId)
  }

  /** A run that continued as new names a run that exists and points back at it. */
  predicate WellEnded(store: Store, id: string)
    requires id in store.runs
  {
    var h := store.runs[id].events;
    EndsInContinue(h) ==>
      var n := h[|h| - 1].attrs.newRunId;
      && n != PENDING_RUN_ID && n in store.runs
      && Started1(store.runs[n].events).Some? && Started1(store.runs[n].events).value.continuedRunId == id
  }

  /** Only closed runs have successors. */
  predicate ClosedBeforeSuccessor(store: Store, p: string) {
    SuccessorRequest(p) in store.requests ==> p in store.runs && !RunIsOpen(store.runs[p].events)
  }

  ghost predicate Chained(store: Store) {
    && (forall id :: id in store.runs ==> WellBegun(store, id) && WellEnded(store, id))
    && (forall p: string :: ClosedBeforeSuccessor(store, p))
  }

  lemma RequestInjective(p: string, q: string)
    requires SuccessorRequest(p) == SuccessorRequest(q)
    ensures p == q
  {
    assert p == SuccessorRequest(p)[13..];
    assert q == SuccessorRequest(q)[13..];
  }

  /** No run has two successors. */
  lemma OneSuccessor(store: Store, x: string, y: string)
    requires Chained(store) && x in store.runs && y in store.runs
    requires Started1(store.runs[x].events).Some? && Started1(store.runs[y].events).Some?
    requires Started1(store.runs[x].events).value.continuedRunId == Started1(store.runs[y].events).value.continuedRunId != ""
    ensures x == y
  {
    assert WellBegun(store, x) && WellBegun(store, y);
  }

  // ----- what a run's first event fixes -----

  lemma RecordKeepsInfo(s: State, e: Event)
    requires Record(s, e).Ok? && !e.attrs.ExecutionStarted?
    ensures Record(s, e).value.info == s.info
  {
    hide ApplyToTask, ApplyToActivities, ApplyToTimers, StatusAfter;
  }

  lemma {:induction false} ReplayInfo(runId: string, h: seq<Event>)
    requires WellFormed(h) && h != [] && Replay(runId, h).Ok?
    ensures Started1(h).Some? && Replay(runId, h).value.info == InfoFrom(runId, h[0].time, h[0].attrs.start)
    decreases |h|
  {
    hide Record, RefsOk, InfoFrom;
    var n := |h| - 1;
    assert WellPlaced(h, n) && WellPlaced(h, 0);
    if n == 0 {
      assert h[..0] == [];
      FirstInfo(runId, h[0]);
    } else {
      WellFormedPrefix(h, n);
      ReplayInfo(runId, h[..n]);
      RecordKeepsInfo(Replay(runId, h[..n]).value, h[n]);
    }
  }

  lemma FirstInfo(runId: string, e: Event)
    requires e.attrs.ExecutionStarted?
    ensures Record(Empty(runId), e).Ok? && Record(Empty(runId), e).value.info == InfoFrom(runId, e.time, e.attrs.start)
    ensures Record(Empty(runId), e).value.runId == runId
  {
  }

  lemma InfoFirstRun(s: State)
    requires Durable(s) && Started1(s.events).Some? && Started1(s.events).value.firstRunId != ""
    ensures s.info.firstRunId == Started1(s.events).value.firstRunId
  {
    hide Linked, Replay, WellFormed, AgreeActivities;
    ReplayInfo(s.runId, s.events);
  }

  lemma StartShape(runId: string, st: StartAttrs, now: Time)
    requires runId != "" && Start(Empty(runId), st, now).Ok?
    ensures
      var h := Start(Empty(runId), st, now).value.events;
      && |h| == 1 && Started1(h).Some?
      && Started1(h).value.continuedRunId == st.continuedRunId
      && Started1(h).value.firstRunId == (if st.firstRunId == "" then runId else st.firstRunId)
  {
  }

  lemma CreationShape(runId: string, st: StartAttrs, birth: Birth, now: Time)
    requires now > 0 && st.workflowType != "" && st.taskQueue != "" && (birth.WithSignal? ==> birth.name != "") && runId != ""
    ensures Create(runId, st, birth, now).Ok?
    ensures
      var h := Create(runId, st, birth, now).value.state.events;
      && Started1(h).Some? && !EndsInContinue(h)
      && Started1(h).value.continuedRunId == st.continuedRunId
      && Started1(h).value.firstRunId == (if st.firstRunId == "" then runId else st.firstRunId)
  {
    hide Start, Create;
    CreateAdds(runId, st, birth, now);
    StartShape(runId, st, now);
    var h1, h := Start(Empty(runId), st, now).value.events, Create(runId, st, birth, now).value.state.events;
    assert h[0] == h1[0];
    if |h| > 1 {
      assert External(h[|h| - 1].attrs);
    }
  }

  // ----- growing chains -----

  /** A run grows without changing how it began. */
  lemma SameBeginning(h: seq<Event>, h': seq<Event>)
    requires h <= h' && Started1(h).Some?
    ensures Started1(h') == Started1(h)
  {
  }

  lemma BegunStays(a: Store, b: Store, id: string)
    requires Chained(a) && Grows(a, b) && id in a.runs
    requires forall q :: q in a.requests ==> q in b.requests && b.requests[q] == a.requests[q]
    ensures WellBegun(b, id)
  {
    hide Started1, SuccessorRequest;
    assert WellBegun(a, id);
    SameBeginning(a.runs[id].events, b.runs[id].events);
    var p := Started1(a.runs[id].events).value.continuedRunId;
    if p != "" {
      SameBeginning(a.runs[p].events, b.runs[p].events);
    }
  }

  lemma EndedStays(a: Store, b: Store, id: string)
    requires Chained(a) && Grows(a, b) && id in a.runs && b.runs[id].events == a.runs[id].events
    ensures WellEnded(b, id)
  {
    hide Started1;
    assert WellEnded(a, id);
    var h := a.runs[id].events;
    if EndsInContinue(h) {
      var n := h[|h| - 1].attrs.newRunId;
      SameBeginning(a.runs[n].events, b.runs[n].events);
    }
  }

  lemma ClosedStays(a: Store, b: Store, p: string)
    requires ClosedBeforeSuccessor(a, p) && StoreFits(b) && Grows(a, b) && SuccessorRequest(p) in a.requests
    ensures p in b.runs && !RunIsOpen(b.runs[p].events)
  {
    hide SoundRun;
    var h, h' := a.runs[p].events, b.runs[p].events;
    ClosedNeverGrows(p, h, h');
  }

  lemma ClosedNeverGrows(p: string, h: seq<Event>, h': seq<Event>)
    requires SoundRun(p, h') && h <= h' && !RunIsOpen(h)
    ensures h' == h
  {
    hide Replay, RefsOk, TypeOf, Terminal, Linked;
    assert WellPlaced(h', |h| - 1);
  }

  /** Creating a run a client asked for. */
  lemma ClientStartChained(store: Store, runId: string, st: StartAttrs, birth: Birth, requestId: string, reusable: bool, now: Time)
    requires StoreFits(store) && Chained(store)
    requires now > 0 && st.workflowType != "" && st.taskQueue != "" && (birth.WithSignal? ==> birth.name != "") && runId != ""
    requires st.continuedRunId == "" && st.firstRunId == "" && !(SuccessorRequest("") <= requestId)
    ensures Create(runId, st, birth, now).Ok?
    ensures
      var first := Create(runId, st, birth, now).value;
      var w := CreateRun(store, NewRun(runId, first.state.events), requestId, reusable);
      w.Some? ==>
        && StoreFits(w.value) && Chained(w.value) && Grows(store, w.value)
        && EntryFits(w.value, runId, Entry(first.state, 1))
        && OpFits(w.value, Dispatching(RefsOf(runId, first.effects)))
  {
    hide StoreFits, SoundRun, Create, Started1, Durable, RunIsOpen, AllNamed, RefFits;
    CreationShape(runId, st, birth, now);
    CreateDurable(runId, st, birth, now);
    var first := Create(runId, st, birth, now).value;
    var n := NewRun(runId, first.state.events);
    var w := CreateRun(store, n, requestId, reusable);
    if w.Some? {
      DurableIsSound(first.state);
      StoredCreation(store, n, w.value.requests);
      CreationNames(runId, st, birth, now);
      RefsFit(w.value, runId, first.effects);
      NewRunChained(store, w.value, n, requestId);
    }
  }

  lemma NewRunChained(store: Store, next: Store, n: NewRun, requestId: string)
    requires StoreFits(store) && Chained(store) && Grows(store, next) && n.runId !in store.runs && n.runId != ""
    requires requestId !in store.requests && !(SuccessorRequest("") <= requestId)
    requires next.runs == store.runs[n.runId := StoredRun(n.events, 1)]
    requires next.requests == if requestId == "" then store.requests else store.requests[requestId := n.runId]
    requires Started1(n.events).Some? && !EndsInContinue(n.events)
    requires Started1(n.events).value.continuedRunId == "" && Started1(n.events).value.firstRunId != ""
    ensures Chained(next)
  {
    hide StoreFits, Started1, RunIsOpen, EndsInContinue;
    forall id | id in next.runs ensures WellBegun(next, id) && WellEnded(next, id) {
      if id in store.runs {
        BegunStays(store, next, id);
        EndedStays(store, next, id);
      }
    }
    forall p: string ensures ClosedBeforeSuccessor(next, p) {
      assert ClosedBeforeSuccessor(store, p);
      assert SuccessorRequest("") <= SuccessorRequest(p) by { PrefixRequest(p); }
    }
  }

  lemma PrefixRequest(p: string)
    ensures SuccessorRequest("") <= SuccessorRequest(p)
  {
  }

  /** A write of a run, with its successor if it has one. */
  lemma WriteChained(store: Store, next: Store, runId: string, h: seq<Event>, n: Option<NewRun>)
    requires StoreFits(store) && StoreFits(next) && Grows(store, next) && Chained(store) && runId in store.runs
    requires next.runs == (if n.Some? then store.runs[runId := next.runs[runId]][n.value.runId := StoredRun(n.value.events, 1)]
                           else store.runs[runId := next.runs[runId]])
    requires next.runs[runId].events == h && store.runs[runId].events <= h
    requires next.requests == (if n.Some? then store.requests[SuccessorRequest(runId) := n.value.runId] else store.requests)
    requires n.Some? ==>
      && n.value.runId !in store.runs && SuccessorRequest(runId) !in store.requests && !RunIsOpen(h)
      && Started1(n.value.events).Some? && !EndsInContinue(n.value.events)
      && Started1(n.value.events).value.continuedRunId == runId
      && Started1(n.value.events).value.firstRunId == Started1(store.runs[runId].events).value.firstRunId
      && Started1(store.runs[runId].events).Some?
    requires h != store.runs[runId].events && EndsInContinue(h) ==>
      n.Some? && h[|h| - 1].attrs.newRunId == n.value.runId && n.value.runId != PENDING_RUN_ID
    ensures Chained(next)
  {
    hide StoreFits, Started1, SuccessorRequest, RunIsOpen;
    forall id | id in next.runs ensures WellBegun(next, id) && WellEnded(next, id) {
      if n.Some? && id == n.value.runId {
        assert WellBegun(store, runId);
        SameBeginning(store.runs[runId].events, h);
      } else {
        BegunStays(store, next, id);
        if id != runId || h == store.runs[runId].events {
          EndedStays(store, next, id);
        }
      }
    }
    forall p: string ensures ClosedBeforeSuccessor(next, p) {
      assert ClosedBeforeSuccessor(store, p);
      if SuccessorRequest(p) in store.requests {
        ClosedStays(store, next, p);
      } else if SuccessorRequest(p) in next.requests {
        RequestInjective(p, runId);
      }
    }
  }

  // ------------------------------------------------------------------
  // Serving a request
  // ------------------------------------------------------------------

  ghost predicate Inv(sys: System) { Safe(sys) && Chained(sys.store) }

  /** The entry's state is what is stored, so the successor of an open run cannot exist yet. */
  lemma NoSuccessorYet(store: Store, runId: string, e: Entry)
    requires Chained(store) && EntryFits(store, runId, e) && e.version == store.runs[runId].version && Open(e.state)
    ensures SuccessorRequest(runId) !in store.requests
  {
    hide WellBegun, WellEnded, SuccessorRequest;
    assert ClosedBeforeSuccessor(store, runId);
    assert RunIsOpen(e.state.events) by { OpenIsOpen(e.state); }
  }

  lemma OpenIsOpen(s: State)
    requires Durable(s)
    ensures Open(s) <==> RunIsOpen(s.events)
  {
    hide Replays, WellFormed, TaskLinked, ActivitiesLinked, TimersLinked, Dense;
  }

  /** A closed run's history does not grow any more. */
  lemma ClosedWritesNothing(s: State, t: State, now: Time)
    requires Durable(s) && !Open(s) && Kept(s, t, now)
    ensures t.events == s.events
  {
    hide Durable, SoundRun;
    OpenIsOpen(s);
    KeptParts(s, t, now);
    DurableIsSound(t);
    ClosedNeverGrows(t.runId, s.events, t.events);
  }

  /** What a successful append leaves in the store. */
  lemma AppendShape(store: Store, runId: string, e: Entry, h: seq<Event>, n: Option<NewRun>)
    requires EntryFits(store, runId, e) && e.state.events <= h && SuccessorRequest(runId) !in store.requests
    ensures
      var r := Append(store, runId, e.version, h[|e.state.events|..], n);
      r.Some? ==>
        && e.version == store.runs[runId].version && e.state.events == store.runs[runId].events
        && r.value.runs == (if n.Some? then store.runs[runId := StoredRun(h, e.version + 1)][n.value.runId := StoredRun(n.value.events, 1)]
                            else store.runs[runId := StoredRun(h, e.version + 1)])
        && r.value.requests == (if n.Some? then store.requests[SuccessorRequest(runId) := n.value.runId] else store.requests)
        && (n.Some? ==> n.value.runId !in store.runs && n.value.runId != runId)
  {
    hide Durable, SuccessorRequest;
    if Append(store, runId, e.version, h[|e.state.events|..], n).Some? {
      assert store.runs[runId].events + h[|e.state.events|..] == h;
    }
  }

  lemma AppendNoRun(store: Store, runId: string, e: Entry, h: seq<Event>)
    requires EntryFits(store, runId, e) && e.state.events <= h
    ensures
      var r := Append(store, runId, e.version, h[|e.state.events|..], None);
      r.Some? ==>
        && e.version == store.runs[runId].version && e.state.events == store.runs[runId].events
        && r.value == Store(store.runs[runId := StoredRun(h, e.version + 1)], store.requests)
  {
    hide Durable;
    if Append(store, runId, e.version, h[|e.state.events|..], None).Some? {
      assert store.runs[runId].events + h[|e.state.events|..] == h;
    }
  }

  /** The write of a request with a successor. */
  lemma HandOverChained(store: Store, runId: string, e: Entry, out: Outcome, now: Time, next: Store)
    requires StoreFits(store) && Chained(store) && EntryFits(store, runId, e) && now > 0
    requires Kept(e.state, out.state, now) && SuccessorFits(e.state, out) && out.successor.Some?
    requires Append(store, runId, e.version, out.state.events[|e.state.events|..], Planned(out.successor, now)) == Some(next)
    requires StoreFits(next) && Grows(store, next)
    ensures Chained(next)
    ensures
      var n := out.successor.value;
      && Create(n.runId, n.start, BirthOf(n), now).Ok?
      && n.runId in next.runs && next.runs[n.runId].events == Create(n.runId, n.start, BirthOf(n), now).value.state.events
  {
    hide StoreFits, Started1, SuccessorRequest, RunIsOpen, Durable, Grows, Create, Append, WellBegun, WellEnded, ClosedBeforeSuccessor, EndsInContinue;
    var n := out.successor.value;
    var h := out.state.events;
    KeptParts(e.state, out.state, now);
    CreationShape(n.runId, n.start, BirthOf(n), now);
    AppendOnCurrent(store, runId, e, h, Planned(out.successor, now));
    NoSuccessorYet(store, runId, e);
    AppendShape(store, runId, e, h, Planned(out.successor, now));
    assert WellBegun(store, runId);
    BegunFirst(store, runId);
    InfoFirstRun(e.state);
    OpenIsOpen(out.state);
    ContinueNames(e.state, out);
    WriteChained(store, next, runId, h, Planned(out.successor, now));
  }

  lemma ContinueNames(s: State, out: Outcome)
    requires SuccessorFits(s, out) && Open(s)
    ensures EndsInContinue(out.state.events) ==>
              out.successor.Some? && out.state.events[|out.state.events| - 1].attrs.newRunId == out.successor.value.runId
  {
  }

  lemma BegunFirst(store: Store, runId: string)
    requires runId in store.runs && WellBegun(store, runId)
    ensures Started1(store.runs[runId].events).Some? && Started1(store.runs[runId].events).value.firstRunId != ""
  {
  }

  lemma AppendOnCurrent(store: Store, runId: string, e: Entry, h: seq<Event>, n: Option<NewRun>)
    requires EntryFits(store, runId, e) && e.state.events <= h
    requires Append(store, runId, e.version, h[|e.state.events|..], n).Some?
    ensures e.version == store.runs[runId].version && e.state.events == store.runs[runId].events
  {
    hide Durable;
  }

  /** The write of a request without one. */
  lemma PlainChained(store: Store, runId: string, e: Entry, out: Outcome, now: Time, next: Store)
    requires StoreFits(store) && Chained(store) && EntryFits(store, runId, e)
    requires Kept(e.state, out.state, now) && SuccessorFits(e.state, out) && out.successor.None?
    requires Append(store, runId, e.version, out.state.events[|e.state.events|..], None) == Some(next)
    requires StoreFits(next) && Grows(store, next)
    ensures Chained(next)
  {
    hide StoreFits, Started1, SuccessorRequest, RunIsOpen, Durable, Grows, Append, WellBegun, WellEnded, ClosedBeforeSuccessor, EndsInContinue;
    KeptParts(e.state, out.state, now);
    AppendNoRun(store, runId, e, out.state.events);
    if Open(e.state) {
      ContinueNames(e.state, out);
    } else {
      ClosedWritesNothing(e.state, out.state, now);
    }
    WriteChained(store, next, runId, out.state.events, None);
  }

  /** What a commit that went through leaves: the run's new history is the one computed from exactly what was stored. */
  lemma CommitInv(store: Store, runId: string, e: Entry, out: Outcome, now: Time)
    requires StoreFits(store) && Chained(store) && EntryFits(store, runId, e) && now > 0
    requires Kept(e.state, out.state, now) && SuccessorFits(e.state, out) && AllNamed(out.state.events, out.effects)
    ensures
      var r := Append(store, runId, e.version, out.state.events[|e.state.events|..], Planned(out.successor, now));
      r.Some? ==>
        && StoreFits(r.value) && Chained(r.value) && Grows(store, r.value)
        && e.state.events == store.runs[runId].events
        && runId in r.value.runs && r.value.runs[runId] == StoredRun(out.state.events, e.version + 1)
        && EntryFits(r.value, runId, Entry(out.state, e.version + 1))
        && OpFits(r.value, Dispatching(SuccessorRefs(out.successor, now) + RefsOf(runId, out.effects)))
  {
    hide StoreFits, Chained, Grows, SoundRun, Append, SuccessorFits, AllNamed, RefFits, Durable, Create;
    KeptParts(e.state, out.state, now);
    DurableIsSound(out.state);
    PlannedSound(e.state, out, now);
    var next := Planned(out.successor, now);
    AppendFits(store, runId, e, out.state.events, next);
    var r := Append(store, runId, e.version, out.state.events[|e.state.events|..], next);
    if r.Some? {
      AppendOnCurrent(store, runId, e, out.state.events, next);
      if out.successor.Some? {
        HandOverChained(store, runId, e, out, now, r.value);
      } else {
        PlainChained(store, runId, e, out, now, r.value);
      }
      SuccessorRefsFit(r.value, out, e.state, now);
      RefsFit(r.value, runId, out.effects);
      TodoFits(r.value, SuccessorRefs(out.successor, now), RefsOf(runId, out.effects));
    }
  }

  lemma ServesInv(sys: System, r: nat, runId: string, e: Entry, req: Request, draw: Draw, now: Time, fate: Fate)
    requires Inv(sys) && r in sys.replicas && EntryFits(sys.store, runId, e) && LastTime(e.state) <= now && now > 0
    requires draw.freshId != "" && draw.freshId != PENDING_RUN_ID
    ensures Inv(Serves(sys, r, runId, e, req, draw, now, fate)) && Grows(sys.store, Serves(sys, r, runId, e, req, draw, now, fate).store)
  {
    hide StoreFits, Chained, Grows, Append, SuccessorFits, AllNamed, RefFits, Durable, Kept, Engine.Handle, ReplicaFits, OpFits, EntryFits,
         SuccessorRefs, Planned, Without;
    var rep := sys.replicas[r];
    GrowsSelf(sys.store);
    assert ReplicaFits(sys.store, rep);
    DropFits(sys.store, rep, runId);
    var idle := Replica(Without(rep.cache, runId), Idle);
    SafeAfter(sys, sys.store, r, idle, sys.handed);
    SafeAfter(sys, sys.store, r, rep.(op := Idle), sys.handed);
    var v := Engine.Handle(e.state, req, draw, now);
    if v.Write? {
      var out := v.out;
      assert Ready(e.state, now) by { EntryReady(sys.store, runId, e, now); }
      HandleKept(e.state, req, draw, now);
      HandleNames(e.state, req, draw, now);
      HandleSuccessor(e.state, req, draw, now);
      CommitFromInv(sys, runId, e, out, now);
      if fate.NothingToWrite? {
        if out.state.events == e.state.events && out.successor.None? {
          PatchFits(sys.store, runId, e, out, now);
          CacheFits(sys.store, rep, runId, Entry(out.state, e.version), Dispatching(RefsOf(runId, out.effects)));
          SafeAfter(sys, sys.store, r, Replica(rep.cache[runId := Entry(out.state, e.version)], Dispatching(RefsOf(runId, out.effects))), sys.handed);
        }
      } else if |out.state.events| >= |e.state.events| {
        var w := Append(sys.store, runId, e.version, out.state.events[|e.state.events|..], Planned(out.successor, now));
        if w.Some? && !fate.NeverWritten? {
          ReplicaStays(sys.store, w.value, idle);
          SafeAfter(sys, w.value, r, idle, sys.handed);
          ReplicaStays(sys.store, w.value, rep);
          var todo := Dispatching(SuccessorRefs(out.successor, now) + RefsOf(runId, out.effects));
          CacheFits(w.value, rep, runId, Entry(out.state, e.version + 1), todo);
          SafeAfter(sys, w.value, r, Replica(rep.cache[runId := Entry(out.state, e.version + 1)], todo), sys.handed);
        }
      }
    }
  }

  lemma EntryReady(store: Store, runId: string, e: Entry, now: Time)
    requires EntryFits(store, runId, e) && LastTime(e.state) <= now
    ensures Ready(e.state, now)
  {
  }

  lemma CommitFromInv(sys: System, runId: string, e: Entry, out: Outcome, now: Time)
    requires Inv(sys) && EntryFits(sys.store, runId, e) && now > 0
    requires Kept(e.state, out.state, now) && SuccessorFits(e.state, out) && AllNamed(out.state.events, out.effects)
    ensures |out.state.events| >= |e.state.events|
    ensures
      var r := Append(sys.store, runId, e.version, out.state.events[|e.state.events|..], Planned(out.successor, now));
      r.Some? ==>
        && StoreFits(r.value) && Chained(r.value) && Grows(sys.store, r.value)
        && EntryFits(r.value, runId, Entry(out.state, e.version + 1))
        && OpFits(r.value, Dispatching(SuccessorRefs(out.successor, now) + RefsOf(runId, out.effects)))
  {
    hide StoreFits, Chained, Grows, Append, SuccessorFits, AllNamed, RefFits, Durable, OpFits, EntryFits, SuccessorRefs, Planned;
    KeptParts(e.state, out.state, now);
    CommitInv(sys.store, runId, e, out, now);
  }

  lemma PatchFits(store: Store, runId: string, e: Entry, out: Outcome, now: Time)
    requires EntryFits(store, runId, e) && Kept(e.state, out.state, now) && out.state.events == e.state.events
    requires AllNamed(out.state.events, out.effects)
    ensures EntryFits(store, runId, Entry(out.state, e.version)) && OpFits(store, Dispatching(RefsOf(runId, out.effects)))
  {
    hide Durable, AllNamed, RefFits;
    NamedGrows(out.state.events, store.runs[runId].events, out.effects);
    RefsFit(store, runId, out.effects);
  }

  // ------------------------------------------------------------------
  // Recovering a run, starting a run
  // ------------------------------------------------------------------

  /** What recovery's event-free write leaves in the store. */
  lemma EmptyAppend(store: Store, runId: string, e: Entry)
    requires StoreFits(store) && Chained(store) && EntryFits(store, runId, e)
    ensures
      var r := Append(store, runId, e.version, [], None);
      r.Some? ==>
        && StoreFits(r.value) && Chained(r.value) && Grows(store, r.value)
        && EntryFits(r.value, runId, Entry(e.state, e.version + 1))
  {
    hide Durable, StoreFits, Started1, RunIsOpen, Chained, Grows, SoundRun;
    var r := Append(store, runId, e.version, [], None);
    if r.Some? {
      var h := e.state.events;
      assert h[|h|..] == [];
      DurableIsSound(e.state);
      AppendFits(store, runId, e, h, None);
      AppendNoRun(store, runId, e, h);
      WriteChained(store, r.value, runId, h, None);
    }
  }

  lemma ReconcileInv(sys: System, r: nat, runId: string, e: Entry, fate: Fate)
    requires Inv(sys) && r in sys.replicas && EntryFits(sys.store, runId, e)
    ensures Inv(Reconciles(sys, r, runId, e, fate)) && Grows(sys.store, Reconciles(sys, r, runId, e, fate).store)
  {
    hide StoreFits, Chained, Grows, Append, RefFits, Durable, ReplicaFits, EntryFits, Without;
    var rep := sys.replicas[r];
    GrowsSelf(sys.store);
    assert ReplicaFits(sys.store, rep);
    DropFits(sys.store, rep, runId);
    var idle := rep.(op := Idle);
    SafeAfter(sys, sys.store, r, idle, sys.handed);
    SafeAfter(sys, sys.store, r, Replica(Without(rep.cache, runId), Idle), sys.handed);
    EmptyAppend(sys.store, runId, e);
    var w := Append(sys.store, runId, e.version, [], None);
    if w.Some? {
      ReplicaStays(sys.store, w.value, idle);
      SafeAfter(sys, w.value, r, idle, sys.handed);
      CacheFits(w.value, idle, runId, Entry(e.state, e.version + 1), Idle);
      SafeAfter(sys, w.value, r, Replica(rep.cache[runId := Entry(e.state, e.version + 1)], Idle), sys.handed);
    }
  }

  lemma StartInv(sys: System, step: Step)
    requires Inv(sys) && step.StartRun? && step.r in sys.replicas && Permitted(sys, step)
    ensures Inv(Next(sys, step)) && Grows(sys.store, Next(sys, step).store)
  {
    hide StoreFits, Chained, Grows, RefFits, Durable, ReplicaFits, EntryFits, Create, CreateRun, OpFits;
    var rep := sys.replicas[step.r];
    GrowsSelf(sys.store);
    assert ReplicaFits(sys.store, rep);
    ClientStartChained(sys.store, step.runId, step.start, step.birth, step.requestId, step.reusable, step.now);
    var first := Create(step.runId, step.start, step.birth, step.now).value;
    var w := CreateRun(sys.store, NewRun(step.runId, first.state.events), step.requestId, step.reusable);
    if w.Some? {
      ReplicaStays(sys.store, w.value, rep);
      SafeAfter(sys, w.value, step.r, rep, sys.handed);
      assert sys.replicas[step.r := rep] == sys.replicas;
      var todo := Dispatching(RefsOf(step.runId, first.effects));
      CacheFits(w.value, rep, step.runId, Entry(first.state, 1), todo);
      SafeAfter(sys, w.value, step.r, Replica(rep.cache[step.runId := Entry(first.state, 1)], todo), sys.handed);
    }
  }

  // ------------------------------------------------------------------
  // Every step, every run
  // ------------------------------------------------------------------

  /** Every step of every replica keeps the system safe and the chain whole, and only ever adds to what is stored. */
  lemma StepKeepsInv(sys: System, step: Step)
    requires Inv(sys) && Permitted(sys, step)
    ensures Inv(Next(sys, step)) && Grows(sys.store, Next(sys, step).store)
  {
    hide StoreFits, Chained, Grows, RefFits, Durable, EntryFits, Serves, Starts, Reconciles, ReplicaFits, Rebuild, Create, RecoveryRefs;
    GrowsSelf(sys.store);
    if step.r in sys.replicas {
      var rep := sys.replicas[step.r];
      match step
      case StartRun(_, _, _, _, _, _, _, _) => StartInv(sys, step);
      case ReadHistory(r) => ReadSafe(sys, r);
      case Serve(r, req, draw, now, fate) =>
        if rep.op.Loaded? {
          assert EntryFits(sys.store, rep.op.runId, rep.op.entry) by { HeldFits(sys, r); }
          ServesInv(sys, r, rep.op.runId, rep.op.entry, req, draw, now, fate);
        }
      case Dispatch(r) => DispatchSafe(sys, step);
      case Redispatch(r) => RedispatchSafe(sys, r);
      case Reconcile(r, fate) =>
        if rep.op.Reconciling? {
          assert EntryFits(sys.store, rep.op.runId, rep.op.entry) by { HeldFits(sys, r); }
          ReconcileInv(sys, r, rep.op.runId, rep.op.entry, fate);
        }
      case _ => FetchSafe(sys, step);
    }
  }

  /** The entry an operation is at work on fits the store. */
  lemma HeldFits(sys: System, r: nat)
    requires Safe(sys) && r in sys.replicas && (sys.replicas[r].op.Loaded? || sys.replicas[r].op.Reconciling?)
    ensures EntryFits(sys.store, sys.replicas[r].op.runId, sys.replicas[r].op.entry)
  {
    hide EntryFits, StoreFits, RefFits;
    assert ReplicaFits(sys.store, sys.replicas[r]);
  }

  /** An empty store and idle replicas. */
  function Boot(ids: set<nat>): System { System(Store(map[], map[]), map r | r in ids :: Replica(map[], Idle), {}) }

  lemma BootInv(ids: set<nat>)
    ensures Inv(Boot(ids))
  {
  }

  /** System `n` of an interleaving: an empty store and idle replicas, then what each permitted step leads to. */
  predicate Comes(ids: set<nat>, systems: seq<System>, steps: seq<Step>, n: nat)
    requires |systems| == |steps| + 1 && n < |systems|
  {
    if n == 0 then systems[0] == Boot(ids)
    else Permitted(systems[n - 1], steps[n - 1]) && systems[n] == Next(systems[n - 1], steps[n - 1])
  }

  predicate Interleaves(ids: set<nat>, systems: seq<System>, steps: seq<Step>) {
    && |systems| == |steps| + 1
    && forall n {:trigger Comes(ids, systems, steps, n)} :: 0 <= n < |systems| ==> Comes(ids, systems, steps, n)
  }

  lemma {:induction false} InterleavingInv(ids: set<nat>, systems: seq<System>, steps: seq<Step>, n: nat)
    requires Interleaves(ids, systems, steps) && n < |systems|
    ensures Inv(systems[n])
    ensures n > 0 ==> Grows(systems[n - 1].store, systems[n].store)
  {
    hide Inv, Grows, Next, Permitted, Boot;
    assert Comes(ids, systems, steps, n);
    if n == 0 {
      BootInv(ids);
    } else {
      InterleavingInv(ids, systems, steps, n - 1);
      StepKeepsInv(systems[n - 1], steps[n - 1]);
    }
  }

  /** Durable history only grows, whatever the replicas do. */
  lemma {:induction false} StoreOnlyGrows(ids: set<nat>, systems: seq<System>, steps: seq<Step>, m: nat, n: nat)
    requires Interleaves(ids, systems, steps) && m <= n < |systems|
    ensures Grows(systems[m].store, systems[n].store)
  {
    hide Interleaves, Inv, Grows;
    if m == n {
      GrowsSelf(systems[m].store);
    } else {
      StoreOnlyGrows(ids, systems, steps, m, n - 1);
      InterleavingInv(ids, systems, steps, n);
      GrowsTwice(systems[m].store, systems[n - 1].store, systems[n].store);
    }
  }

  /** Under every interleaving: a cached entry at the stored version holds exactly the stored events, even if its two reads
      straddled another write. */
  lemma CacheIsCurrent(ids: set<nat>, systems: seq<System>, steps: seq<Step>, n: nat, r: nat, runId: string)
    requires Interleaves(ids, systems, steps) && n < |systems|
    requires r in systems[n].replicas && runId in systems[n].replicas[r].cache && runId in systems[n].store.runs
    requires systems[n].replicas[r].cache[runId].version == systems[n].store.runs[runId].version
    ensures systems[n].replicas[r].cache[runId].state.events == systems[n].store.runs[runId].events
  {
    hide Interleaves, Chained, Durable;
    InterleavingInv(ids, systems, steps, n);
    assert ReplicaFits(systems[n].store, systems[n].replicas[r]);
    assert EntryFits(systems[n].store, runId, systems[n].replicas[r].cache[runId]);
  }

  /** Under every interleaving: every reference ever handed to matching names a durable scheduled event. */
  lemma HandedIsDurable(ids: set<nat>, systems: seq<System>, steps: seq<Step>, n: nat, x: Ref)
    requires Interleaves(ids, systems, steps) && n < |systems| && x in systems[n].handed
    ensures x.runId in systems[n].store.runs && Named(systems[n].store.runs[x.runId].events, x.effect)
  {
    hide Interleaves, Chained, Named;
    InterleavingInv(ids, systems, steps, n);
    assert RefFits(systems[n].store, x);
  }

  /** Under every interleaving: every stored history is well formed and, under the cap, can be loaded. */
  lemma StoredIsLoadable(ids: set<nat>, systems: seq<System>, steps: seq<Step>, n: nat, runId: string)
    requires Interleaves(ids, systems, steps) && n < |systems| && runId in systems[n].store.runs
    ensures
      var h := systems[n].store.runs[runId].events;
      WellFormed(h) && (Rebuild(runId, h).Ok? <==> |h| <= MAX_EVENTS)
  {
    hide Interleaves, Chained, Durable, Replay, WellFormed;
    InterleavingInv(ids, systems, steps, n);
    assert SoundRun(runId, systems[n].store.runs[runId].events);
    SoundWellFormed(runId, systems[n].store.runs[runId].events);
  }

  lemma SoundWellFormed(runId: string, h: seq<Event>)
    requires SoundRun(runId, h)
    ensures WellFormed(h) && Replay(runId, h).Ok?
  {
    hide Linked, WellFormed, Replay;
  }

  /** Under every interleaving: a run that continued as new names a stored run that points back at it, never the
      placeholder. */
  lemma ContinuedRunsHaveSuccessors(ids: set<nat>, systems: seq<System>, steps: seq<Step>, n: nat, id: string)
    requires Interleaves(ids, systems, steps) && n < |systems|
    requires id in systems[n].store.runs && EndsInContinue(systems[n].store.runs[id].events)
    ensures
      var runs := systems[n].store.runs;
      var h := runs[id].events;
      var next := h[|h| - 1].attrs.newRunId;
      && next != PENDING_RUN_ID && next in runs && Started1(runs[next].events).Some?
      && Started1(runs[next].events).value.continuedRunId == id
  {
    hide Interleaves, Safe, Started1;
    InterleavingInv(ids, systems, steps, n);
    assert WellEnded(systems[n].store, id);
  }

  /** Under every interleaving: a run that follows another keeps the first run ID of the chain, and no other run follows the
      same one. */
  lemma ChainsDoNotFork(ids: set<nat>, systems: seq<System>, steps: seq<Step>, n: nat, id: string, other: string)
    requires Interleaves(ids, systems, steps) && n < |systems|
    requires id in systems[n].store.runs && Started1(systems[n].store.runs[id].events).Some?
    requires Started1(systems[n].store.runs[id].events).value.continuedRunId != ""
    ensures
      var runs := systems[n].store.runs;
      var st := Started1(runs[id].events).value;
      var p := st.continuedRunId;
      && p in runs && Started1(runs[p].events).Some? && Started1(runs[p].events).value.firstRunId == st.firstRunId
      && (other in runs && Started1(runs[other].events).Some? && Started1(runs[other].events).value.continuedRunId == p
          ==> other == id)
  {
    hide Interleaves, Safe, Started1;
    InterleavingInv(ids, systems, steps, n);
    var store := systems[n].store;
    assert WellBegun(store, id);
    if other in store.runs {
      assert WellBegun(store, other);
    }
  }
}
