/** Warm and cold instances agree on every history the server writes by taking the batches they return. */
module Protocol {
  import opened Prelude
  import opened History
  import opened Execution
  import opened Durability
  import opened ExactlyOnce
  import opened Batches
  import opened Sdk
  import opened Determinism
  import opened Agreement

  /** Replaying never asks the outside world, so any answers will do. */
  const IDLE: World := (kind, key) => Answer(NoPayload, None)

  /** A cold replay of a whole history. */
  function Cold<P>(w: Workflow<P>, h: seq<Event>, fuel: nat): Result<Core<P>> {
    ReplayRange(w, Fresh<P>(), MarkersIn(h, |h|), h, 0, |h|, IDLE, fuel)
  }

  /** The environment has caught up with the history: nothing outstanding, every marker accounted for, and the same
      pending work as the server's fold. */
  ghost predicate InStep(e: Env, m: Markers, s: State) {
    && e.desk.outstanding == []
    && KeysAhead(e.book)
    && Exactly(m, e.book.log)
    && Sim(e.desk, s)
  }

  ghost predicate Synced<P(!new)>(w: Workflow<P>, runId: string, h: seq<Event>, fuel: nat) {
    && h != [] && WellFormed(h)
    && Replay(runId, h).Ok?
    && Cold(w, h, fuel).Ok?
    && InStep(Cold(w, h, fuel).value.env, MarkersIn(h, |h|), Replay(runId, h).value)
  }

  /** An instance that, fed the rest of the history, stands where a cold replay does. */
  ghost predicate Warm<P(!new)>(w: Workflow<P>, inst: Instance<P>, h: seq<Event>, fuel: nat) {
    && !inst.poisoned
    && inst.scanned <= |h| && inst.markers == MarkersIn(h, inst.scanned)
    && inst.next < |h|
    && KeysAhead(inst.core.env.book)
    && ReplayRange(w, inst.core, MarkersIn(h, |h|), h, inst.next, |h|, IDLE, fuel) == Cold(w, h, fuel)
  }

  lemma FreshKeys<P>()
    ensures KeysAhead(Fresh<P>().env.book)
  {
  }

  lemma {:induction false} ReplayOpen(runId: string, h: seq<Event>)
    requires Replay(runId, h).Ok? && forall i :: 0 <= i < |h| ==> !Terminal(TypeOf(h[i].attrs))
    ensures Open(Replay(runId, h).value)
    decreases |h|
  {
    if h != [] {
      var n := |h| - 1;
      ReplayOpen(runId, h[..n]);
    }
  }

  /** The fold before event `n` of a well-formed history: open, and it accepts the event. */
  lemma FoldAt(runId: string, h: seq<Event>, n: nat)
    requires WellFormed(h) && Replay(runId, h).Ok? && n < |h|
    ensures Replay(runId, h[..n]).Ok? && Open(Replay(runId, h[..n]).value) && Replay(runId, h[..n]).value.events == h[..n]
    ensures Replay(runId, h[..n + 1]) == Record(Replay(runId, h[..n]).value, h[n]) && Replay(runId, h[..n + 1]).Ok?
    ensures h[n].id == n + 1
  {
    hide Record, Terminal, TypeOf, WellFormed;
    ReplayBefore(runId, h, n);
    ReplayOpen(runId, h[..n]);
    var h1 := h[..n + 1];
    assert h1[..|h1| - 1] == h[..n] && h1[|h1| - 1] == h[n];
    IdsDense(h);
  }

  // ------------------------------------------------------------------
  // An event of the server's own
  // ------------------------------------------------------------------

  lemma ExternalEnv<P>(w: Workflow<P>, c: Core<P>, m: Markers, h: seq<Event>, s: State, fuel: nat)
    requires h != [] && InStep(c.env, m, s) && Open(s)
    requires External(h[|h| - 1].attrs) && Record(s, h[|h| - 1]).Ok?
    ensures
      var r := ReplayEvent(w, c, m, h, |h| - 1, IDLE, fuel);
      r.Ok? && InStep(r.value.env, m, Record(s, h[|h| - 1]).value)
  {
    hide Record, KeysAhead, Exactly, Sim, ApplyToDesk;
    var e := h[|h| - 1];
    ExternalSim(c.env.desk, s, e);
    if e.attrs.TaskStarted? || e.attrs.Signaled? {
      assert ApplyToDesk(c.env.desk, e) == Ok(c.env.desk) by { UntouchedDesk(c.env.desk, e); }
    }
  }

  lemma UntouchedDesk(d: Desk, e: Event)
    requires e.attrs.TaskStarted? || e.attrs.Signaled? || e.attrs.TaskCompleted? || e.attrs.ExecutionStarted?
    ensures ApplyToDesk(d, e) == Ok(d)
  {
  }

  lemma ExternalMarkers(h: seq<Event>, e: Event)
    requires !e.attrs.MarkerRecorded?
    ensures MarkersIn(h + [e], |h| + 1) == MarkersIn(h, |h|)
  {
    MarkersExtend(h, h + [e], |h|);
  }

  /** The range up to the end of `h` replays alike in `h` and in `h` with an event that completes no task. */
  lemma SameRange<P>(w: Workflow<P>, c: Core<P>, m: Markers, h: seq<Event>, e: Event, i: nat, fuel: nat)
    requires i <= |h| && !e.attrs.TaskCompleted?
    ensures ReplayRange(w, c, m, h + [e], i, |h|, IDLE, fuel) == ReplayRange(w, c, m, h, i, |h|, IDLE, fuel)
  {
    hide ReplayRange;
    assert h[..|h|] == (h + [e])[..|h|];
    RangeExtends(w, c, m, h, h + [e], i, |h|, IDLE, fuel);
  }

  lemma RangeGrows<P>(w: Workflow<P>, c: Core<P>, m: Markers, h: seq<Event>, e: Event, i: nat, fuel: nat)
    requires i <= |h| && !e.attrs.TaskCompleted?
    ensures
      ReplayRange(w, c, m, h + [e], i, |h| + 1, IDLE, fuel) ==
      match ReplayRange(w, c, m, h, i, |h|, IDLE, fuel)
      case Ok(c1) => ReplayEvent(w, c1, m, h + [e], |h|, IDLE, fuel)
      case Err(x) => Err(x)
  {
    hide ReplayEvent;
    SameRange(w, c, m, h, e, i, fuel);
  }

  lemma ExternalSynced<P(!new)>(w: Workflow<P>, runId: string, h: seq<Event>, e: Event, fuel: nat)
    requires Synced(w, runId, h, fuel) && External(e.attrs)
    requires WellFormed(h + [e]) && Replay(runId, h + [e]).Ok?
    ensures Synced(w, runId, h + [e], fuel)
  {
    hide InStep, ReplayEvent, ReplayRange, WellFormed, Record, Fresh, Replay;
    var h' := h + [e];
    FoldAt(runId, h', |h|);
    assert h'[..|h|] == h && h'[..|h| + 1] == h';
    ExternalMarkers(h, e);
    RangeGrows(w, Fresh<P>(), MarkersIn(h, |h|), h, e, 0, fuel);
    ExternalEnv(w, Cold(w, h, fuel).value, MarkersIn(h, |h|), h', Replay(runId, h).value, fuel);
  }

  lemma ExternalWarm<P(!new)>(w: Workflow<P>, inst: Instance<P>, h: seq<Event>, e: Event, fuel: nat)
    requires Warm(w, inst, h, fuel) && External(e.attrs)
    ensures Warm(w, inst, h + [e], fuel)
  {
    hide ReplayEvent, ReplayRange, KeysAhead, Fresh;
    ExternalMarkers(h, e);
    var m := MarkersIn(h, |h|);
    assert h[..inst.scanned] == (h + [e])[..inst.scanned];
    MarkersExtend(h, h + [e], inst.scanned);
    RangeGrows(w, inst.core, m, h, e, inst.next, fuel);
    RangeGrows(w, Fresh<P>(), m, h, e, 0, fuel);
  }

  // ------------------------------------------------------------------
  // A batch taken by the server
  // ------------------------------------------------------------------

  /** The history goes on with the completion of its last event's task and one event per command. */
  predicate Continues(h: seq<Event>, h': seq<Event>, cmds: seq<Command>, now: Time) {
    && |h'| == |h| + 1 + |cmds|
    && h'[..|h|] == h
    && h'[|h|].attrs.TaskCompleted?
    && RecordsAll(cmds, h', |h| + 1, |h| + 1, now)
  }

  lemma {:induction false} RecordedMarkers(h: seq<Event>, h': seq<Event>, cmds: seq<Command>, now: Time, k: nat)
    requires Continues(h, h', cmds, now) && k <= |cmds|
    ensures MarkersIn(h', |h| + 1 + k) == AddMarkers(MarkersIn(h, |h|), cmds[..k])
  {
    if k == 0 {
      MarkersExtend(h, h', |h|);
      assert cmds[..0] == [];
    } else {
      RecordedMarkers(h, h', cmds, now, k - 1);
      assert RecordsAt(cmds[k - 1], h'[|h| + 1 + (k - 1)], |h| + 1 + (k - 1), |h| + 1, now);
      assert cmds[..k] == cmds[..k - 1] + [cmds[k - 1]];
    }
  }

  /** Replaying the recorded batch pops the queue command by command, without a mismatch. */
  lemma {:induction false} BatchReplays<P>(w: Workflow<P>, runId: string, c: Core<P>, m: Markers, h: seq<Event>, h': seq<Event>,
                                           cmds: seq<Command>, now: Time, k: nat, fuel: nat)
    requires Continues(h, h', cmds, now) && k <= |cmds| && cmds == Batch(c.env.desk.outstanding)
    requires WellFormed(h') && Replay(runId, h').Ok? && Replay(runId, h).Ok? && Sim(c.env.desk, Replay(runId, h).value)
    ensures
      var r := ReplayRange(w, c, m, h', |h|, |h| + 1 + k, IDLE, fuel);
      && r.Ok? && Replay(runId, h'[..|h| + 1 + k]).Ok?
      && r.value.env.desk.outstanding == c.env.desk.outstanding[k..]
      && r.value.env.book == c.env.book
      && Sim(r.value.env.desk, Replay(runId, h'[..|h| + 1 + k]).value)
    decreases k
  {
    hide Sim, Replay, Record, WellFormed, ReplayEvent, RecordsAt;
    var n := |h| + k;
    FoldAt(runId, h', n);
    if k == 0 {
      assert h'[..|h|] == h;
      RangeOne(w, c, m, h', |h|, IDLE, fuel);
      CompletionReplays(w, c, m, h', |h|, Replay(runId, h).value, fuel);
    } else {
      BatchReplays(w, runId, c, m, h, h', cmds, now, k - 1, fuel);
      var c1 := ReplayRange(w, c, m, h', |h|, n, IDLE, fuel).value;
      assert RecordsAt(cmds[k - 1], h'[|h| + 1 + (k - 1)], |h| + 1 + (k - 1), |h| + 1, now);
      assert c1.env.desk.outstanding[0].cmd == cmds[k - 1];
      CommandReplays(w, c1, m, h', n, cmds[k - 1], |h| + 1, now, Replay(runId, h'[..n]).value, fuel);
      assert c1.env.desk.outstanding[1..] == c.env.desk.outstanding[k..];
    }
  }

  lemma CompletionReplays<P>(w: Workflow<P>, c: Core<P>, m: Markers, h: seq<Event>, n: nat, s: State, fuel: nat)
    requires n < |h| && h[n].attrs.TaskCompleted? && Record(s, h[n]).Ok? && Sim(c.env.desk, s)
    ensures ReplayEvent(w, c, m, h, n, IDLE, fuel) == Ok(c) && Sim(c.env.desk, Record(s, h[n]).value)
  {
    hide Sim, Record, PendingAfter, ApplyToDesk;
    RecordPending(s, h[n]);
    SameDeskSim(c.env.desk, s, Record(s, h[n]).value, h[n]);
    UntouchedDesk(c.env.desk, h[n]);
  }

  lemma CommandReplays<P>(w: Workflow<P>, c: Core<P>, m: Markers, h: seq<Event>, n: nat, cmd: Command, decision: int, now: Time,
                          s: State, fuel: nat)
    requires n < |h| && RecordsAt(cmd, h[n], n, decision, now) && Record(s, h[n]).Ok? && |s.events| == n
    requires Sim(c.env.desk, s) && c.env.desk.outstanding != [] && c.env.desk.outstanding[0].cmd == cmd
    ensures
      var r := ReplayEvent(w, c, m, h, n, IDLE, fuel);
      && r.Ok?
      && r.value.env.desk.outstanding == c.env.desk.outstanding[1..]
      && r.value.env.book == c.env.book
      && Sim(r.value.env.desk, Record(s, h[n]).value)
  {
    hide Sim, Record, ApplyToDesk, Matches, Records;
    RecordedMatches(cmd, h[n].attrs, decision);
    MatchedSim(c.env.desk, s, h[n]);
  }

  lemma SaneCode<P(!new)>(w: Workflow<P>)
    requires WellFormedCode(w)
    ensures Sane(w)
  {
    forall p | w.next(p).Ask? ensures SaneCall(w.next(p).call) {
      assert WellFormedCall(w.next(p).call);
    }
  }

  /** The live run behind a batch, replayed from the history that records the batch. */
  lemma LiveReplays<P(!new)>(w: Workflow<P>, h: seq<Event>, h': seq<Event>, cl: Core<P>, world: World, now: Time, fuel: nat)
    requires WellFormedCode(w) && StableWorld(world)
    requires h != [] && h[|h| - 1].attrs.TaskStarted? && Cold(w, h, fuel).Ok?
    requires KeysAhead(Cold(w, h, fuel).value.env.book)
    requires RunCode(w, Cold(w, h, fuel).value, MarkersIn(h, |h|), false, world, fuel) == Ok(cl)
    requires Continues(h, h', Batch(cl.env.desk.outstanding), now)
    requires Covers(MarkersIn(h', |h'|), cl.env.book.log)
    ensures ReplayRange(w, Fresh<P>(), MarkersIn(h', |h'|), h', 0, |h|, IDLE, fuel) == Ok(cl)
  {
    hide KeysAhead, Covers, LogGrows, RunCode, RecordsAll, WellFormedCode, Sane, ReplayRange, StableWorld, Fresh;
    SaneCode(w);
    FreshKeys<P>();
    var c := Cold(w, h, fuel).value;
    var m, m' := MarkersIn(h, |h|), MarkersIn(h', |h'|);
    RunGrows(w, c, m, false, world, fuel);
    CoversLess(m', c.env.book.log, cl.env.book.log);
    RangeReplays(w, Fresh<P>(), m, h, 0, |h|, IDLE, fuel, m', IDLE);
    RunReplays(w, c, m, false, world, fuel, m', IDLE);
    StartedRuns(w, Fresh<P>(), m', h, h', 0, c, fuel);
  }

  /** Once the task is seen to have completed, its started event runs the code instead of being skipped. */
  lemma StartedRuns<P>(w: Workflow<P>, from: Core<P>, m: Markers, h: seq<Event>, h': seq<Event>, i: nat, c: Core<P>, fuel: nat)
    requires i < |h| && h[|h| - 1].attrs.TaskStarted? && |h'| > |h| && h'[..|h|] == h && h'[|h|].attrs.TaskCompleted?
    requires ReplayRange(w, from, m, h, i, |h|, IDLE, fuel) == Ok(c)
    ensures ReplayRange(w, from, m, h', i, |h|, IDLE, fuel) == RunCode(w, c, m, true, IDLE, fuel)
  {
    hide RunCode, ApplyEvent;
    var n := |h| - 1;
    assert h'[n] == h'[..|h|][n] == h[n];
    assert h'[..n] == h'[..|h|][..n] == h[..n];
    assert h'[n].attrs.TaskStarted?;
    RangeExtends(w, from, m, h, h', i, n, IDLE, fuel);
  }

  /** What a live run of a caught-up environment leaves. */
  lemma LiveFinishes<P(!new)>(w: Workflow<P>, runId: string, h: seq<Event>, cl: Core<P>, world: World, fuel: nat)
    requires WellFormedCode(w) && Synced(w, runId, h, fuel) && h[|h| - 1].attrs.TaskStarted?
    requires RunCode(w, Cold(w, h, fuel).value, MarkersIn(h, |h|), false, world, fuel) == Ok(cl)
    ensures Finished(MarkersIn(h, |h|), cl.env, Replay(runId, h).value)
    ensures KeysAhead(cl.env.book)
  {
    hide RunCode, WellFormedCode, KeysAhead, Sim, Exactly, Finished, Takes, WellFormed, Cold, LogGrows;
    var c, m, s := Cold(w, h, fuel).value, MarkersIn(h, |h|), Replay(runId, h).value;
    assert Open(s) by { StartedOpen(runId, h); }
    QuietDeskTakes(c.env.desk, s);
    assert Accounted(m, c.env) by { assert Batch([]) == []; }
    RunFinishes(w, c, m, false, world, fuel, m, s);
    RunGrows(w, c, m, false, world, fuel);
  }

  lemma StartedNotTerminal(a: Attrs)
    requires a.TaskStarted?
    ensures !Terminal(TypeOf(a))
  {
  }

  lemma StartedOpen(runId: string, h: seq<Event>)
    requires WellFormed(h) && Replay(runId, h).Ok? && h != [] && h[|h| - 1].attrs.TaskStarted?
    ensures Open(Replay(runId, h).value)
  {
    hide RefsOk, Replay, TypeOf, Terminal;
    StartedNotTerminal(h[|h| - 1].attrs);
    forall i | 0 <= i < |h| ensures !Terminal(TypeOf(h[i].attrs)) {
      assert WellPlaced(h, i);
    }
    ReplayOpen(runId, h);
  }

  /** After the server has taken a batch, the history with the batch recorded replays cold to the very environment the
      live run left, with its queue consumed: no false report of non-determinism. */
  lemma BatchSynced<P(!new)>(w: Workflow<P>, runId: string, h: seq<Event>, h': seq<Event>, cl: Core<P>, world: World,
                             now: Time, fuel: nat)
    requires WellFormedCode(w) && StableWorld(world)
    requires Synced(w, runId, h, fuel) && h[|h| - 1].attrs.TaskStarted?
    requires RunCode(w, Cold(w, h, fuel).value, MarkersIn(h, |h|), false, world, fuel) == Ok(cl)
    requires Continues(h, h', Batch(cl.env.desk.outstanding), now) && WellFormed(h') && Replay(runId, h').Ok?
    ensures Synced(w, runId, h', fuel)
    ensures ReplayRange(w, Fresh<P>(), MarkersIn(h', |h'|), h', 0, |h|, IDLE, fuel) == Ok(cl)
  {
    hide RunCode, WellFormedCode, StableWorld, KeysAhead, Covers, Sim, Exactly, WellFormed, ReplayRange, Record, Continues,
         Fresh, Replay;
    var cmds := Batch(cl.env.desk.outstanding);
    LiveFinishes(w, runId, h, cl, world, fuel);
    ContinuesLength(h, h', cmds, now);
    RecordedMarkers(h, h', cmds, now, |cmds|);
    assert cmds[..|cmds|] == cmds;
    var m' := MarkersIn(h', |h'|);
    ExactlyCovers(m', cl.env.book.log);
    LiveReplays(w, h, h', cl, world, now, fuel);
    BatchReplays(w, runId, cl, m', h, h', cmds, now, |cmds|, fuel);
    assert h'[..|h'|] == h';
    assert cl.env.desk.outstanding[|cmds|..] == [];
    RangeSplits(w, Fresh<P>(), m', h', 0, |h|, |h'|, IDLE, fuel);
  }

  lemma ContinuesLength(h: seq<Event>, h': seq<Event>, cmds: seq<Command>, now: Time)
    requires Continues(h, h', cmds, now)
    ensures |h'| == |h| + 1 + |cmds| && h'[..|h|] == h && h' != []
  {
  }

  // ------------------------------------------------------------------
  // Warm instances
  // ------------------------------------------------------------------

  /** An instance that was warm before the batch is warm after it. */
  lemma BatchWarm<P(!new)>(w: Workflow<P>, inst: Instance<P>, runId: string, h: seq<Event>, h': seq<Event>, cl: Core<P>,
                           world: World, now: Time, fuel: nat)
    requires WellFormedCode(w) && StableWorld(world)
    requires Synced(w, runId, h, fuel) && h[|h| - 1].attrs.TaskStarted? && Warm(w, inst, h, fuel)
    requires RunCode(w, Cold(w, h, fuel).value, MarkersIn(h, |h|), false, world, fuel) == Ok(cl)
    requires Continues(h, h', Batch(cl.env.desk.outstanding), now) && WellFormed(h') && Replay(runId, h').Ok?
    ensures Warm(w, inst, h', fuel)
  {
    hide RunCode, WellFormedCode, StableWorld, KeysAhead, Covers, LogGrows, Sim, Exactly, WellFormed, ReplayRange, Record, RecordsAll,
         Fresh, Replay, Sane;
    var m, m' := MarkersIn(h, |h|), MarkersIn(h', |h'|);
    var c := Cold(w, h, fuel).value;
    BatchSynced(w, runId, h, h', cl, world, now, fuel);
    BatchCovered(w, runId, h, h', cl, world, now, fuel);
    SaneCode(w);
    RangeReplays(w, inst.core, m, h, inst.next, |h|, IDLE, fuel, m', IDLE);
    StartedRuns(w, inst.core, m', h, h', inst.next, c, fuel);
    RangeSplits(w, inst.core, m', h', inst.next, |h|, |h'|, IDLE, fuel);
    RangeSplits(w, Fresh<P>(), m', h', 0, |h|, |h'|, IDLE, fuel);
    assert h'[..inst.scanned] == h'[..|h|][..inst.scanned] == h[..inst.scanned];
    MarkersExtend(h, h', inst.scanned);
  }

  /** The new history's markers cover both the caught-up environment and the live run, which replays from them. */
  lemma BatchCovered<P(!new)>(w: Workflow<P>, runId: string, h: seq<Event>, h': seq<Event>, cl: Core<P>,
                              world: World, now: Time, fuel: nat)
    requires WellFormedCode(w) && StableWorld(world)
    requires Synced(w, runId, h, fuel) && h[|h| - 1].attrs.TaskStarted?
    requires RunCode(w, Cold(w, h, fuel).value, MarkersIn(h, |h|), false, world, fuel) == Ok(cl)
    requires Continues(h, h', Batch(cl.env.desk.outstanding), now)
    ensures
      var m' := MarkersIn(h', |h'|);
      && Covers(m', Cold(w, h, fuel).value.env.book.log)
      && RunCode(w, Cold(w, h, fuel).value, m', true, IDLE, fuel) == Ok(cl)
      && KeysAhead(cl.env.book)
  {
    hide RunCode, WellFormedCode, StableWorld, KeysAhead, Covers, LogGrows, Sim, Exactly, WellFormed, Cold, Record, Continues, Replay, Sane;
    var cmds := Batch(cl.env.desk.outstanding);
    var c, m' := Cold(w, h, fuel).value, MarkersIn(h', |h'|);
    LiveFinishes(w, runId, h, cl, world, fuel);
    ContinuesLength(h, h', cmds, now);
    RecordedMarkers(h, h', cmds, now, |cmds|);
    assert cmds[..|cmds|] == cmds;
    ExactlyCovers(m', cl.env.book.log);
    SaneCode(w);
    RunGrows(w, c, MarkersIn(h, |h|), false, world, fuel);
    CoversLess(m', c.env.book.log, cl.env.book.log);
    RunReplays(w, c, MarkersIn(h, |h|), false, world, fuel, m', IDLE);
  }

  /** The instance a live task leaves. */
  function After<P>(cl: Core<P>, h: seq<Event>): Instance<P>
    requires h != []
  {
    Instance(cl, MarkersIn(h, |h|), |h|, |h|, h[|h| - 1].id, false)
  }

  /** The instance whose batch was taken is warm. */
  lemma AnswererWarm<P(!new)>(w: Workflow<P>, runId: string, h: seq<Event>, h': seq<Event>, cl: Core<P>,
                              world: World, now: Time, fuel: nat)
    requires WellFormedCode(w) && StableWorld(world)
    requires Synced(w, runId, h, fuel) && h[|h| - 1].attrs.TaskStarted?
    requires RunCode(w, Cold(w, h, fuel).value, MarkersIn(h, |h|), false, world, fuel) == Ok(cl)
    requires Continues(h, h', Batch(cl.env.desk.outstanding), now) && WellFormed(h') && Replay(runId, h').Ok?
    ensures Warm(w, After(cl, h), h', fuel)
  {
    hide RunCode, WellFormedCode, StableWorld, KeysAhead, Covers, LogGrows, Sim, Exactly, WellFormed, ReplayRange, Record, RecordsAll,
         Fresh, Replay, Sane;
    BatchSynced(w, runId, h, h', cl, world, now, fuel);
    BatchCovered(w, runId, h, h', cl, world, now, fuel);
    RangeSplits(w, Fresh<P>(), MarkersIn(h', |h'|), h', 0, |h|, |h'|, IDLE, fuel);
    MarkersExtend(h, h', |h|);
  }

  lemma NewWarm<P(!new)>(w: Workflow<P>, h: seq<Event>, fuel: nat)
    requires h != []
    ensures Warm(w, NewInstance<P>(), h, fuel)
  {
    hide ReplayRange;
    FreshKeys<P>();
    assert MarkersIn(h, 0) == map[];
  }

  /** Before the live event, with any answers from the world. */
  lemma BeforeLive<P(!new)>(w: Workflow<P>, inst: Instance<P>, h: seq<Event>, world: World, fuel: nat)
    requires Sane(w) && h != [] && h[|h| - 1].attrs.TaskStarted? && Warm(w, inst, h, fuel) && Cold(w, h, fuel).Ok?
    requires Covers(MarkersIn(h, |h|), Cold(w, h, fuel).value.env.book.log)
    ensures
      var m := MarkersIn(h, |h|);
      var r := ReplayRange(w, inst.core, m, h, inst.next, |h| - 1, world, fuel);
      r.Ok? && r.value.(env := Advance(r.value.env, h[|h| - 1].time)) == Cold(w, h, fuel).value
  {
    hide Sane, KeysAhead, Covers, LogGrows, RunCode, ApplyEvent, Cold;
    var m := MarkersIn(h, |h|);
    var r := ReplayRange(w, inst.core, m, h, inst.next, |h| - 1, IDLE, fuel);
    RangeReplays(w, inst.core, m, h, inst.next, |h| - 1, IDLE, fuel, m, world);
  }

  /** A live task, warm or cold, runs the code from the caught-up environment. */
  lemma LiveTask<P(!new)>(w: Workflow<P>, inst: Instance<P>, runId: string, h: seq<Event>, world: World, fuel: nat)
    requires WellFormedCode(w) && Synced(w, runId, h, fuel) && h[|h| - 1].attrs.TaskStarted? && Warm(w, inst, h, fuel)
    ensures
      var a := ProcessTask(w, inst, h, |h|, false, world, fuel);
      var r := RunCode(w, Cold(w, h, fuel).value, MarkersIn(h, |h|), false, world, fuel);
      && (r.Ok? ==> a == Processed(After(r.value, h), Ok(Batch(r.value.env.desk.outstanding))))
      && (r.Err? ==> a.result == Err(r.error) && a.instance.poisoned)
  {
    hide WellFormedCode, Sane, KeysAhead, Covers, Sim, Exactly, WellFormed, ReplayRange, RunCode, Feed, Replay, Cold;
    var m := MarkersIn(h, |h|);
    SaneCode(w);
    ExactlyCovers(m, Cold(w, h, fuel).value.env.book.log);
    BeforeLive(w, inst, h, world, fuel);
    assert forall j :: 0 <= j < |h| ==> h[j].id == j + 1 by { IdsDense(h); }
    assert h[..inst.scanned] == h[..inst.scanned];
    PreloadCompletes(h, inst.scanned);
    FeedReaches(w, inst.core, m, h, inst.next, |h| - 1, false, world, fuel);
  }

  lemma IdsDense(h: seq<Event>)
    requires WellFormed(h)
    ensures forall j :: 0 <= j < |h| ==> h[j].id == j + 1
  {
    hide RefsOk;
    forall j | 0 <= j < |h| ensures h[j].id == j + 1 {
      assert WellPlaced(h, j);
    }
  }

  /** A warm instance and a cold one given the same workflow task leave the same instance and return the same batch. */
  lemma WarmMatchesCold<P(!new)>(w: Workflow<P>, inst: Instance<P>, runId: string, h: seq<Event>, world: World, fuel: nat)
    requires WellFormedCode(w) && Synced(w, runId, h, fuel) && h[|h| - 1].attrs.TaskStarted? && Warm(w, inst, h, fuel)
    ensures
      var warm := ProcessTask(w, inst, h, |h|, false, world, fuel);
      var cold := ProcessTask(w, NewInstance<P>(), h, |h|, false, world, fuel);
      warm.result == cold.result && (warm.result.Ok? ==> warm.instance == cold.instance)
  {
    hide WellFormedCode, Synced, Warm, ProcessTask, RunCode, Cold;
    assert h != [] by { SyncedNotEmpty(w, runId, h, fuel); }
    NewWarm(w, h, fuel);
    LiveTask(w, inst, runId, h, world, fuel);
    LiveTask(w, NewInstance<P>(), runId, h, world, fuel);
  }

  lemma SyncedNotEmpty<P(!new)>(w: Workflow<P>, runId: string, h: seq<Event>, fuel: nat)
    requires Synced(w, runId, h, fuel)
    ensures h != [] && Cold(w, h, fuel).Ok?
  {
  }
}
