/** Where the code is weaker than its comments: a cold replay looks only at the event right after a started event, while the
    server lets events land between a task's start and its answer. */
module Overtaken {
  import opened Prelude
  import opened History
  import opened Execution
  import opened Durability
  import opened ExactlyOnce
  import opened Engine
  import opened Rebuilding
  import opened Runs
  import opened Batches
  import opened Sdk
  import opened Determinism
  import opened Agreement
  import opened Protocol
  import opened Appends
  import opened Effects
  import opened Cooperation

  /** What can land between a task's start and its answer. */
  predicate Lands(a: Attrs) { External(a) && !TaskEvent(a) }

  /** The history went on by events that land while a task is in flight. */
  predicate Landed(h: seq<Event>, h': seq<Event>) {
    h <= h' && forall i :: |h| <= i < |h'| ==> Lands(h'[i].attrs)
  }

  /** The history went on by events of the server's own. */
  predicate WentOn(h: seq<Event>, h': seq<Event>) {
    h <= h' && forall i :: |h| <= i < |h'| ==> External(h'[i].attrs)
  }

  lemma LandedWentOn(h: seq<Event>, h': seq<Event>)
    requires Landed(h, h')
    ensures WentOn(h, h') && (|h| < |h'| ==> !h'[|h'| - 1].attrs.TaskStarted?)
  {
  }

  // ------------------------------------------------------------------
  // The server's own events move no code
  // ------------------------------------------------------------------

  lemma LastKeepsCode<P>(w: Workflow<P>, c: Core<P>, m: Markers, h: seq<Event>, fuel: nat)
    requires h != [] && External(h[|h| - 1].attrs)
    ensures
      var r := ReplayEvent(w, c, m, h, |h| - 1, IDLE, fuel);
      r.Ok? ==> r.value.code == c.code && r.value.env.book == c.env.book
  {
    hide ApplyToDesk;
  }

  /** Replaying what the server wrote of its own succeeds and leaves code and markers where they were. */
  lemma {:induction false} WentOnRange<P(!new)>(w: Workflow<P>, runId: string, c: Core<P>, h: seq<Event>, h': seq<Event>, fuel: nat)
    requires WentOn(h, h') && WellFormed(h') && Replay(runId, h').Ok? && Replay(runId, h).Ok?
    requires InStep(c.env, MarkersIn(h, |h|), Replay(runId, h).value)
    ensures MarkersIn(h', |h'|) == MarkersIn(h, |h|)
    ensures
      var r := ReplayRange(w, c, MarkersIn(h, |h|), h', |h|, |h'|, IDLE, fuel);
      && r.Ok? && r.value.code == c.code && r.value.env.book == c.env.book
      && InStep(r.value.env, MarkersIn(h, |h|), Replay(runId, h').value)
    decreases |h'|
  {
    hide InStep, ReplayEvent, ReplayRange, WellFormed, Record, Replay, External;
    var m := MarkersIn(h, |h|);
    if |h'| == |h| {
      assert h' == h;
      EmptyRange(w, c, m, h', |h|, fuel);
    } else {
      var n := |h'| - 1;
      var g, e := h'[..n], h'[n];
      assert h' == g + [e] && h <= g;
      FoldAt(runId, h', n);
      WellFormedPrefix(h', n);
      assert h'[..n + 1] == h';
      WentOnRange(w, runId, c, h, g, fuel);
      var c1 := ReplayRange(w, c, m, g, |h|, n, IDLE, fuel).value;
      ExternalShape(e.attrs);
      ExternalMarkers(g, e);
      RangeGrows(w, c, m, g, e, |h|, fuel);
      ExternalEnv(w, c1, m, h', Replay(runId, g).value, fuel);
      LastKeepsCode(w, c1, m, h', fuel);
    }
  }

  lemma EmptyRange<P>(w: Workflow<P>, c: Core<P>, m: Markers, h: seq<Event>, i: nat, fuel: nat)
    requires i <= |h|
    ensures ReplayRange(w, c, m, h, i, i, IDLE, fuel) == Ok(c)
  {
  }

  lemma ExternalShape(a: Attrs)
    requires External(a)
    ensures !a.MarkerRecorded? && !a.TaskCompleted?
  {
  }

  /** A cold replay of the longer history goes through where the cold replay of the shorter one ended. */
  lemma ColdThrough<P(!new)>(w: Workflow<P>, h: seq<Event>, h': seq<Event>, fuel: nat)
    requires h != [] && h <= h' && MarkersIn(h', |h'|) == MarkersIn(h, |h|) && Cold(w, h, fuel).Ok?
    requires |h'| > |h| ==> !h'[|h|].attrs.TaskCompleted?
    ensures Cold(w, h', fuel) == ReplayRange(w, Cold(w, h, fuel).value, MarkersIn(h, |h|), h', |h|, |h'|, IDLE, fuel)
  {
    hide ReplayRange, Fresh;
    var m := MarkersIn(h, |h|);
    RangeExtends(w, Fresh<P>(), m, h, h', 0, |h|, IDLE, fuel);
    RangeSplits(w, Fresh<P>(), m, h', 0, |h|, |h'|, IDLE, fuel);
  }

  /** A cold replay stands where the code stood, whatever the server has written of its own since. */
  lemma ColdStandsStill<P(!new)>(w: Workflow<P>, runId: string, h: seq<Event>, h': seq<Event>, fuel: nat)
    requires Synced(w, runId, h, fuel) && WentOn(h, h') && WellFormed(h') && Replay(runId, h').Ok?
    ensures Synced(w, runId, h', fuel) && MarkersIn(h', |h'|) == MarkersIn(h, |h|)
    ensures Cold(w, h', fuel).value.code == Cold(w, h, fuel).value.code
    ensures Cold(w, h', fuel).value.env.book == Cold(w, h, fuel).value.env.book
  {
    hide InStep, ReplayRange, WellFormed, Replay, Fresh, External, Cold;
    WentOnRange(w, runId, Cold(w, h, fuel).value, h, h', fuel);
    if |h'| > |h| { ExternalShape(h'[|h|].attrs); }
    ColdThrough(w, h, h', fuel);
  }

  // ------------------------------------------------------------------
  // The batch of an overtaken task
  // ------------------------------------------------------------------

  /** `k` is a history in which a task was started at the end of `h`, other events landed, and then the batch of the task's
      live run `cl` was recorded as `h''`; what came later is the server's own. */
  ghost predicate Overtakes<P(!new)>(w: Workflow<P>, runId: string, h: seq<Event>, h': seq<Event>, h'': seq<Event>, k: seq<Event>,
                                     cl: Core<P>, world: World, now: Time, fuel: nat)
  {
    && Synced(w, runId, h, fuel) && h[|h| - 1].attrs.TaskStarted?
    && RunCode(w, Cold(w, h, fuel).value, MarkersIn(h, |h|), false, world, fuel) == Ok(cl)
    && Landed(h, h') && |h| < |h'|
    && Continues(h', h'', Batch(cl.env.desk.outstanding), now)
    && WentOn(h'', k) && WellFormed(k) && Replay(runId, k).Ok?
  }

  /** The markers of the whole history account for the live run, and so for everything before it. */
  lemma OvertakenMarkers<P(!new)>(w: Workflow<P>, runId: string, h: seq<Event>, h': seq<Event>, h'': seq<Event>, k: seq<Event>,
                                  cl: Core<P>, world: World, now: Time, fuel: nat)
    requires WellFormedCode(w) && Overtakes(w, runId, h, h', h'', k, cl, world, now, fuel)
    ensures h' <= k && WellFormed(h') && Replay(runId, h').Ok? && Synced(w, runId, h', fuel)
    ensures MarkersIn(k, |k|) == MarkersIn(h'', |h''|)
    ensures Covers(MarkersIn(k, |k|), Cold(w, h', fuel).value.env.book.log)
    ensures Cold(w, h', fuel).value.code == Cold(w, h, fuel).value.code
  {
    hide Synced, RunCode, WellFormed, Replay, WellFormedCode, KeysAhead, Covers, LogGrows, Sim, Exactly, Cold, Lands, External, RecordsAll;
    var cmds := Batch(cl.env.desk.outstanding);
    ContinuesLength(h', h'', cmds, now);
    assert h'' <= k && k[..|h'|] == h';
    WellFormedPrefix(k, |h'|);
    ReplayPrefix(runId, k, |h'|);
    LandedWentOn(h, h');
    ColdStandsStill(w, runId, h, h', fuel);
    LiveFinishes(w, runId, h, cl, world, fuel);
    RecordedMarkers(h', h'', cmds, now, |cmds|);
    assert cmds[..|cmds|] == cmds;
    WentOnMarkers(h'', k);
    ExactlyCovers(MarkersIn(k, |k|), cl.env.book.log);
    SyncedKeys(w, runId, h, fuel);
    RunGrows(w, Cold(w, h, fuel).value, MarkersIn(h, |h|), false, world, fuel);
    CoversLess(MarkersIn(k, |k|), Cold(w, h, fuel).value.env.book.log, cl.env.book.log);
  }

  lemma SyncedKeys<P(!new)>(w: Workflow<P>, runId: string, h: seq<Event>, fuel: nat)
    requires Synced(w, runId, h, fuel)
    ensures Cold(w, h, fuel).Ok? && KeysAhead(Cold(w, h, fuel).value.env.book) && Cold(w, h, fuel).value.env.desk.outstanding == []
    ensures Replay(runId, h).Ok?
  {
    hide KeysAhead, Cold, Replay;
  }

  lemma {:induction false} WentOnMarkers(h: seq<Event>, k: seq<Event>)
    requires WentOn(h, k)
    ensures MarkersIn(k, |k|) == MarkersIn(h, |h|)
    decreases |k|
  {
    hide External;
    if |k| == |h| {
      assert k == h;
    } else {
      var n := |k| - 1;
      assert k == k[..n] + [k[n]] && h <= k[..n];
      WentOnMarkers(h, k[..n]);
      ExternalShape(k[n].attrs);
      ExternalMarkers(k[..n], k[n]);
    }
  }

  /** A recorded command with nothing outstanding to match it is refused, whoever asks. */
  lemma RefusedAtOnce<P>(w: Workflow<P>, c: Core<P>, m: Markers, h': seq<Event>, h'': seq<Event>, k: seq<Event>, cmds: seq<Command>,
                         now: Time, world: World, fuel: nat)
    requires Continues(h', h'', cmds, now) && h'' <= k && cmds != [] && c.env.desk.outstanding == []
    ensures |h'| + 2 <= |k|
    ensures ReplayRange(w, c, m, k, |h'|, |h'| + 1, world, fuel) == Ok(c)
    ensures ReplayEvent(w, c, m, k, |h'| + 1, world, fuel).Err?
  {
    hide Records, ReplayEvent, ReplayRange;
    var n := |h'|;
    assert k[n] == h''[n];
    CompletionIgnored(w, c, m, k, n, world, fuel);
    RangeOne(w, c, m, k, n, world, fuel);
    assert RecordsAt(cmds[0], h''[n + 1 + 0], n + 1 + 0, n + 1, now);
    assert k[n + 1] == h''[n + 1];
    NothingToMatch(w, c, m, k, n + 1, cmds[0], n + 1, world, fuel);
  }

  lemma CompletionIgnored<P>(w: Workflow<P>, c: Core<P>, m: Markers, h: seq<Event>, n: nat, world: World, fuel: nat)
    requires n < |h| && h[n].attrs.TaskCompleted?
    ensures ReplayEvent(w, c, m, h, n, world, fuel) == Ok(c)
  {
    hide ApplyToDesk;
    UntouchedDesk(c.env.desk, h[n]);
  }

  lemma NothingToMatch<P>(w: Workflow<P>, c: Core<P>, m: Markers, h: seq<Event>, n: nat, cmd: Command, decision: int, world: World, fuel: nat)
    requires n < |h| && Records(cmd, h[n].attrs, decision) && c.env.desk.outstanding == []
    ensures ReplayEvent(w, c, m, h, n, world, fuel).Err?
  {
    RecordedMatches(cmd, h[n].attrs, decision);
  }

  /** With a non-empty batch, every replay from the beginning stops at the batch's first event, whatever the world says. */
  lemma OvertakenStops<P(!new)>(w: Workflow<P>, runId: string, h: seq<Event>, h': seq<Event>, h'': seq<Event>, k: seq<Event>,
                                cl: Core<P>, world: World, now: Time, world': World, fuel: nat)
    requires WellFormedCode(w) && Overtakes(w, runId, h, h', h'', k, cl, world, now, fuel) && cl.env.desk.outstanding != []
    ensures |h'| + 2 <= |k| && ReplayRange(w, Fresh<P>(), MarkersIn(k, |k|), k, 0, |h'| + 2, world', fuel).Err?
  {
    hide Synced, RunCode, WellFormed, Replay, WellFormedCode, Sane, KeysAhead, Covers, LogGrows, ReplayRange, ReplayEvent, Fresh, Lands,
         External, RecordsAll;
    OvertakenMarkers(w, runId, h, h', h'', k, cl, world, now, fuel);
    SyncedKeys(w, runId, h', fuel);
    SaneCode(w);
    FreshKeys<P>();
    var m, m', n := MarkersIn(h', |h'|), MarkersIn(k, |k|), |h'|;
    var c := Cold(w, h', fuel).value;
    RangeReplays(w, Fresh<P>(), m, h', 0, n, IDLE, fuel, m', world');
    LandedWentOn(h, h');
    assert k[..n] == h';
    SkippedRange(w, Fresh<P>(), m', h', k, 0, world', fuel);
    var cmds := Batch(cl.env.desk.outstanding);
    RefusedAtOnce(w, c, m', h', h'', k, cmds, now, world', fuel);
    RangeSplits(w, Fresh<P>(), m', k, 0, n, n + 1, world', fuel);
    OneMore(w, Fresh<P>(), m', k, 0, n + 1, world', fuel);
  }

  lemma OneMore<P>(w: Workflow<P>, c: Core<P>, m: Markers, h: seq<Event>, i: nat, n: nat, world: World, fuel: nat)
    requires i <= n < |h| && ReplayRange(w, c, m, h, i, n, world, fuel).Ok?
    ensures ReplayRange(w, c, m, h, i, n + 1, world, fuel) ==
            ReplayEvent(w, ReplayRange(w, c, m, h, i, n, world, fuel).value, m, h, n, world, fuel)
  {
    hide ReplayEvent;
  }

  /** The last event of `h` starts no task, so what follows it makes no difference to the replay of `h`. */
  lemma SkippedRange<P>(w: Workflow<P>, c: Core<P>, m: Markers, h: seq<Event>, k: seq<Event>, i: nat, world: World, fuel: nat)
    requires i < |h| && !h[|h| - 1].attrs.TaskStarted? && h <= k
    ensures ReplayRange(w, c, m, k, i, |h|, world, fuel) == ReplayRange(w, c, m, h, i, |h|, world, fuel)
  {
    hide RunCode, ApplyEvent;
    var n := |h| - 1;
    assert k[n] == h[n] && k[..n] == h[..n];
    RangeExtends(w, c, m, h, k, i, n, world, fuel);
  }

  // ----- an empty batch -----

  lemma CompletionSynced<P(!new)>(w: Workflow<P>, runId: string, h: seq<Event>, h': seq<Event>, fuel: nat)
    requires Synced(w, runId, h, fuel) && !h[|h| - 1].attrs.TaskStarted?
    requires Continues(h, h', [], 0) && WellFormed(h') && Replay(runId, h').Ok?
    ensures Synced(w, runId, h', fuel) && MarkersIn(h', |h'|) == MarkersIn(h, |h|) && Cold(w, h', fuel) == Cold(w, h, fuel)
  {
    hide KeysAhead, Exactly, Sim, WellFormed, ReplayEvent, ReplayRange, Replay, Fresh, Record;
    var n, m := |h|, MarkersIn(h, |h|);
    assert h' == h + [h'[n]];
    assert h'[..n] == h && h'[..n + 1] == h';
    ExternalMarkers(h, h'[n]);
    FoldAt(runId, h', n);
    var c := Cold(w, h, fuel).value;
    CompletionReplays(w, c, m, h', n, Replay(runId, h).value, fuel);
    SkippedRange(w, Fresh<P>(), m, h, h', 0, IDLE, fuel);
    OneMore(w, Fresh<P>(), m, h', 0, n, IDLE, fuel);
  }

  /** The batch was empty: nothing is outstanding after the live run either. */
  lemma LiveInStep<P(!new)>(w: Workflow<P>, runId: string, h: seq<Event>, cl: Core<P>, world: World, fuel: nat)
    requires WellFormedCode(w) && Synced(w, runId, h, fuel) && h[|h| - 1].attrs.TaskStarted?
    requires RunCode(w, Cold(w, h, fuel).value, MarkersIn(h, |h|), false, world, fuel) == Ok(cl)
    requires cl.env.desk.outstanding == []
    ensures InStep(cl.env, MarkersIn(h, |h|), Replay(runId, h).value)
  {
    hide RunCode, WellFormedCode, KeysAhead, Sim, Exactly, ValidBatch, Precheck, CancelsOnce, WellFormed, Cold, Replay;
    LiveFinishes(w, runId, h, cl, world, fuel);
    assert Batch([]) == [];
  }

  // ------------------------------------------------------------------
  // The theorems
  // ------------------------------------------------------------------

  /** When other events landed between a task's start and its answer, the recorded answer is skipped by every cold replay,
      which then reports non-determinism exactly when the batch was not empty. */
  lemma BufferedEventBreaksReplay<P(!new)>(w: Workflow<P>, runId: string, h: seq<Event>, h': seq<Event>, h'': seq<Event>, k: seq<Event>,
                                           cl: Core<P>, world: World, now: Time, fuel: nat)
    requires WellFormedCode(w) && Overtakes(w, runId, h, h', h'', k, cl, world, now, fuel)
    ensures Cold(w, k, fuel).Ok? <==> cl.env.desk.outstanding == []
  {
    hide Synced, RunCode, WellFormed, Replay, WellFormedCode, ReplayRange, Fresh, Landed, WentOn, Continues;
    if cl.env.desk.outstanding == [] {
      EmptyAnswerIsForgotten(w, runId, h, h', h'', k, cl, world, now, fuel);
      SyncedKeys(w, runId, k, fuel);
    } else {
      OvertakenStops(w, runId, h, h', h'', k, cl, world, now, IDLE, fuel);
      RangeSplits(w, Fresh<P>(), MarkersIn(k, |k|), k, 0, |h'| + 2, |k|, IDLE, fuel);
    }
  }

  /** With an empty batch the cold replay goes on, but the run of the code is forgotten: it stands where the code stood
      before the task, while the instance that answered stands after it. */
  lemma EmptyAnswerIsForgotten<P(!new)>(w: Workflow<P>, runId: string, h: seq<Event>, h': seq<Event>, h'': seq<Event>, k: seq<Event>,
                                        cl: Core<P>, world: World, now: Time, fuel: nat)
    requires WellFormedCode(w) && Overtakes(w, runId, h, h', h'', k, cl, world, now, fuel) && cl.env.desk.outstanding == []
    ensures Synced(w, runId, k, fuel) && Cold(w, k, fuel).value.code == Cold(w, h, fuel).value.code
    ensures
      var warm := ReplayRange(w, cl, MarkersIn(k, |k|), k, |h|, |k|, IDLE, fuel);
      warm.Ok? && warm.value.code == cl.code
  {
    hide Synced, RunCode, WellFormed, Replay, WellFormedCode, ReplayRange, ReplayEvent, Fresh, Lands, External, InStep, Cold, RecordsAll;
    assert Batch([]) == [];
    OvertakenMarkers(w, runId, h, h', h'', k, cl, world, now, fuel);
    ContinuesLength(h', h'', [], now);
    assert k[..|h''|] == h'';
    WellFormedPrefix(k, |h''|);
    ReplayPrefix(runId, k, |h''|);
    LandedWentOn(h, h');
    ColdStandsStill(w, runId, h, h', fuel);
    assert Continues(h', h'', [], 0) by { EmptyBatchAnyTime(h', h'', now); }
    CompletionSynced(w, runId, h', h'', fuel);
    ColdStandsStill(w, runId, h'', k, fuel);
    LiveInStep(w, runId, h, cl, world, fuel);
    SyncedKeys(w, runId, h, fuel);
    WarmStandsOn(w, runId, cl, h, h', h'', k, fuel);
  }

  lemma EmptyBatchAnyTime(h: seq<Event>, h': seq<Event>, now: Time)
    requires Continues(h, h', [], now)
    ensures Continues(h, h', [], 0)
  {
  }

  lemma WarmStandsOn<P(!new)>(w: Workflow<P>, runId: string, c: Core<P>, h: seq<Event>, h': seq<Event>, h'': seq<Event>, k: seq<Event>, fuel: nat)
    requires WentOn(h, h') && |h| < |h'| && !h'[|h'| - 1].attrs.TaskStarted?
    requires Continues(h', h'', [], 0) && WentOn(h'', k) && WellFormed(k) && Replay(runId, k).Ok?
    requires Replay(runId, h).Ok? && InStep(c.env, MarkersIn(h, |h|), Replay(runId, h).value)
    ensures
      var warm := ReplayRange(w, c, MarkersIn(k, |k|), k, |h|, |k|, IDLE, fuel);
      warm.Ok? && warm.value.code == c.code
  {
    hide WellFormed, Replay, ReplayRange, ReplayEvent, External, InStep, Record;
    var m, n := MarkersIn(h, |h|), |h'|;
    assert h' == k[..n] && h'' == k[..n + 1];
    WellFormedPrefix(k, n);
    ReplayPrefix(runId, k, n);
    WellFormedPrefix(k, n + 1);
    ReplayPrefix(runId, k, n + 1);
    WentOnRange(w, runId, c, h, h', fuel);
    var c1 := ReplayRange(w, c, m, h', |h|, n, IDLE, fuel).value;
    assert k[n] == h''[n];
    FoldAt(runId, k, n);
    assert InStep(c1.env, m, Replay(runId, h'').value) by { CompletionInStep(w, c1, m, h'', Replay(runId, h').value, fuel); }
    assert h'' == h' + [h''[n]];
    ExternalMarkers(h', h''[n]);
    WentOnRange(w, runId, c1, h'', k, fuel);
    SkippedRange(w, c, m, h', k, |h|, IDLE, fuel);
    CompletionIgnored(w, c1, m, k, n, IDLE, fuel);
    OneMore(w, c, m, k, |h|, n, IDLE, fuel);
    RangeSplits(w, c, m, k, |h|, n + 1, |k|, IDLE, fuel);
  }

  lemma CompletionInStep<P>(w: Workflow<P>, c: Core<P>, m: Markers, h: seq<Event>, s: State, fuel: nat)
    requires h != [] && h[|h| - 1].attrs.TaskCompleted? && Record(s, h[|h| - 1]).Ok? && InStep(c.env, m, s)
    ensures InStep(c.env, m, Record(s, h[|h| - 1]).value)
  {
    hide Sim, Record, KeysAhead, Exactly;
    CompletionReplays(w, c, m, h, |h| - 1, s, fuel);
  }

  // ----- the next task -----

  lemma {:induction false} FeedFails<P>(w: Workflow<P>, c: Core<P>, m: Markers, h: seq<Event>, i: nat, n: nat, started: int,
                                        world: World, fuel: nat)
    requires i <= n <= |h| && ReplayRange(w, c, m, h, i, n, world, fuel).Err?
    requires forall j :: i <= j < n ==> h[j].id != started
    ensures Feed(w, c, m, h, i, started, false, world, fuel).Err?
    decreases n - i
  {
    hide ReplayEvent, RunCode;
    if i < n {
      RangeSplits(w, c, m, h, i, i + 1, n, world, fuel);
      RangeOne(w, c, m, h, i, world, fuel);
      if ReplayEvent(w, c, m, h, i, world, fuel).Ok? {
        FeedFails(w, ReplayEvent(w, c, m, h, i, world, fuel).value, m, h, i + 1, n, started, world, fuel);
      }
    }
  }

  /** After a non-empty overtaken batch, the next task fails on every instance that is not warm, and poisons it. */
  lemma NextColdTaskFails<P(!new)>(w: Workflow<P>, runId: string, h: seq<Event>, h': seq<Event>, h'': seq<Event>, k: seq<Event>,
                                   cl: Core<P>, world: World, now: Time, world': World, fuel: nat)
    requires WellFormedCode(w) && Overtakes(w, runId, h, h', h'', k, cl, world, now, fuel) && cl.env.desk.outstanding != []
    requires k[|k| - 1].attrs.TaskStarted?
    ensures
      var done := ProcessTask(w, NewInstance<P>(), k, |k|, false, world', fuel);
      done.result.Err? && done.instance.poisoned
  {
    hide Synced, RunCode, WellFormed, Replay, WellFormedCode, ReplayRange, Feed, Landed, WentOn, Records;
    OvertakenStops(w, runId, h, h', h'', k, cl, world, now, world', fuel);
    var cmds, n := Batch(cl.env.desk.outstanding), |h'|;
    assert RecordsAt(cmds[0], h''[n + 1 + 0], n + 1 + 0, n + 1, now);
    assert k[n + 1] == h''[n + 1] by { assert WentOn(h'', k); WentOnPrefix(h'', k); }
    RecordsNoStart(cmds[0], k[n + 1].attrs, n + 1);
    IdsDense(k);
    PreloadCompletes(k, 0);
    assert MarkersIn(k, 0) == map[];
    FeedFails(w, Fresh<P>(), MarkersIn(k, |k|), k, 0, n + 2, |k|, world', fuel);
  }

  lemma WentOnPrefix(h: seq<Event>, k: seq<Event>)
    requires WentOn(h, k)
    ensures h <= k
  {
  }

  lemma RecordsNoStart(c: Command, a: Attrs, decision: int)
    requires Records(c, a, decision)
    ensures !a.TaskStarted?
  {
  }

  // ------------------------------------------------------------------
  // How the server gets there
  // ------------------------------------------------------------------

  /** A signal for a task in flight is recorded and changes nothing the task's answer depends on. */
  lemma SignalLands(s: State, name: string, input: Payload, draw: Draw, now: Time)
    requires Ready(s, now) && Open(s) && Started(s.task) && name != ""
    ensures
      var v := Engine.Handle(s, SignalRun(name, input), draw, now);
      && v.Write? && v.out.state.events == s.events + [Event(|s.events| + 1, now, Signaled(name, input))]
      && v.out.state.activities == s.activities && v.out.state.timers == s.timers && v.out.state.task == s.task
      && v.out.state.runId == s.runId && Open(v.out.state) && Ready(v.out.state, now)
  {
    hide Durable, Append, RetryRows, Kept;
    SignalSucceeds(s, name, input, now);
    AppendKept(s, Signaled(name, input), now);
    var t := Append(s, Signaled(name, input), now).value;
    KeptParts(s, t, now);
    DurableIds(s);
    TaskWaits(s);
    SignaledState(s, name, input, now);
    assert AppendAndWake(s, Signaled(name, input), now) == Ok(Step(t, []));
  }

  lemma SignaledState(s: State, name: string, input: Payload, now: Time)
    requires Append(s, Signaled(name, input), now).Ok?
    ensures
      var t := Append(s, Signaled(name, input), now).value;
      && t.events == s.events + [Event(NextEventId(s.events), now, Signaled(name, input))]
      && t.activities == s.activities && t.timers == s.timers && t.task == s.task && t.runId == s.runId && Open(t)
  {
  }

  lemma TaskWaits(s: State)
    requires Durable(s) && Started(s.task)
    ensures s.task.scheduledId != 0
  {
    hide Replays, WellFormed, ActivitiesLinked, TimersLinked, ClosureLinked;
  }

  lemma OwnerStays(s: State, t: State, identity: string)
    requires OwnsTask(s, identity) && s.events <= t.events && t.task == s.task && Open(t) && s.task.startedId <= |s.events|
    ensures OwnsTask(t, identity)
  {
  }

  lemma PrecheckStays(s: State, t: State, cmds: seq<Command>)
    requires t.activities == s.activities && t.timers == s.timers && Precheck(s, cmds)
    ensures Precheck(t, cmds)
  {
    hide ActivityIdsIn, TimerIdsIn;
    forall i | 0 <= i < |cmds| ensures PrecheckAt(t, cmds, i) {
      assert PrecheckAt(s, cmds, i);
    }
  }

  /** An accepted batch is written whole, and whatever the server adds follows it. */
  lemma AnswerWritten(s: State, cmds: seq<Command>, identity: string, draw: Draw, now: Time)
    requires Ready(s, now) && Accepted(s, cmds) && CancelsOnce(cmds) && OwnsTask(s, identity) && draw.freshId != ""
    ensures
      var v := Engine.Handle(s, RespondTask(identity, cmds), draw, now);
      && v.Write? && |s.events| + 1 + |cmds| <= |v.out.state.events|
      && Continues(s.events, v.out.state.events[..|s.events| + 1 + |cmds|], cmds, now)
      && WentOn(v.out.state.events[..|s.events| + 1 + |cmds|], v.out.state.events)
      && Kept(s, v.out.state, now)
  {
    hide Durable, CompleteTask, ScheduleTask, Accepted, CancelsOnce, OwnsTask, Finalize, AllFollow, Kept, RecordsAll, External, RunsIn;
    BatchAtomic(s, identity, cmds, draw, now);
    var step := CompleteTask(s, identity, cmds, draw, now).step;
    CompleteTaskKept(s, identity, cmds, draw, now);
    KeptParts(s, step.state, now);
    ScheduleKept(step.state, now);
    var all := RespondWithCommands(s, cmds, identity, draw, now);
    assert all.Applied?;
    RespondFollows(s, cmds, identity, draw, now);
    var n := |s.events| + 1 + |cmds|;
    var k := all.step.state.events;
    ScheduleAdds(step.state, now);
    assert step.state.events == step.state.events[..n];
    if Open(all.step.state) {
      FinalizePlain(all.step, draw);
      assert k[..n] == step.state.events;
    } else {
      if Open(step.state) { ClosedAtOnce(step.state, now); }
      assert all.step.state.events == step.state.events;
      FinalizeKeepsRecord(all.step, draw, s.events, cmds, now);
      FinalizeLength(all.step, draw);
      var k' := Finalize(all.step, draw).out.state.events;
      assert k'[..n] == k';
    }
    HandleKept(s, RespondTask(identity, cmds), draw, now);
  }

  lemma FinalizePlain(step: Step, draw: Draw)
    requires RunsIn(step.effects) == []
    ensures Finalize(step, draw).Write? && Finalize(step, draw).out.state == step.state
  {
    hide RetryRows;
  }

  lemma FinalizeLength(step: Step, draw: Draw)
    requires Finalize(step, draw).Write?
    ensures |Finalize(step, draw).out.state.events| == |step.state.events|
  {
    hide RetryRows, RunsIn, OthersIn;
  }

  lemma ClosedAtOnce(s: State, now: Time)
    requires ScheduleTask(s, now).Ok? && !Open(ScheduleTask(s, now).value.state)
    ensures !Open(s)
  {
    hide ApplyToActivities, ApplyToTimers, ApplyToTask, InfoFrom;
  }

  /** At any point of any run of server and workers at which a task is in flight: if a signal is written before the task is
      answered, the server still takes the answer, and from then on a cold replay fails exactly if the batch was not empty. */
  lemma SignalBeforeAnswerBreaksReplay<P(!new)>(w: Workflow<P>, o: Origin, systems: seq<System<P>>, moves: seq<Move>, n: nat, fuel: nat,
                                                cl: Core<P>, world: World, identity: string, name: string, input: Payload,
                                                draw: Draw, now: Time, later: Time)
    requires WellFormedCode(w) && Works(w, o, systems, moves, fuel) && n < |systems|
    requires OwnsTask(systems[n].server, identity) && systems[n].server.task.startedId == |systems[n].server.events|
    requires
      var h := systems[n].server.events;
      Cold(w, h, fuel).Ok? && RunCode(w, Cold(w, h, fuel).value, MarkersIn(h, |h|), false, world, fuel) == Ok(cl)
    requires name != "" && draw.freshId != "" && ClockBefore(o, moves, n) <= now <= later
    ensures
      var signaled := Engine.Handle(systems[n].server, SignalRun(name, input), draw, now);
      && signaled.Write?
      && var answered := Engine.Handle(signaled.out.state, RespondTask(identity, Batch(cl.env.desk.outstanding)), draw, later);
      && answered.Write?
      && (Cold(w, answered.out.state.events, fuel).Ok? <==> cl.env.desk.outstanding == [])
  {
    hide WellFormedCode, Works, Durable, Synced, AllWarm, Cold, RunCode, OwnsTask, Engine.Handle, Continues, Kept, External, Replay, MarkersIn;
    WorksAgreed(w, o, systems, moves, n, fuel);
    var s, cmds := systems[n].server, Batch(cl.env.desk.outstanding);
    assert Open(s) && Started(s.task) by { OwnerOpen(s, identity); }
    StartedLast(s);
    SignalLands(s, name, input, draw, now);
    var t := Engine.Handle(s, SignalRun(name, input), draw, now).out.state;
    OwnerStays(s, t, identity);
    LiveAccepted(w, s, t, cl, world, fuel);
    AnswerWritten(t, cmds, identity, draw, later);
    var u := Engine.Handle(t, RespondTask(identity, cmds), draw, later).out.state;
    KeptParts(t, u, later);
    assert WellFormed(u.events) && Replay(u.runId, u.events).Ok? by { DurableReplays(u); }
    assert Landed(s.events, t.events) by { SignalIsLanded(s.events, t.events); }
    BufferedEventBreaksReplay(w, s.runId, s.events, t.events, u.events[..|t.events| + 1 + |cmds|], u.events, cl, world, later, fuel);
  }

  lemma SignalIsLanded(h: seq<Event>, h': seq<Event>)
    requires |h'| == |h| + 1 && h <= h' && h'[|h|].attrs.Signaled?
    ensures Landed(h, h')
  {
  }

  lemma LiveAccepted<P(!new)>(w: Workflow<P>, s: State, t: State, cl: Core<P>, world: World, fuel: nat)
    requires WellFormedCode(w) && Durable(s) && Synced(w, s.runId, s.events, fuel) && Started(s.task)
    requires s.events[|s.events| - 1].attrs.TaskStarted?
    requires RunCode(w, Cold(w, s.events, fuel).value, MarkersIn(s.events, |s.events|), false, world, fuel) == Ok(cl)
    requires t.activities == s.activities && t.timers == s.timers && t.task == s.task
    ensures Accepted(t, Batch(cl.env.desk.outstanding)) && CancelsOnce(Batch(cl.env.desk.outstanding))
  {
    hide WellFormedCode, Synced, Durable, RunCode, Cold, ValidBatch, Precheck, CancelsOnce, Sim, Accounted, Agree, Replay, MarkersIn;
    LiveFinishes(w, s.runId, s.events, cl, world, fuel);
    DurableAgrees(s);
    SamePrecheck(s, Replay(s.runId, s.events).value, Batch(cl.env.desk.outstanding));
    PrecheckStays(s, t, Batch(cl.env.desk.outstanding));
  }

  // ----- a run that gets there -----

  /** Workflow code that starts a timer and then waits. */
  const NAPPER: Workflow<bool> :=
    Workflow((start, at) => false, asleep => if asleep then Block else Ask(NewTimer(0, 1)), (asleep, reply) => true)

  /** A run's first task, scheduled when the run is created. */
  lemma FirstScheduled(o: Origin)
    requires Startable(o) && o.birth.Immediate?
    ensures Create(o.runId, o.start, o.birth, o.born).Ok?
    ensures
      var s := Create(o.runId, o.start, o.birth, o.born).value.state;
      && Ready(s, o.born) && Open(s) && |s.events| == 2 && s.events[0].attrs.ExecutionStarted? && s.events[1].attrs.TaskScheduled?
      && s.task.scheduledId == 2 && s.task.startedId == 0
  {
    hide Durable, Start, Append;
    CreateDurable(o.runId, o.start, o.birth, o.born);
    StartDurable(o.runId, o.start, o.born);
    FirstTask(Start(Empty(o.runId), o.start, o.born).value, o.born);
  }

  lemma FirstTask(s: State, now: Time)
    requires |s.events| == 1 && Durable(s) && Open(s) && LastTime(s) <= now && s.events[0].attrs.ExecutionStarted?
    requires ScheduleTask(s, now).Ok?
    ensures
      var t := ScheduleTask(s, now).value.state;
      && Open(t) && |t.events| == 2 && t.events[0] == s.events[0] && t.events[1].attrs.TaskScheduled?
      && t.task.scheduledId == 2 && t.task.startedId == 0
  {
    hide Linked, WellFormed, Agree, ApplyToActivities, ApplyToTimers, InfoFrom, Replays;
    assert s.task == NO_TASK by { NoTaskYet(s); }
    DurableIds(s);
  }

  lemma NoTaskYet(s: State)
    requires |s.events| == 1 && Durable(s) && s.events[0].attrs.ExecutionStarted?
    ensures s.task == NO_TASK
  {
    hide Linked, WellFormed, ApplyToActivities, ApplyToTimers, InfoFrom;
    assert s.events[..0] == [];
    assert Replay(s.runId, []) == Ok(Empty(s.runId));
  }

  lemma FirstPolled(s: State, identity: string, draw: Draw, now: Time)
    requires Ready(s, now) && Open(s) && |s.events| == 2 && s.task.scheduledId == 2 && s.task.startedId == 0
    ensures
      var v := Engine.Handle(s, PollTask(2, identity, "poll"), draw, now);
      && v.Write? && |v.out.state.events| == 3 && v.out.state.events[..2] == s.events && v.out.state.events[2].attrs.TaskStarted?
      && v.out.state.task.startedId == 3 && OwnsTask(v.out.state, identity)
  {
    hide Durable, ApplyToActivities, ApplyToTimers, InfoFrom, RetryRows;
    DurableIds(s);
    var t := Append(s, TaskStarted(2, identity, "poll"), now);
    assert t.Ok?;
  }

  /** Before its first task the code has done nothing. */
  lemma FirstCold(w: Workflow<bool>, h: seq<Event>, fuel: nat)
    requires |h| == 3 && h[0].attrs.ExecutionStarted? && h[1].attrs.TaskScheduled? && h[2].attrs.TaskStarted?
    ensures MarkersIn(h, 3) == map[]
    ensures Cold(w, h, fuel).Ok?
    ensures
      var c := Cold(w, h, fuel).value;
      c.code == None && c.env.desk == EMPTY_DESK && c.env.book == EMPTY_BOOK
  {
    hide RunCode, ApplyToDesk;
    assert MarkersIn(h, 0) == map[];
    assert MarkersIn(h, 1) == map[];
    assert MarkersIn(h, 2) == map[];
    var m: Markers := map[];
    EmptyRange(w, Fresh<bool>(), m, h, 0, fuel);
    UntouchedDesk(EMPTY_DESK, h[0]);
    OneMore(w, Fresh<bool>(), m, h, 0, 0, IDLE, fuel);
    assert ApplyToDesk(EMPTY_DESK, h[1]) == Ok(EMPTY_DESK) by { SchedulingUntouched(EMPTY_DESK, h[1]); }
    OneMore(w, Fresh<bool>(), m, h, 0, 1, IDLE, fuel);
    OneMore(w, Fresh<bool>(), m, h, 0, 2, IDLE, fuel);
  }

  lemma SchedulingUntouched(d: Desk, e: Event)
    requires e.attrs.TaskScheduled?
    ensures ApplyToDesk(d, e) == Ok(d)
  {
  }

  /** The napper's first run leaves one command. */
  lemma NapperStartsTimer(c: Core<bool>, m: Markers, world: World, fuel: nat)
    requires c.code == None && c.env.desk == EMPTY_DESK && fuel >= 2
    ensures
      var r := RunCode(NAPPER, c, m, false, world, fuel);
      r.Ok? && Batch(r.value.env.desk.outstanding) == [StartTimer(TimerName(1), 1)]
  {
    hide TimerName;
    var e := c.env.(desk := FlushCancels(c.env.desk));
    assert e == c.env;
    var a := DoPlain(e, NewTimer(0, 1));
    assert Steps(NAPPER, a.env, true, m, false, world, fuel - 1) == Ok(Core(Some(true), a.env));
    assert Steps(NAPPER, e, false, m, false, world, fuel) == Steps(NAPPER, a.env, true, m, false, world, fuel - 1);
  }

  /** Create, poll, signal, answer: for every run whose code begins by starting a timer, the very first task can be overtaken,
      and then no cold replay ever succeeds. */
  lemma FirstTaskCanBeOvertaken(o: Origin, identity: string, draw: Draw, world: World, name: string, input: Payload, fuel: nat)
    requires Startable(o) && o.birth.Immediate? && draw.freshId != "" && name != "" && fuel >= 2
    ensures
      var s := Create(o.runId, o.start, o.birth, o.born).value.state;
      var polled := Engine.Handle(s, PollTask(2, identity, "poll"), draw, o.born);
      && polled.Write?
      && var h := polled.out.state.events;
      && var signaled := Engine.Handle(polled.out.state, SignalRun(name, input), draw, o.born);
      && signaled.Write?
      && var task := ProcessTask(NAPPER, NewInstance<bool>(), h, |h|, false, world, fuel);
      && task.result.Ok?
      && var answered := Engine.Handle(signaled.out.state, RespondTask(identity, task.result.value), draw, o.born);
      && answered.Write? && Cold(NAPPER, answered.out.state.events, fuel).Err?
  {
    hide Durable, Create, Engine.Handle, RunCode, Cold, OwnsTask, WellFormedCode, Works, ProcessTask, Synced, AllWarm;
    FirstScheduled(o);
    var s := Create(o.runId, o.start, o.birth, o.born).value.state;
    FirstPolled(s, identity, draw, o.born);
    var turn := Turn(PollTask(2, identity, "poll"), draw, o.born, true);
    var t := Engine.Handle(s, turn.req, draw, o.born).out.state;
    FirstCold(NAPPER, t.events, fuel);
    NapperStartsTimer(Cold(NAPPER, t.events, fuel).value, map[], world, fuel);
    var cl := RunCode(NAPPER, Cold(NAPPER, t.events, fuel).value, map[], false, world, fuel).value;
    var systems, moves := [NewSystem<bool>(s), NewSystem<bool>(t)], [Serve(turn)];
    assert WellFormedCode(NAPPER) by { NapperWellFormed(); }
    assert Works(NAPPER, o, systems, moves, fuel) by { FirstWorks(o, s, t, turn, fuel); }
    WorksAgreed(NAPPER, o, systems, moves, 1, fuel);
    NewWarm(NAPPER, t.events, fuel);
    LiveTask(NAPPER, NewInstance<bool>(), t.runId, t.events, world, fuel);
    SignalBeforeAnswerBreaksReplay(NAPPER, o, systems, moves, 1, fuel, cl, world, identity, name, input, draw, o.born, o.born);
  }

  lemma NapperWellFormed()
    ensures WellFormedCode(NAPPER)
  {
  }

  lemma FirstWorks(o: Origin, s: State, t: State, turn: Turn, fuel: nat)
    requires Startable(o) && Create(o.runId, o.start, o.birth, o.born).Ok? && s == Create(o.runId, o.start, o.birth, o.born).value.state
    requires turn.req.PollTask? && turn.draw.freshId != "" && turn.now == o.born && turn.stored
    requires Engine.Handle(s, turn.req, turn.draw, turn.now).Write? && t == Engine.Handle(s, turn.req, turn.draw, turn.now).out.state
    ensures Works(NAPPER, o, [NewSystem<bool>(s), NewSystem<bool>(t)], [Serve(turn)], fuel)
  {
    hide Create, Engine.Handle;
    var systems, moves := [NewSystem<bool>(s), NewSystem<bool>(t)], [Serve(turn)];
    assert Reaches(NAPPER, o, systems, moves, 0, fuel);
    assert Next(s, turn) == Some(t);
    assert Reaches(NAPPER, o, systems, moves, 1, fuel);
  }
}
