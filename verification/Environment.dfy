/** The workflow environment and its executor as the source keeps them: objects whose fields every call and every event
    updates in place. */
module Environments {
  import opened Prelude
  import opened History
  import opened Sdk

  class Environment {
    var start: StartAttrs
    var startedAt: Time
    var now: Time
    var scopes: seq<Scope>
    var handles: seq<Handle>
    var activities: map<int, nat>
    var timers: map<int, nat>
    var outstanding: seq<Outstanding>
    var pendingCancels: seq<nat>
    var activitySeq: nat
    var timerSeq: nat
    var closed: bool
    var signals: map<string, seq<Payload>>
    var sideSeq: nat
    var localSeq: nat
    var mutableSeq: map<string, nat>
    var versions: map<string, int>
    var mutables: map<string, Payload>
    ghost var log: map<MarkerKey, Option<Recorded>>
    var markers: Markers
    var replaying: bool

    ghost function DeskView(): Desk
      reads this
    {
      Desk(scopes, handles, activities, timers, outstanding, pendingCancels, activitySeq, timerSeq, closed)
    }

    ghost function BookView(): Book
      reads this
    {
      Book(sideSeq, localSeq, mutableSeq, versions, mutables, log)
    }

    ghost function View(): Env
      reads this
    {
      Env(start, startedAt, now, DeskView(), signals, BookView())
    }

    /** Replay is the default posture until the executor says otherwise. */
    constructor ()
      ensures View() == Env(NO_START, 0, 0, EMPTY_DESK, map[], EMPTY_BOOK)
      ensures markers == map[] && replaying
    {
      start, startedAt, now := NO_START, 0, 0;
      scopes, handles, activities, timers := [Scope(None, false)], [], map[], map[];
      outstanding, pendingCancels, activitySeq, timerSeq, closed := [], [], 0, 0, false;
      signals := map[];
      sideSeq, localSeq, mutableSeq, versions, mutables := 0, 0, map[], map[], map[];
      log, markers, replaying := map[], map[], true;
    }

    // ----- command production -----

    method Queue(cmd: Command, bind: Option<nat>)
      modifies `outstanding
      ensures DeskView() == Enqueue(old(DeskView()), cmd, bind)
    {
      if closed { return; }
      outstanding := outstanding + [Outstanding(cmd, bind)];
    }

    method RecordMarker(key: MarkerKey, r: Recorded)
      modifies `outstanding, `log
      ensures View() == Mark(old(View()), key, r)
    {
      if closed { return; }
      log := log[key := Some(r)];
      Queue(Command.RecordMarker(key, r.details, r.failure), None);
    }

    // ----- cancellation -----

    method EmitCancel(k: nat)
      requires k < |handles|
      modifies `outstanding
      ensures DeskView() == Emit(old(DeskView()), k)
    {
      if handles[k].closedByServer || handles[k].eventId == 0 { return; }
      Queue(CancelCommand(handles[k]), None);
    }

    method CancelOne(k: nat, applying: bool)
      requires k < |handles|
      modifies `handles, `pendingCancels, `outstanding
      ensures DeskView() == CancelHandle(old(DeskView()), k, applying)
    {
      var h := handles[k];
      if h.canceled { return; }
      handles := handles[k := Settle(h.(canceled := true, scope := None), CANCELED)];
      if h.eventId == 0 || applying {
        pendingCancels := pendingCancels + [k];
      } else {
        EmitCancel(k);
      }
    }

    /** The handlers registered with a scope, in registration order. */
    method CancelRegistered(i: nat, applying: bool)
      modifies `handles, `pendingCancels, `outstanding
      ensures DeskView() == CancelHandles(old(DeskView()), i, 0, applying)
    {
      hide CancelHandle;
      var k := 0;
      while k < |handles|
        invariant CancelHandles(DeskView(), i, k, applying) == CancelHandles(old(DeskView()), i, 0, applying)
        decreases |handles| - k
      {
        if handles[k].scope == Some(i) {
          CancelOne(k, applying);
        }
        k := k + 1;
      }
    }

    /** The subtree first, then the scope's own handlers. */
    method CancelScope(i: nat, applying: bool)
      modifies `scopes, `handles, `pendingCancels, `outstanding
      ensures DeskView() == CancelTree(old(DeskView()), i, applying)
      decreases if i < |scopes| then |scopes| - i else 0
    {
      hide CancelHandles;
      if i >= |scopes| || scopes[i].canceled { return; }
      scopes := scopes[i := scopes[i].(canceled := true)];
      ghost var marked := DeskView();
      var j := i + 1;
      while j < |scopes|
        invariant i < j && |scopes| == |old(scopes)|
        invariant CancelChildren(DeskView(), i, j, applying) == CancelChildren(marked, i, i + 1, applying)
        decreases |scopes| - j
      {
        if scopes[j].parent == Some(i) {
          CancelScope(j, applying);
        }
        j := j + 1;
      }
      CancelRegistered(i, applying);
    }

    /** Cancellations that had to wait are emitted first, so their place in the batch is fixed. */
    method FlushPendingCancels()
      modifies `pendingCancels, `outstanding
      ensures DeskView() == FlushCancels(old(DeskView()))
    {
      hide Emit;
      var pending := pendingCancels;
      pendingCancels := [];
      ghost var target := EmitAll(DeskView(), pending);
      var i := 0;
      assert pending[0..] == pending;
      while i < |pending|
        invariant 0 <= i <= |pending| && pendingCancels == []
        invariant EmitAll(DeskView(), pending[i..]) == target
      {
        assert pending[i..][0] == pending[i] && pending[i..][1..] == pending[i + 1..];
        if pending[i] < |handles| {
          EmitCancel(pending[i]);
        }
        i := i + 1;
      }
    }

    // ----- calls -----

    method AddHandle(h: Handle) returns (promise: nat)
      modifies `handles
      ensures handles == old(handles) + [h] && promise == |old(handles)|
    {
      promise := |handles|;
      handles := handles + [h];
    }

    method ExecuteActivity(scope: nat, activityId: string, o: ActivityOptions) returns (promise: nat)
      modifies `handles, `outstanding, `activitySeq
      ensures Answered(View(), Promised(promise)) == DoExecuteActivity(old(View()), scope, activityId, o)
    {
      hide Bounded, ActivityName;
      var name := activityId;
      if activityId == "" {
        activitySeq := activitySeq + 1;
        name := ActivityName(activitySeq);
      }
      if scope < |scopes| && scopes[scope].canceled {
        promise := AddHandle(Handle(ActivityHandle, name, 0, false, false, None, Some(CANCELED)));
        return;
      }
      Queue(ScheduleActivity(name, Bounded(o)), Some(|handles|));
      promise := AddHandle(Handle(ActivityHandle, name, 0, false, false, if scope < |scopes| then Some(scope) else None, None));
    }

    /** A timer that is already due needs no history event. */
    method NewTimer(scope: nat, d: Duration) returns (promise: nat)
      modifies `handles, `outstanding, `timerSeq
      ensures Answered(View(), Promised(promise)) == DoNewTimer(old(View()), scope, d)
    {
      hide TimerName;
      timerSeq := timerSeq + 1;
      var name := TimerName(timerSeq);
      if scope < |scopes| && scopes[scope].canceled {
        promise := AddHandle(Handle(TimerHandle, name, 0, false, false, None, Some(CANCELED)));
      } else if d <= 0 {
        promise := AddHandle(Handle(TimerHandle, name, 0, false, false, None, Some(Answer(NoPayload, None))));
      } else {
        Queue(StartTimer(name, d), Some(|handles|));
        promise := AddHandle(Handle(TimerHandle, name, 0, false, false, if scope < |scopes| then Some(scope) else None, None));
      }
    }

    /** Runs once in the life of the run: the marker is still emitted on replay, because it is part of the batch. */
    method RunOnce(kind: EffectKind, key: MarkerKey, world: World) returns (r: Result<Answer>)
      requires !kind.Mutable?
      modifies `outstanding, `log
      ensures
        match DoOnce(old(View()), kind, key, markers, replaying, world)
        case Ok(a) => r.Ok? && a == Answered(View(), Value(r.value))
        case Err(e) => r == Err(e) && View() == old(View())
    {
      if key in markers {
        RecordMarker(key, markers[key]);
        return Ok(ReadBack(markers[key]));
      }
      if replaying { return Err(ErrNonDeterminism); }
      var a := world(kind, key);
      RecordMarker(key, RecordAnswer(a));
      return Ok(if kind.Local? && a.problem.Some? then Answer(NoPayload, a.problem) else a);
    }

    method MutableSideEffect(id: string, same: (Payload, Payload) -> bool, world: World) returns (r: Result<Answer>)
      modifies `outstanding, `log, `mutableSeq, `mutables
      ensures
        match DoMutable(old(View()), id, same, markers, replaying, world)
        case Ok(a) => r.Ok? && a == Answered(View(), Value(r.value))
        case Err(e) => r == Err(e)
    {
      hide MutableKey, Mark, ReadBack, AsApplication, CallsOf;
      var n := CallsOf(mutableSeq, id) + 1;
      mutableSeq := mutableSeq[id := n];
      var key := MutableKey(id, n);
      if key in markers {
        RecordMarker(key, markers[key]);
        mutables := mutables[id := markers[key].details];
        return Ok(ReadBack(markers[key]));
      }
      if replaying {
        if id !in mutables { return Err(ErrNonDeterminism); }
        log := log[key := None];
        return Ok(Answer(mutables[id], None));
      }
      var a := world(Mutable, key);
      if a.problem.Some? {
        RecordMarker(key, Recorded(NoPayload, Some(AsApplication(a.problem.value))));
        return Ok(Answer(NoPayload, a.problem));
      }
      if id in mutables && same(mutables[id], a.value) {
        log := log[key := None];
        return Ok(Answer(mutables[id], None));
      }
      mutables := mutables[id := a.value];
      RecordMarker(key, Recorded(a.value, None));
      return Ok(Answer(a.value, None));
    }

    method GetVersion(id: string, lo: int, hi: int) returns (r: Result<int>)
      modifies `outstanding, `log, `versions
      ensures
        match DoGetVersion(old(View()), id, lo, hi, markers, replaying)
        case Ok(a) => r.Ok? && a == Answered(View(), Version(r.value))
        case Err(e) => r == Err(e)
    {
      hide VersionKey;
      var key := VersionKey(id);
      if id in versions {
        return if versions[id] < lo || versions[id] > hi then Err(ErrNonDeterminism) else Ok(versions[id]);
      }
      if key in markers {
        if !markers[key].details.Number? { return Err(ErrNonDeterminism); }
        var v := markers[key].details.n;
        versions := versions[id := v];
        RecordMarker(key, Recorded(markers[key].details, None));
        return if v < lo || v > hi then Err(ErrNonDeterminism) else Ok(v);
      }
      if replaying {
        if lo > DEFAULT_VERSION { return Err(ErrNonDeterminism); }
        versions := versions[id := DEFAULT_VERSION];
        log := log[key := None];
        return Ok(DEFAULT_VERSION);
      }
      versions := versions[id := hi];
      RecordMarker(key, Recorded(Number(hi), None));
      return Ok(hi);
    }

    /** A call that neither reads the marker index nor depends on the replaying flag. */
    method AnswersPlain(call: Call) returns (reply: Reply)
      requires !MarkerCall(call)
      modifies `scopes, `handles, `pendingCancels, `outstanding, `activitySeq, `timerSeq, `signals
      ensures Answered(View(), reply) == DoPlain(old(View()), call)
    {
      hide DoExecuteActivity, DoNewTimer, CancelTree;
      if call.OpenScope? {
        var p, canceled := call.parent, call.parent < |scopes| && scopes[call.parent].canceled;
        scopes := scopes + [Scope(if p < |scopes| && !scopes[p].canceled then Some(p) else None, canceled)];
        return Scoped(|scopes| - 1);
      } else if call.CancelScope? {
        CancelScope(call.scope, false);
        return Done;
      } else if call.ScopeCanceled? {
        return Flag(call.scope < |scopes| && scopes[call.scope].canceled);
      } else if call.ExecuteActivity? {
        var promise := ExecuteActivity(call.scope, call.activityId, call.options);
        return Promised(promise);
      } else if call.NewTimer? {
        var promise := NewTimer(call.scope, call.duration);
        return Promised(promise);
      } else if call.Poll? {
        var k := call.promise;
        return if k < |handles| && handles[k].outcome.Some? then Settled(handles[k].outcome.value) else Pending;
      } else if call.TryReceive? {
        var name := call.signal;
        if name !in signals || signals[name] == [] { return Nothing; }
        reply := Received(signals[name][0]);
        signals := signals[name := signals[name][1..]];
      } else {
        return Instant(now);
      }
    }

    /** A side effect or a local activity: one more call of its kind, under its own marker. */
    method AnswersOnce(call: Call, world: World) returns (r: Result<Reply>)
      requires call.SideEffect? || call.LocalActivity?
      modifies `outstanding, `log, `sideSeq, `localSeq
      ensures
        match Perform(old(View()), call, markers, replaying, world)
        case Ok(a) => r == Ok(a.reply) && View() == a.env
        case Err(e) => r == Err(e)
    {
      hide DoOnce, SideKey, LocalKey;
      var a: Result<Answer>;
      if call.SideEffect? {
        sideSeq := sideSeq + 1;
        assert View() == NextSide(old(View()));
        a := RunOnce(Plain, SideKey(sideSeq), world);
      } else {
        localSeq := localSeq + 1;
        assert View() == NextLocal(old(View()));
        a := RunOnce(Local, LocalKey(localSeq), world);
      }
      return if a.Ok? then Ok(Value(a.value)) else Err(a.error);
    }

    /** A call that consults the marker index. */
    method AnswersMarked(call: Call, world: World) returns (r: Result<Reply>)
      requires MarkerCall(call)
      modifies `outstanding, `log, `sideSeq, `localSeq, `mutableSeq, `mutables, `versions
      ensures
        match Perform(old(View()), call, markers, replaying, world)
        case Ok(a) => r == Ok(a.reply) && View() == a.env
        case Err(e) => r == Err(e)
    {
      hide DoOnce, DoMutable, DoGetVersion, SideKey, LocalKey;
      if call.MutableSideEffect? {
        var a := MutableSideEffect(call.id, call.same, world);
        return if a.Ok? then Ok(Value(a.value)) else Err(a.error);
      } else if call.GetVersion? {
        var v := GetVersion(call.changeId, call.minSupported, call.maxSupported);
        return if v.Ok? then Ok(Version(v.value)) else Err(v.error);
      } else {
        r := AnswersOnce(call, world);
      }
    }

    /** One call of workflow code. */
    method Answers(call: Call, world: World) returns (r: Result<Reply>)
      modifies this
      ensures markers == old(markers) && replaying == old(replaying)
      ensures
        match Perform(old(View()), call, markers, replaying, world)
        case Ok(a) => r == Ok(a.reply) && View() == a.env
        case Err(e) => r == Err(e)
    {
      if MarkerCall(call) {
        hide Perform;
        r := AnswersMarked(call, world);
      } else {
        hide DoPlain;
        var reply := AnswersPlain(call);
        return Ok(reply);
      }
    }

    /** The closed flag is set after the closing command, so that the command itself is not dropped. */
    method CompleteWith(ret: Return)
      modifies `outstanding, `closed
      ensures DeskView() == Complete(old(DeskView()), ret)
    {
      Queue(ClosingCommand(ret), None);
      closed := true;
    }

    // ----- event application -----

    /** Pairs a command-derived event with the head of the queue and binds its handle. */
    method MatchHead(ev: Event) returns (err: Option<Error>)
      modifies `outstanding, `handles, `activities, `timers
      ensures
        match MatchCommand(old(DeskView()), ev)
        case Ok(d) => err.None? && DeskView() == d
        case Err(e) => err == Some(e) && DeskView() == old(DeskView())
    {
      hide Matches;
      if outstanding == [] || !Matches(outstanding[0].cmd, ev.attrs) { return Some(ErrNonDeterminism); }
      var bind := outstanding[0].bind;
      outstanding := outstanding[1..];
      if bind.Some? && bind.value < |handles| {
        var k := bind.value;
        handles := handles[k := handles[k].(eventId := ev.id)];
        if handles[k].kind.ActivityHandle? {
          activities := activities[ev.id := k];
        } else {
          timers := timers[ev.id := k];
        }
      }
      return None;
    }

    method CloseByServer(known: map<int, nat>, id: int, a: Option<Answer>)
      modifies `handles
      ensures DeskView() == CloseHandle(old(DeskView()), known, id, a)
    {
      if id !in known || known[id] >= |handles| { return; }
      var k := known[id];
      var h := handles[k].(closedByServer := true);
      handles := handles[k := if a.Some? then Settle(h.(scope := None), a.value) else h];
    }

    method ApplyDeskEvent(ev: Event) returns (err: Option<Error>)
      modifies `outstanding, `handles, `activities, `timers, `scopes, `pendingCancels
      ensures
        match ApplyToDesk(old(DeskView()), ev)
        case Ok(d) => err.None? && DeskView() == d
        case Err(e) => err == Some(e) && DeskView() == old(DeskView())
    {
      hide MatchCommand, CloseHandle, CancelTree, CommandDerived, ActivityFailure;
      if ev.attrs.TimerFired? {
        CloseByServer(timers, ev.attrs.startedId, Some(Answer(NoPayload, None)));
        return None;
      }
      if ev.attrs.TimerCanceled? {
        err := MatchHead(ev);
        if err.None? {
          CloseByServer(timers, ev.attrs.startedId, None);
        }
        return;
      }
      if ev.attrs.CancelRequested? {
        CancelScope(0, true);
        return None;
      }
      var answer := ActivityAnswer(ev.attrs);
      if answer.Some? {
        CloseByServer(activities, ev.attrs.scheduledId, answer);
        return None;
      }
      if CommandDerived(ev.attrs) {
        err := MatchHead(ev);
        return;
      }
      return None;
    }

    method AdvanceTime(t: Time)
      modifies `now
      ensures View() == Advance(old(View()), t)
    {
      if t > now { now := t; }
    }

    /** Signals wait in arrival order, by name. */
    method BufferSignal(name: string, input: Payload)
      modifies `signals
      ensures
        var waiting := old(signals);
        View() == old(View()).(signals := waiting[name := (if name in waiting then waiting[name] else []) + [input]])
    {
      signals := signals[name := (if name in signals then signals[name] else []) + [input]];
    }

    method Apply(ev: Event) returns (err: Option<Error>)
      modifies this
      ensures markers == old(markers) && replaying == old(replaying)
      ensures
        match ApplyEvent(old(View()), ev)
        case Ok(e) => err.None? && View() == e
        case Err(x) => err == Some(x) && View() == old(View())
    {
      hide ApplyToDesk, Advance;
      if ev.attrs.ExecutionStarted? {
        start, startedAt := ev.attrs.start, ev.time;
        assert View() == old(View()).(start := ev.attrs.start, startedAt := ev.time);
        AdvanceTime(ev.time);
        return None;
      }
      if ev.attrs.Signaled? {
        BufferSignal(ev.attrs.signalName, ev.attrs.input);
        return None;
      }
      err := ApplyDeskEvent(ev);
    }
  }

  // ------------------------------------------------------------------
  // The executor
  // ------------------------------------------------------------------

  class Executor<P> {
    const workflow: Workflow<P>
    const env: Environment
    var code: Option<P>
    var next: nat
    var markerScan: nat
    var lastEventId: int
    var poisoned: bool

    constructor (workflow: Workflow<P>)
      ensures fresh(env) && View() == NewInstance()
    {
      this.workflow := workflow;
      env := new Environment();
      code, next, markerScan, lastEventId, poisoned := None, 0, 0, 0, false;
    }

    ghost function CoreView(): Core<P>
      reads this, env
    {
      Core(code, env.View())
    }

    ghost function View(): Instance<P>
      reads this, env
    {
      Instance(CoreView(), env.markers, markerScan, next, lastEventId, poisoned)
    }

    /** Indexes the markers it has not seen; a warm instance only looks at the new events. */
    method PreloadMarkers(h: seq<Event>)
      modifies env`markers, `markerScan
      ensures env.markers == Preload(old(env.markers), h, old(markerScan))
      ensures markerScan == if old(markerScan) < |h| then |h| else old(markerScan)
    {
      while markerScan < |h|
        invariant old(markerScan) <= markerScan && (markerScan <= |h| || markerScan == old(markerScan))
        invariant Preload(env.markers, h, markerScan) == Preload(old(env.markers), h, old(markerScan))
        decreases |h| - markerScan
      {
        var a := h[markerScan].attrs;
        if a.MarkerRecorded? {
          env.markers := env.markers[a.key := Recorded(a.details, a.failure)];
        }
        markerScan := markerScan + 1;
      }
    }

    /** Executes workflow code from `start` until it blocks, returns or fails, and keeps where it got to. */
    method ExecuteFrom(start: P, world: World, fuel: nat) returns (err: Option<Error>)
      modifies `code, env
      ensures env.markers == old(env.markers) && env.replaying == old(env.replaying)
      ensures
        match Steps(workflow, old(env.View()), start, env.markers, env.replaying, world, fuel)
        case Ok(c) => err.None? && CoreView() == c
        case Err(e) => err == Some(e)
    {
      hide Perform, Complete;
      var p, left: nat := start, fuel;
      while left > 0
        invariant left <= fuel
        invariant env.markers == old(env.markers) && env.replaying == old(env.replaying)
        invariant Steps(workflow, env.View(), p, env.markers, env.replaying, world, left)
               == Steps(workflow, old(env.View()), start, env.markers, env.replaying, world, fuel)
      {
        var action := workflow.next(p);
        match action {
          case Return(ret) =>
            code := Some(p);
            env.CompleteWith(ret);
            return None;
          case Panic => return Some(ErrPanic);
          case Block =>
            code := Some(workflow.resume(p, Woken));
            return None;
          case Ask(call) =>
            var reply := env.Answers(call, world);
            if reply.Err? { return Some(reply.error); }
            p := workflow.resume(p, reply.value);
            left := left - 1;
        }
      }
      return Some(ErrDeadlock);
    }

    /** One run of workflow code; after a failure the instance is poisoned by its caller. */
    method Run(world: World, fuel: nat) returns (err: Option<Error>)
      modifies `code, env
      ensures env.markers == old(env.markers) && env.replaying == old(env.replaying)
      ensures
        match RunCode(workflow, old(CoreView()), env.markers, env.replaying, world, fuel)
        case Ok(c) => err.None? && CoreView() == c
        case Err(e) => err == Some(e)
    {
      hide Steps, FlushCancels;
      env.FlushPendingCancels();
      if env.closed { return None; }
      err := ExecuteFrom(if code.Some? then code.value else workflow.begin(env.start, env.startedAt), world, fuel);
    }

    /** Feeds one event that is not the live task, as a replay would. */
    method FeedEvent(h: seq<Event>, i: nat, world: World, fuel: nat) returns (err: Option<Error>)
      requires i < |h|
      modifies this, env
      ensures env.markers == old(env.markers)
      ensures next == old(next) && markerScan == old(markerScan) && lastEventId == old(lastEventId) && poisoned == old(poisoned)
      ensures
        match ReplayEvent(workflow, old(CoreView()), env.markers, h, i, world, fuel)
        case Ok(c) => err.None? && CoreView() == c
        case Err(e) => err == Some(e)
    {
      hide RunCode, ApplyEvent;
      if h[i].attrs.TaskStarted? {
        env.AdvanceTime(h[i].time);
        // a task that never completed left no trace: running it would advance past decisions nobody took
        if !(i + 1 < |h| && h[i + 1].attrs.TaskCompleted?) { return None; }
        env.replaying := true;
        err := Run(world, fuel);
      } else {
        err := env.Apply(h[i]);
      }
    }

    /** The feeding loop, from the cursor: it ends with the history or with the live task. */
    method FeedHistory(h: seq<Event>, started: int, replayOnly: bool, world: World, fuel: nat) returns (r: Result<bool>)
      modifies this, env
      ensures env.markers == old(env.markers) && markerScan == old(markerScan) && poisoned == old(poisoned)
      ensures
        match Feed(workflow, old(CoreView()), env.markers, h, old(next), started, replayOnly, world, fuel)
        case Err(e) => r == Err(e)
        case Ok(fed) =>
          && r == Ok(fed.live) && CoreView() == fed.core && next == fed.next
          && lastEventId == (if old(next) < next <= |h| then h[next - 1].id else old(lastEventId))
    {
      hide ReplayEvent, RunCode, Advance, Feed;
      ghost var target := Feed(workflow, CoreView(), env.markers, h, next, started, replayOnly, world, fuel);
      while next < |h|
        invariant env.markers == old(env.markers) && markerScan == old(markerScan) && poisoned == old(poisoned)
        invariant old(next) <= next && (next <= |h| || next == old(next))
        invariant lastEventId == if old(next) < next <= |h| then h[next - 1].id else old(lastEventId)
        invariant Feed(workflow, CoreView(), env.markers, h, next, started, replayOnly, world, fuel) == target
        decreases |h| - next
      {
        FeedStep(workflow, CoreView(), env.markers, h, next, started, replayOnly, world, fuel);
        var ev := h[next];
        next := next + 1;
        lastEventId := ev.id;
        if ev.attrs.TaskStarted? && started != 0 && ev.id == started {
          var err := RunLive(ev.time, replayOnly, world, fuel);
          return if err.Some? then Err(err.value) else Ok(true);
        }
        var err := FeedEvent(h, next - 1, world, fuel);
        if err.Some? { return Err(err.value); }
      }
      FeedEnds(workflow, CoreView(), env.markers, h, next, started, replayOnly, world, fuel);
      return Ok(false);
    }

    method RunLive(time: Time, replayOnly: bool, world: World, fuel: nat) returns (err: Option<Error>)
      modifies this, env
      ensures env.markers == old(env.markers)
      ensures next == old(next) && markerScan == old(markerScan) && lastEventId == old(lastEventId) && poisoned == old(poisoned)
      ensures
        match RunCode(workflow, old(CoreView()).(env := Advance(old(CoreView()).env, time)), env.markers, replayOnly, world, fuel)
        case Ok(c) => err.None? && CoreView() == c
        case Err(e) => err == Some(e)
    {
      hide RunCode, Advance;
      env.AdvanceTime(time);
      env.replaying := replayOnly;
      err := Run(world, fuel);
    }

    /** One workflow task: replay up to its started event from the cursor, run that one live, return the batch. */
    method ProcessTask(h: seq<Event>, started: int, replayOnly: bool, world: World, fuel: nat) returns (r: Result<seq<Command>>)
      modifies this, env
      ensures
        var p := Sdk.ProcessTask(workflow, old(View()), h, started, replayOnly, world, fuel);
        r == p.result && poisoned == p.instance.poisoned && (r.Ok? ==> View() == p.instance)
    {
      hide Feed, Preload;
      if poisoned { return Err(ErrPoisoned); }
      if h == [] { return Err(ErrNoHistory); }
      PreloadMarkers(h);
      var live := FeedHistory(h, started, replayOnly, world, fuel);
      if live.Err? {
        poisoned := true;
        return Err(live.error);
      }
      if live.value { return Ok(Batch(env.outstanding)); }
      if started != 0 { return Err(ErrNoStartedEvent); }
      if env.outstanding != [] {
        poisoned := true;
        return Err(ErrNonDeterminism);
      }
      return Ok([]);
    }
  }

  lemma FeedStep<P>(w: Workflow<P>, c: Core<P>, m: Markers, h: seq<Event>, i: nat, started: int, replayOnly: bool, world: World, fuel: nat)
    requires i < |h|
    ensures
      var f := Feed(w, c, m, h, i, started, replayOnly, world, fuel);
      if h[i].attrs.TaskStarted? && started != 0 && h[i].id == started then
        match RunCode(w, c.(env := Advance(c.env, h[i].time)), m, replayOnly, world, fuel)
        case Ok(c1) => f == Ok(Fed(c1, i + 1, true))
        case Err(e) => f == Err(e)
      else
        match ReplayEvent(w, c, m, h, i, world, fuel)
        case Ok(c1) => f == Feed(w, c1, m, h, i + 1, started, replayOnly, world, fuel)
        case Err(e) => f == Err(e)
  {
    hide ReplayEvent, RunCode;
  }

  lemma FeedEnds<P>(w: Workflow<P>, c: Core<P>, m: Markers, h: seq<Event>, i: nat, started: int, replayOnly: bool, world: World, fuel: nat)
    requires i >= |h|
    ensures Feed(w, c, m, h, i, started, replayOnly, world, fuel) == Ok(Fed(c, i, false))
  {
  }
}
