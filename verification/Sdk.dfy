/** The workflow side as functions: environment, command production and event application (internal/workflow). */
module Sdk {
  import opened Prelude
  import opened RetryPolicy
  import opened History

  const MARKER_SIDE_EFFECT := "SideEffect"
  const MARKER_VERSION := "Version"
  const MARKER_LOCAL_ACTIVITY := "LocalActivity"
  const DEFAULT_VERSION := -1
  const DEFAULT_START_TO_CLOSE: Duration := 30 * SECOND

  // ------------------------------------------------------------------
  // Workflow code: a deterministic machine that asks the environment
  // ------------------------------------------------------------------

  /** An error as workflow code sees it. */
  datatype Problem =
    | App(failure: Failure) | Raw(message: string) | CanceledProblem(details: Payload)
    | TimeoutProblem(kind: TimeoutKind, details: Payload)

  function AsApplication(p: Problem): Failure {
    match p
    case App(f) => f
    case Raw(m) => Failure("", m, false)
    case CanceledProblem(_) => Failure("", "skald: canceled", false)
    case TimeoutProblem(k, _) => Failure("", "skald: activity timed out (" + TimeoutName(k) + ")", false)
  }

  datatype Answer = Answer(value: Payload, problem: Option<Problem>)

  /** What workflow code may ask; a scope is a cancellable context and a promise is a future. */
  datatype Call =
    | OpenScope(parent: nat)
    | CancelScope(scope: nat)
    | ScopeCanceled(scope: nat)
    | ExecuteActivity(scope: nat, activityId: string, options: ActivityOptions)
    | NewTimer(scope: nat, duration: Duration)
    | Poll(promise: nat)
    | TryReceive(signal: string)
    | Now
    | SideEffect
    | MutableSideEffect(id: string, same: (Payload, Payload) -> bool)
    | GetVersion(changeId: string, minSupported: int, maxSupported: int)
    | LocalActivity

  datatype Reply =
    | Woken | Done | Scoped(scope: nat) | Flag(yes: bool) | Promised(promise: nat) | Pending | Settled(answer: Answer)
    | Received(input: Payload) | Nothing | Instant(time: Time) | Value(answer: Answer) | Version(version: int)

  /** How the workflow function returns. */
  datatype Return =
    | Returned(result: Payload)
    | ContinuedAsNew(workflowType: string, taskQueue: string, input: Payload, runTimeout: Duration)
    | FailedWith(problem: Problem)

  /** `Block` is the point where every coroutine waits; the next workflow task resumes there. */
  datatype Action = Return(ret: Return) | Panic | Block | Ask(call: Call)

  /** Workflow code with its scheduler: any number of coroutines run by a deterministic dispatcher is one such machine. */
  datatype Workflow<!P> = Workflow(begin: (StartAttrs, Time) -> P, next: P -> Action, resume: (P, Reply) -> P)

  // ------------------------------------------------------------------
  // The environment
  // ------------------------------------------------------------------

  datatype HandleKind = ActivityHandle | TimerHandle

  /** One activity or timer from command to resolution; `scope` is the context that would cancel it. */
  datatype Handle = Handle(
    kind: HandleKind, name: string, eventId: int, closedByServer: bool, canceled: bool,
    scope: Option<nat>, outcome: Option<Answer>)

  datatype Scope = Scope(parent: Option<nat>, canceled: bool)

  /** A command not yet confirmed by an event, and the handle that event binds. */
  datatype Outstanding = Outstanding(cmd: Command, bind: Option<nat>)

  datatype Recorded = Recorded(details: Payload, failure: Option<Failure>)

  type Markers = map<MarkerKey, Recorded>

  /** Scopes, handles and the queue of commands. The two maps find a handle by its scheduled or started event. */
  datatype Desk = Desk(
    scopes: seq<Scope>, handles: seq<Handle>, activities: map<int, nat>, timers: map<int, nat>,
    outstanding: seq<Outstanding>, pendingCancels: seq<nat>, activitySeq: nat, timerSeq: nat, closed: bool)

  /** Counters and caches behind the marker calls. `log` remembers what every call that consults the marker index came
      to: the marker it recorded, or none. */
  datatype Book = Book(
    sideSeq: nat, localSeq: nat, mutableSeq: map<string, nat>, versions: map<string, int>, mutables: map<string, Payload>,
    log: map<MarkerKey, Option<Recorded>>)

  /** The environment without what it was told about the history: its marker index and its replaying flag. */
  datatype Env = Env(start: StartAttrs, startedAt: Time, now: Time, desk: Desk, signals: map<string, seq<Payload>>, book: Book)

  /** The environment and where the code stands, once it has begun. */
  datatype Core<P> = Core(code: Option<P>, env: Env)

  const NO_START := StartAttrs("", "", NoPayload, 0, 0, 0, None, 0, "", "", 0)
  const EMPTY_DESK := Desk([Scope(None, false)], [], map[], map[], [], [], 0, 0, false)
  const EMPTY_BOOK := Book(0, 0, map[], map[], map[], map[])

  /** A cold environment: one root scope and nothing else. */
  function Fresh<P>(): Core<P> { Core(None, Env(NO_START, 0, 0, EMPTY_DESK, map[], EMPTY_BOOK)) }

  function Batch(outstanding: seq<Outstanding>): (cmds: seq<Command>)
    ensures |cmds| == |outstanding|
    ensures forall i :: 0 <= i < |cmds| ==> cmds[i] == outstanding[i].cmd
  {
    seq(|outstanding|, i requires 0 <= i < |outstanding| => outstanding[i].cmd)
  }

  /** Nothing is queued once the closing command is. */
  function Enqueue(d: Desk, cmd: Command, bind: Option<nat>): Desk {
    if d.closed then d else d.(outstanding := d.outstanding + [Outstanding(cmd, bind)])
  }

  /** A call that leaves a marker, and one that leaves none. */
  function Mark(e: Env, key: MarkerKey, r: Recorded): Env {
    if e.desk.closed then e
    else e.(book := e.book.(log := e.book.log[key := Some(r)]),
            desk := Enqueue(e.desk, RecordMarker(key, r.details, r.failure), None))
  }

  function Unmarked(e: Env, key: MarkerKey): Env { e.(book := e.book.(log := e.book.log[key := None])) }

  // ----- cancellation -----

  function CancelCommand(h: Handle): Command {
    if h.kind.ActivityHandle? then RequestCancelActivity(h.eventId) else CancelTimer(h.eventId)
  }

  /** Asks the server to cancel, unless it has resolved the thing already or never heard of it. */
  function Emit(d: Desk, k: nat): Desk
    requires k < |d.handles|
  {
    if d.handles[k].closedByServer || d.handles[k].eventId == 0 then d else Enqueue(d, CancelCommand(d.handles[k]), None)
  }

  function Settle(h: Handle, a: Answer): Handle {
    if h.outcome.Some? then h else h.(outcome := Some(a))
  }

  const CANCELED := Answer(NoPayload, Some(CanceledProblem(NoPayload)))

  /** Cancels one handle; the command waits while history is being applied or the target has no event. */
  function CancelHandle(d: Desk, k: nat, applying: bool): (r: Desk)
    requires k < |d.handles|
    ensures |r.scopes| == |d.scopes| && |r.handles| == |d.handles|
  {
    var h := d.handles[k];
    if h.canceled then d
    else
      var d1 := d.(handles := d.handles[k := Settle(h.(canceled := true, scope := None), CANCELED)]);
      if h.eventId == 0 || applying then d1.(pendingCancels := d1.pendingCancels + [k]) else Emit(d1, k)
  }

  /** Handlers of scope `i` from handle `k` on, in registration order. */
  function CancelHandles(d: Desk, i: nat, k: nat, applying: bool): (r: Desk)
    ensures |r.scopes| == |d.scopes| && |r.handles| == |d.handles|
    decreases |d.handles| - k
  {
    if k >= |d.handles| then d
    else if d.handles[k].scope == Some(i) then CancelHandles(CancelHandle(d, k, applying), i, k + 1, applying)
    else CancelHandles(d, i, k + 1, applying)
  }

  /** Children of scope `i` from scope `j` on, in creation order. */
  function CancelChildren(d: Desk, i: nat, j: nat, applying: bool): (r: Desk)
    requires i < j
    ensures |r.scopes| == |d.scopes| && |r.handles| == |d.handles|
    decreases if i < |d.scopes| then |d.scopes| - i else 0, 0, if j < |d.scopes| then |d.scopes| - j else 0
  {
    if j >= |d.scopes| then d
    else if d.scopes[j].parent == Some(i) then CancelChildren(CancelTree(d, j, applying), i, j + 1, applying)
    else CancelChildren(d, i, j + 1, applying)
  }

  /** Cancels a scope: the whole subtree first, then its own handlers. */
  function CancelTree(d: Desk, i: nat, applying: bool): (r: Desk)
    ensures |r.scopes| == |d.scopes| && |r.handles| == |d.handles|
    decreases if i < |d.scopes| then |d.scopes| - i else 0, 1, 0
  {
    if i >= |d.scopes| || d.scopes[i].canceled then d
    else
      var d1 := d.(scopes := d.scopes[i := d.scopes[i].(canceled := true)]);
      CancelHandles(CancelChildren(d1, i, i + 1, applying), i, 0, applying)
  }

  /** The cancellations that had to wait, emitted in the order they were raised. */
  function EmitAll(d: Desk, ks: seq<nat>): Desk
    decreases |ks|
  {
    if ks == [] then d
    else if ks[0] < |d.handles| then EmitAll(Emit(d, ks[0]), ks[1..])
    else EmitAll(d, ks[1..])
  }

  function FlushCancels(d: Desk): Desk {
    EmitAll(d.(pendingCancels := []), d.pendingCancels)
  }

  // ------------------------------------------------------------------
  // Calls
  // ------------------------------------------------------------------

  datatype Answered = Answered(env: Env, reply: Reply)

  /** Answers of code outside the workflow, by kind of call and marker. */
  datatype EffectKind = Plain | Mutable | Local
  type World = (EffectKind, MarkerKey) -> Answer

  predicate IsCanceled(scopes: seq<Scope>, i: nat) { i < |scopes| && scopes[i].canceled }

  function RecordAnswer(a: Answer): Recorded {
    Recorded(a.value, if a.problem.Some? then Some(AsApplication(a.problem.value)) else None)
  }

  /** What a recorded marker reads back as. */
  function ReadBack(r: Recorded): Answer {
    if r.failure.Some? then Answer(NoPayload, Some(App(r.failure.value))) else Answer(r.details, None)
  }

  function SideKey(n: nat): (key: MarkerKey)
    ensures key.name != ""
  {
    MarkerKey(MARKER_SIDE_EFFECT, Itoa(n))
  }

  function LocalKey(n: nat): (key: MarkerKey)
    ensures key.name != ""
  {
    MarkerKey(MARKER_LOCAL_ACTIVITY, Itoa(n))
  }

  function MutableKey(id: string, n: nat): (key: MarkerKey)
    ensures key.name != ""
  {
    MarkerKey(MARKER_SIDE_EFFECT, id + ":" + Itoa(n))
  }

  function VersionKey(id: string): (key: MarkerKey)
    ensures key.name != ""
  {
    MarkerKey(MARKER_VERSION, id)
  }

  function CallsOf(seqs: map<string, nat>, id: string): nat { if id in seqs then seqs[id] else 0 }

  /** A fresh handle on the desk, and the promise of it. */
  function NewHandle(e: Env, d: Desk, h: Handle): Answered {
    Answered(e.(desk := d.(handles := d.handles + [h])), Promised(|d.handles|))
  }

  /** The scope a handle registers with; a disconnected context has none. */
  function Registers(d: Desk, scope: nat): Option<nat> {
    if scope < |d.scopes| then Some(scope) else None
  }

  function ActivityName(n: nat): string { "act_" + Itoa(n) }
  function TimerName(n: nat): string { "timer_" + Itoa(n) }

  /** An activity with no upper bound at all gets one. */
  function Bounded(o: ActivityOptions): ActivityOptions {
    if o.scheduleToClose <= 0 && o.startToClose <= 0 then o.(startToClose := DEFAULT_START_TO_CLOSE) else o
  }

  function DoExecuteActivity(e: Env, scope: nat, activityId: string, o: ActivityOptions): Answered {
    var d := if activityId == "" then e.desk.(activitySeq := e.desk.activitySeq + 1) else e.desk;
    var name := if activityId == "" then ActivityName(d.activitySeq) else activityId;
    if IsCanceled(d.scopes, scope) then
      NewHandle(e, d, Handle(ActivityHandle, name, 0, false, false, None, Some(CANCELED)))
    else
      NewHandle(e, Enqueue(d, ScheduleActivity(name, Bounded(o)), Some(|d.handles|)),
                Handle(ActivityHandle, name, 0, false, false, Registers(d, scope), None))
  }

  function DoNewTimer(e: Env, scope: nat, duration: Duration): Answered {
    var d := e.desk.(timerSeq := e.desk.timerSeq + 1);
    var name := TimerName(d.timerSeq);
    if IsCanceled(d.scopes, scope) then
      NewHandle(e, d, Handle(TimerHandle, name, 0, false, false, None, Some(CANCELED)))
    else if duration <= 0 then
      NewHandle(e, d, Handle(TimerHandle, name, 0, false, false, None, Some(Answer(NoPayload, None))))
    else
      NewHandle(e, Enqueue(d, StartTimer(name, duration), Some(|d.handles|)),
                Handle(TimerHandle, name, 0, false, false, Registers(d, scope), None))
  }

  /** A side effect or a local activity: read back from its marker, or run once and recorded. */
  function DoOnce(e: Env, kind: EffectKind, key: MarkerKey, m: Markers, replaying: bool, world: World): Result<Answered> {
    if key in m then Ok(Answered(Mark(e, key, m[key]), Value(ReadBack(m[key]))))
    else if replaying then Err(ErrNonDeterminism)
    else
      var a := world(kind, key);
      var seen := if kind.Local? && a.problem.Some? then Answer(NoPayload, a.problem) else a;
      Ok(Answered(Mark(e, key, RecordAnswer(a)), Value(seen)))
  }

  function Remember(e: Env, id: string, p: Payload): Env { e.(book := e.book.(mutables := e.book.mutables[id := p])) }

  function DoMutable(e: Env, id: string, same: (Payload, Payload) -> bool, m: Markers, replaying: bool, world: World)
    : Result<Answered>
  {
    var n := CallsOf(e.book.mutableSeq, id) + 1;
    var key := MutableKey(id, n);
    var e1 := e.(book := e.book.(mutableSeq := e.book.mutableSeq[id := n]));
    var known := e.book.mutables;
    if key in m then Ok(Answered(Remember(Mark(e1, key, m[key]), id, m[key].details), Value(ReadBack(m[key]))))
    else if replaying then
      if id in known then Ok(Answered(Unmarked(e1, key), Value(Answer(known[id], None)))) else Err(ErrNonDeterminism)
    else
      var a := world(Mutable, key);
      if a.problem.Some? then
        Ok(Answered(Mark(e1, key, Recorded(NoPayload, Some(AsApplication(a.problem.value)))),
                    Value(Answer(NoPayload, a.problem))))
      else if id in known && same(known[id], a.value) then
        Ok(Answered(Unmarked(e1, key), Value(Answer(known[id], None))))
      else
        Ok(Answered(Mark(Remember(e1, id, a.value), key, Recorded(a.value, None)), Value(Answer(a.value, None))))
  }

  function CheckRange(e: Env, v: int, lo: int, hi: int): Result<Answered> {
    if v < lo || v > hi then Err(ErrNonDeterminism) else Ok(Answered(e, Version(v)))
  }

  function Pin(e: Env, id: string, v: int): Env { e.(book := e.book.(versions := e.book.versions[id := v])) }

  function DoGetVersion(e: Env, id: string, lo: int, hi: int, m: Markers, replaying: bool): Result<Answered> {
    var key := VersionKey(id);
    if id in e.book.versions then CheckRange(e, e.book.versions[id], lo, hi)
    else if key in m then
      if !m[key].details.Number? then Err(ErrNonDeterminism)
      else CheckRange(Mark(Pin(e, id, m[key].details.n), key, Recorded(m[key].details, None)), m[key].details.n, lo, hi)
    else if replaying then
      if lo > DEFAULT_VERSION then Err(ErrNonDeterminism)
      else Ok(Answered(Unmarked(Pin(e, id, DEFAULT_VERSION), key), Version(DEFAULT_VERSION)))
    else Ok(Answered(Mark(Pin(e, id, hi), key, Recorded(Number(hi), None)), Version(hi)))
  }

  /** Calls that consult the marker index. */
  predicate MarkerCall(call: Call) { call.SideEffect? || call.MutableSideEffect? || call.GetVersion? || call.LocalActivity? }

  function DoOpenScope(d: Desk, p: nat): Desk {
    d.(scopes := d.scopes + [Scope(if p < |d.scopes| && !d.scopes[p].canceled then Some(p) else None, IsCanceled(d.scopes, p))])
  }

  /** The other calls neither read the marker index nor depend on the replaying flag. */
  function DoPlain(e: Env, call: Call): Answered
    requires !MarkerCall(call)
  {
    match call
    case OpenScope(p) => Answered(e.(desk := DoOpenScope(e.desk, p)), Scoped(|e.desk.scopes|))
    case CancelScope(i) => Answered(e.(desk := CancelTree(e.desk, i, false)), Done)
    case ScopeCanceled(i) => Answered(e, Flag(IsCanceled(e.desk.scopes, i)))
    case ExecuteActivity(scope, aid, o) => DoExecuteActivity(e, scope, aid, o)
    case NewTimer(scope, d) => DoNewTimer(e, scope, d)
    case Poll(k) =>
      Answered(e, if k < |e.desk.handles| && e.desk.handles[k].outcome.Some? then Settled(e.desk.handles[k].outcome.value)
                  else Pending)
    case TryReceive(name) =>
      if name in e.signals && e.signals[name] != [] then
        Answered(e.(signals := e.signals[name := e.signals[name][1..]]), Received(e.signals[name][0]))
      else Answered(e, Nothing)
    case Now => Answered(e, Instant(e.now))
  }

  function NextSide(e: Env): Env { e.(book := e.book.(sideSeq := e.book.sideSeq + 1)) }
  function NextLocal(e: Env): Env { e.(book := e.book.(localSeq := e.book.localSeq + 1)) }

  function Perform(e: Env, call: Call, m: Markers, replaying: bool, world: World): Result<Answered> {
    match call
    case SideEffect => DoOnce(NextSide(e), Plain, SideKey(e.book.sideSeq + 1), m, replaying, world)
    case LocalActivity => DoOnce(NextLocal(e), Local, LocalKey(e.book.localSeq + 1), m, replaying, world)
    case MutableSideEffect(id, same) => DoMutable(e, id, same, m, replaying, world)
    case GetVersion(id, lo, hi) => DoGetVersion(e, id, lo, hi, m, replaying)
    case _ => Ok(DoPlain(e, call))
  }

  /** The closing command of a return. */
  function ClosingCommand(ret: Return): Command {
    match ret
    case Returned(result) => CompleteWorkflow(result)
    case ContinuedAsNew(typ, queue, input, timeout) => Command.ContinueAsNew(typ, queue, input, timeout, 0, None)
    case FailedWith(CanceledProblem(details)) => CancelWorkflow(details)
    case FailedWith(p) => FailWorkflow(Some(AsApplication(p)))
  }

  function Complete(d: Desk, ret: Return): Desk {
    Enqueue(d, ClosingCommand(ret), None).(closed := true)
  }

  /** Runs workflow code until it blocks, returns or fails; `fuel` stands for the deadlock deadline. */
  function Steps<P>(w: Workflow<P>, e: Env, p: P, m: Markers, replaying: bool, world: World, fuel: nat): Result<Core<P>>
    decreases fuel
  {
    if fuel == 0 then Err(ErrDeadlock)
    else
      match w.next(p)
      case Return(ret) => Ok(Core(Some(p), e.(desk := Complete(e.desk, ret))))
      case Panic => Err(ErrPanic)
      case Block => Ok(Core(Some(w.resume(p, Woken)), e))
      case Ask(call) =>
        match Perform(e, call, m, replaying, world)
        case Ok(a) => Steps(w, a.env, w.resume(p, a.reply), m, replaying, world, fuel - 1)
        case Err(x) => Err(x)
  }

  /** One run: start the code if need be, emit what had to wait, then execute until everything is blocked. */
  function RunCode<P>(w: Workflow<P>, c: Core<P>, m: Markers, replaying: bool, world: World, fuel: nat): Result<Core<P>> {
    var e := c.env.(desk := FlushCancels(c.env.desk));
    if e.desk.closed then Ok(c.(env := e))
    else Steps(w, e, if c.code.Some? then c.code.value else w.begin(e.start, e.startedAt), m, replaying, world, fuel)
  }

  // ------------------------------------------------------------------
  // Event application
  // ------------------------------------------------------------------

  /** The command is the one that produced the event. */
  predicate Matches(cmd: Command, a: Attrs) {
    match a
    case ActivityScheduled(aid, o, _) =>
      cmd.ScheduleActivity? && cmd.activityId == aid && cmd.options.activityType == o.activityType
    case ActivityCancelRequested(sched, _) => cmd.RequestCancelActivity? && cmd.scheduledId == sched
    case TimerStarted(tid, d, _) => cmd.StartTimer? && cmd.timerId == tid && cmd.duration == d
    case TimerCanceled(_, st, _) => cmd.CancelTimer? && cmd.startedId == st
    case MarkerRecorded(k, _, _, _) => cmd.RecordMarker? && cmd.key == k
    case ExecutionCompleted(_, _) => cmd.CompleteWorkflow?
    case ExecutionFailed(_, _, _) => cmd.FailWorkflow?
    case ExecutionCanceled(_, _) => cmd.CancelWorkflow?
    case ExecutionContinuedAsNew(_, _, _, _, _, _, _, _) => cmd.ContinueAsNew?
    case _ => false
  }

  predicate CommandDerived(a: Attrs) {
    a.ActivityScheduled? || a.ActivityCancelRequested? || a.TimerStarted? || a.TimerCanceled? || a.MarkerRecorded?
    || a.ExecutionCompleted? || a.ExecutionFailed? || a.ExecutionCanceled? || a.ExecutionContinuedAsNew?
  }

  function Bind(d: Desk, bind: Option<nat>, id: int): Desk {
    if bind.None? || bind.value >= |d.handles| then d
    else
      var k := bind.value;
      var d1 := d.(handles := d.handles[k := d.handles[k].(eventId := id)]);
      if d.handles[k].kind.ActivityHandle? then d1.(activities := d.activities[id := k]) else d1.(timers := d.timers[id := k])
  }

  /** Pairs a command-derived event with the head of the queue. */
  function MatchCommand(d: Desk, ev: Event): Result<Desk> {
    if d.outstanding == [] || !Matches(d.outstanding[0].cmd, ev.attrs) then Err(ErrNonDeterminism)
    else Ok(Bind(d.(outstanding := d.outstanding[1..]), d.outstanding[0].bind, ev.id))
  }

  function CloseHandle(d: Desk, known: map<int, nat>, id: int, a: Option<Answer>): Desk {
    if id !in known || known[id] >= |d.handles| then d
    else
      var k := known[id];
      var h := d.handles[k].(closedByServer := true);
      d.(handles := d.handles[k := if a.Some? then Settle(h.(scope := None), a.value) else h])
  }

  function ActivityFailure(f: Option<Failure>): Problem {
    if f.None? then App(Failure("", "activity failed without a failure detail", false)) else App(f.value)
  }

  /** How an event that resolves an activity reads to the code that waits for it. */
  function ActivityAnswer(a: Attrs): Option<Answer> {
    match a
    case ActivityCompleted(_, _, result) => Some(Answer(result, None))
    case ActivityFailed(_, _, f, _) => Some(Answer(NoPayload, Some(ActivityFailure(f))))
    case ActivityTimedOut(_, _, kind, details) => Some(Answer(NoPayload, Some(TimeoutProblem(kind, details))))
    case ActivityCanceled(_, _, details) => Some(Answer(NoPayload, Some(CanceledProblem(details))))
    case _ => None
  }

  function ApplyToDesk(d: Desk, ev: Event): Result<Desk> {
    match ev.attrs
    case TimerFired(_, st) => Ok(CloseHandle(d, d.timers, st, Some(Answer(NoPayload, None))))
    case TimerCanceled(_, st, _) =>
      (match MatchCommand(d, ev)
       case Ok(d1) => Ok(CloseHandle(d1, d1.timers, st, None))
       case Err(x) => Err(x))
    case CancelRequested(_) => Ok(CancelTree(d, 0, true))
    case _ =>
      if ActivityAnswer(ev.attrs).Some? then
        Ok(CloseHandle(d, d.activities, ev.attrs.scheduledId, ActivityAnswer(ev.attrs)))
      else if CommandDerived(ev.attrs) then MatchCommand(d, ev)
      else Ok(d)
  }

  function Advance(e: Env, t: Time): Env { if t > e.now then e.(now := t) else e }

  function ApplyEvent(e: Env, ev: Event): Result<Env> {
    match ev.attrs
    case ExecutionStarted(st) => Ok(Advance(e.(start := st, startedAt := ev.time), ev.time))
    case Signaled(name, input) =>
      Ok(e.(signals := e.signals[name := (if name in e.signals then e.signals[name] else []) + [input]]))
    case _ =>
      match ApplyToDesk(e.desk, ev)
      case Ok(d) => Ok(e.(desk := d))
      case Err(x) => Err(x)
  }

  // ------------------------------------------------------------------
  // Feeding a history
  // ------------------------------------------------------------------

  /** The markers among the first `n` events; a later one replaces an earlier one of the same key. */
  function MarkersIn(h: seq<Event>, n: nat): Markers
    requires n <= |h|
  {
    if n == 0 then map[]
    else
      match h[n - 1].attrs
      case MarkerRecorded(k, details, failure, _) => MarkersIn(h, n - 1)[k := Recorded(details, failure)]
      case _ => MarkersIn(h, n - 1)
  }

  /** Only the event right after the started one is looked at. */
  predicate CompletedNext(h: seq<Event>, i: nat) { i + 1 < |h| && h[i + 1].attrs.TaskCompleted? }

  /** One history event replayed. */
  function ReplayEvent<P>(w: Workflow<P>, c: Core<P>, m: Markers, h: seq<Event>, i: nat, world: World, fuel: nat): Result<Core<P>>
    requires i < |h|
  {
    if h[i].attrs.TaskStarted? then
      var c1 := c.(env := Advance(c.env, h[i].time));
      if CompletedNext(h, i) then RunCode(w, c1, m, true, world, fuel) else Ok(c1)
    else
      match ApplyEvent(c.env, h[i])
      case Ok(e) => Ok(c.(env := e))
      case Err(x) => Err(x)
  }

  /** Replays events `i` to `n` of `h`. */
  function ReplayRange<P>(w: Workflow<P>, c: Core<P>, m: Markers, h: seq<Event>, i: nat, n: nat, world: World, fuel: nat)
    : Result<Core<P>>
    requires i <= n <= |h|
    decreases n - i
  {
    if i == n then Ok(c)
    else
      match ReplayRange(w, c, m, h, i, n - 1, world, fuel)
      case Ok(c1) => ReplayEvent(w, c1, m, h, n - 1, world, fuel)
      case Err(e) => Err(e)
  }

  /** What feeding stops with: the environment, the cursor and whether the live task was reached. */
  datatype Fed<P> = Fed(core: Core<P>, next: nat, live: bool)

  /** The feeding loop from cursor `i`; the started event named by the task runs live and ends it. */
  function Feed<P>(w: Workflow<P>, c: Core<P>, m: Markers, h: seq<Event>, i: nat, started: int, replayOnly: bool,
                   world: World, fuel: nat): Result<Fed<P>>
    decreases |h| - i
  {
    if i >= |h| then Ok(Fed(c, i, false))
    else if h[i].attrs.TaskStarted? && started != 0 && h[i].id == started then
      match RunCode(w, c.(env := Advance(c.env, h[i].time)), m, replayOnly, world, fuel)
      case Ok(c1) => Ok(Fed(c1, i + 1, true))
      case Err(e) => Err(e)
    else
      match ReplayEvent(w, c, m, h, i, world, fuel)
      case Ok(c1) => Feed(w, c1, m, h, i + 1, started, replayOnly, world, fuel)
      case Err(e) => Err(e)
  }

  /** A workflow instance between tasks. */
  datatype Instance<P> = Instance(core: Core<P>, markers: Markers, scanned: nat, next: nat, lastEventId: int, poisoned: bool)

  function NewInstance<P>(): Instance<P> { Instance(Fresh(), map[], 0, 0, 0, false) }

  /** Adds the markers of the events from `from` on. */
  function Preload(m: Markers, h: seq<Event>, from: nat): Markers
    decreases |h| - from
  {
    if from >= |h| then m
    else
      match h[from].attrs
      case MarkerRecorded(k, details, failure, _) => Preload(m[k := Recorded(details, failure)], h, from + 1)
      case _ => Preload(m, h, from + 1)
  }

  datatype Processed<P> = Processed(instance: Instance<P>, result: Result<seq<Command>>)

  function Poison<P>(i: Instance<P>): Instance<P> { i.(poisoned := true) }

  /** One workflow task: the instance it leaves and the batch to send, or why there is none. */
  function ProcessTask<P>(w: Workflow<P>, inst: Instance<P>, h: seq<Event>, started: int, replayOnly: bool,
                          world: World, fuel: nat): Processed<P>
  {
    if inst.poisoned then Processed(inst, Err(ErrPoisoned))
    else if h == [] then Processed(inst, Err(ErrNoHistory))
    else
      var m := Preload(inst.markers, h, inst.scanned);
      var scanned := if inst.scanned < |h| then |h| else inst.scanned;
      match Feed(w, inst.core, m, h, inst.next, started, replayOnly, world, fuel)
      case Err(e) => Processed(Poison(inst.(markers := m, scanned := scanned)), Err(e))
      case Ok(fed) =>
        var last := if inst.next < fed.next <= |h| then h[fed.next - 1].id else inst.lastEventId;
        var inst' := Instance(fed.core, m, scanned, fed.next, last, false);
        if fed.live then Processed(inst', Ok(Batch(fed.core.env.desk.outstanding)))
        else if started != 0 then Processed(inst', Err(ErrNoStartedEvent))
        else if fed.core.env.desk.outstanding != [] then Processed(Poison(inst'), Err(ErrNonDeterminism))
        else Processed(inst', Ok([]))
  }
}
