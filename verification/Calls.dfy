/** What each call of workflow code asks of the server and is answered at once, and how commands and events recognise each
    other. */
module Calls {
  import opened Prelude
  import opened RetryPolicy
  import opened History
  import opened Sdk

  // ------------------------------------------------------------------
  // Activities and timers
  // ------------------------------------------------------------------

  /** A call added exactly one handle, and exactly these commands. */
  predicate Adds(d: Desk, a: Answered, x: Handle, more: seq<Command>) {
    && a.reply == Promised(|d.handles|)
    && a.env.desk.handles == d.handles + [x]
    && |a.env.desk.outstanding| == |d.outstanding| + |more| && d.outstanding <= a.env.desk.outstanding
    && (forall i :: 0 <= i < |more| ==> a.env.desk.outstanding[|d.outstanding| + i] == Outstanding(more[i], Some(|d.handles|)))
    && a.env.desk.scopes == d.scopes && a.env.desk.pendingCancels == d.pendingCancels && a.env.desk.closed == d.closed
  }

  predicate CanceledScope(d: Desk, i: nat) { i < |d.scopes| && d.scopes[i].canceled }

  /** An activity call in a live scope queues its command with the caller's options, except that one with no upper bound gets
      thirty seconds to run; the future waits and is registered with the scope. In a canceled scope the future is canceled from
      the start and nothing is queued; nor is anything once the workflow has closed. Unnamed activities are numbered. */
  lemma ExecuteActivityAsks(e: Env, scope: nat, aid: string, o: ActivityOptions)
    ensures
      var a := DoExecuteActivity(e, scope, aid, o);
      var name := if aid != "" then aid else "act_" + Itoa(e.desk.activitySeq + 1);
      var unbounded := o.scheduleToClose <= 0 && o.startToClose <= 0;
      var asked := ScheduleActivity(name, if unbounded then o.(startToClose := 30_000_000_000) else o);
      && a.env.desk.activitySeq == (if aid != "" then e.desk.activitySeq else e.desk.activitySeq + 1)
      && a.env.desk.timerSeq == e.desk.timerSeq
      && if CanceledScope(e.desk, scope)
         then Adds(e.desk, a, Handle(ActivityHandle, name, 0, false, false, None, Some(Answer(NoPayload, Some(CanceledProblem(NoPayload))))), [])
         else Adds(e.desk, a, Handle(ActivityHandle, name, 0, false, false, if scope < |e.desk.scopes| then Some(scope) else None, None),
                   if e.desk.closed then [] else [asked])
  {
    hide Itoa;
  }

  /** The same for a timer, which is always numbered; one without a duration has fired already and needs no server. */
  lemma NewTimerAsks(e: Env, scope: nat, duration: Duration)
    ensures
      var a := DoNewTimer(e, scope, duration);
      var name := "timer_" + Itoa(e.desk.timerSeq + 1);
      && a.env.desk.timerSeq == e.desk.timerSeq + 1 && a.env.desk.activitySeq == e.desk.activitySeq
      && if CanceledScope(e.desk, scope)
         then Adds(e.desk, a, Handle(TimerHandle, name, 0, false, false, None, Some(Answer(NoPayload, Some(CanceledProblem(NoPayload))))), [])
         else if duration <= 0 then Adds(e.desk, a, Handle(TimerHandle, name, 0, false, false, None, Some(Answer(NoPayload, None))), [])
         else Adds(e.desk, a, Handle(TimerHandle, name, 0, false, false, if scope < |e.desk.scopes| then Some(scope) else None, None),
                   if e.desk.closed then [] else [StartTimer(name, duration)])
  {
    hide Itoa;
  }

  // ------------------------------------------------------------------
  // Version gates
  // ------------------------------------------------------------------

  /** The version a gate settles on: the one pinned, else the one recorded, else the oldest in a replay and the newest in a live
      run. */
  function Settled(e: Env, id: string, hi: int, m: Markers, replaying: bool): Option<int> {
    if id in e.book.versions then Some(e.book.versions[id])
    else if VersionKey(id) in m then (if m[VersionKey(id)].details.Number? then Some(m[VersionKey(id)].details.n) else None)
    else Some(if replaying then -1 else hi)
  }

  /** A gate answers the version it settles on, and pins it, exactly if there is one and it lies in the supported range; a first
      live call is not held against its own range. It leaves a marker when it settles on a number for the first time, and none
      when it is pinned already or a replay falls back to the oldest. */
  lemma GateSettles(e: Env, id: string, lo: int, hi: int, m: Markers, replaying: bool)
    requires !e.desk.closed
    ensures
      var r := DoGetVersion(e, id, lo, hi, m, replaying);
      var v := Settled(e, id, hi, m, replaying);
      var known := id in e.book.versions;
      var recorded := VersionKey(id) in m;
      var firstLive := !known && !recorded && !replaying;
      var oldest := !known && !recorded && replaying;
      && (r.Ok? <==> v.Some? && (firstLive || (lo <= v.value && (oldest || v.value <= hi))))
      && (r.Ok? ==>
            && r.value.reply == Version(v.value)
            && r.value.env.book.versions == e.book.versions[id := v.value]
            && r.value.env.desk.outstanding
               == e.desk.outstanding
                  + (if known || oldest then []
                     else [Outstanding(RecordMarker(MarkerKey("Version", id), Number(v.value), None), None)]))
      && (r.Err? ==> r.error == ErrNonDeterminism)
  {
    assert VersionKey(id) == MarkerKey("Version", id);
    assert e.desk.outstanding + [] == e.desk.outstanding;
  }

  /** Once settled a gate never changes: every later call answers the pinned version or is refused, whatever the markers say. */
  lemma GateIsPinned(e: Env, id: string, lo: int, hi: int, m: Markers, replaying: bool, lo': int, hi': int, m': Markers, replaying': bool)
    requires !e.desk.closed && DoGetVersion(e, id, lo, hi, m, replaying).Ok?
    ensures
      var first := DoGetVersion(e, id, lo, hi, m, replaying).value;
      var again := DoGetVersion(first.env, id, lo', hi', m', replaying');
      && first.reply.Version?
      && (again.Ok? <==> lo' <= first.reply.version <= hi')
      && (again.Ok? ==> again.value == Answered(first.env, first.reply))
  {
    GateSettles(e, id, lo, hi, m, replaying);
  }

  // ------------------------------------------------------------------
  // Side effects
  // ------------------------------------------------------------------

  /** The desk with one marker more, or as it was. */
  predicate LeavesMarker(d: Desk, d': Desk, marker: Option<Command>) {
    && (marker.Some? ==> d' == d.(outstanding := d.outstanding + [Outstanding(marker.value, None)]))
    && (marker.None? ==> d' == d)
  }

  /** An error as a marker records it, and as it reads back. */
  predicate RecordedAs(p: Option<Problem>, f: Option<Failure>) { p.Some? == f.Some? && (p.Some? ==> WrittenAs(p.value, f.value)) }

  function ReadsBack(m: Recorded): Answer { if m.failure.Some? then Answer(NoPayload, Some(App(m.failure.value))) else Answer(m.details, None) }

  /** A side effect or local activity reads its marker back when there is one, and leaves it again; a replay without one is
      refused; a live run asks the world, answers what it said, though never a local activity's value beside its error, and
      records value and error. */
  lemma OnceAnswers(e: Env, kind: EffectKind, key: MarkerKey, m: Markers, replaying: bool, world: World)
    requires !e.desk.closed
    ensures
      var r := DoOnce(e, kind, key, m, replaying, world);
      && (r.Err? <==> key !in m && replaying) && (r.Err? ==> r.error == ErrNonDeterminism)
      && (r.Ok? && key in m ==>
            && r.value.reply == Value(ReadsBack(m[key]))
            && LeavesMarker(e.desk, r.value.env.desk, Some(RecordMarker(key, m[key].details, m[key].failure))))
      && (r.Ok? && key !in m ==>
            var said := world(kind, key);
            && r.value.reply == Value(Answer(if kind.Local? && said.problem.Some? then NoPayload else said.value, said.problem))
            && exists f :: RecordedAs(said.problem, f) && LeavesMarker(e.desk, r.value.env.desk, Some(RecordMarker(key, said.value, f))))
  {
    if key !in m && !replaying {
      var said := world(kind, key);
      var f := RecordAnswer(said).failure;
      assert RecordedAs(said.problem, f);
    }
  }

  /** The number of this call for its id, and the marker that would answer it. */
  function NextMutable(e: Env, id: string): MarkerKey {
    MarkerKey("SideEffect", id + ":" + Itoa((if id in e.book.mutableSeq then e.book.mutableSeq[id] else 0) + 1))
  }

  /** A call that finds its marker answers it and remembers it; a replay without one repeats the value remembered, and is refused
      if there is none. */
  predicate MutableReplayed(e: Env, id: string, m: Markers, r: Result<Answered>) {
    var key, known := NextMutable(e, id), e.book.mutables;
    if key in m then
      && r.Ok? && r.value.reply == Value(ReadsBack(m[key])) && r.value.env.book.mutables == known[id := m[key].details]
      && LeavesMarker(e.desk, r.value.env.desk, Some(RecordMarker(key, m[key].details, m[key].failure)))
    else if id in known then
      && r.Ok? && r.value.reply == Value(Answer(known[id], None)) && r.value.env.book.mutables == known
      && LeavesMarker(e.desk, r.value.env.desk, None)
    else r == Err(ErrNonDeterminism)
  }

  /** A live call without a marker asks the world: a value the code calls the same as the one remembered is not recorded again and
      the remembered one is answered; any other is recorded, remembered and answered; an error is recorded and answered, but
      remembers nothing. */
  ghost predicate MutableLived(e: Env, id: string, same: (Payload, Payload) -> bool, said: Answer, r: Result<Answered>) {
    var key, known := NextMutable(e, id), e.book.mutables;
    && r.Ok?
    && var d', now := r.value.env.desk, r.value.env.book.mutables;
       if said.problem.Some? then
         && r.value.reply == Value(Answer(NoPayload, said.problem)) && now == known
         && exists f :: RecordedAs(said.problem, f) && LeavesMarker(e.desk, d', Some(RecordMarker(key, NoPayload, f)))
       else if id in known && same(known[id], said.value) then
         r.value.reply == Value(Answer(known[id], None)) && now == known && LeavesMarker(e.desk, d', None)
       else
         && r.value.reply == Value(Answer(said.value, None)) && now == known[id := said.value]
         && LeavesMarker(e.desk, d', Some(RecordMarker(key, said.value, None)))
  }

  lemma MutableReads(e: Env, id: string, same: (Payload, Payload) -> bool, m: Markers, replaying: bool, world: World)
    requires !e.desk.closed && (NextMutable(e, id) in m || replaying)
    ensures MutableReplayed(e, id, m, DoMutable(e, id, same, m, replaying, world))
  {
    assert NextMutable(e, id) == MutableKey(id, CallsOf(e.book.mutableSeq, id) + 1);
    hide Itoa, NextMutable, MutableKey;
  }

  lemma MutableLives(e: Env, id: string, same: (Payload, Payload) -> bool, m: Markers, world: World)
    requires !e.desk.closed && NextMutable(e, id) !in m
    ensures MutableLived(e, id, same, world(Mutable, NextMutable(e, id)), DoMutable(e, id, same, m, false, world))
  {
    var key := NextMutable(e, id);
    assert key == MutableKey(id, CallsOf(e.book.mutableSeq, id) + 1);
    hide Itoa, NextMutable, MutableKey, WrittenAs, AsApplication;
    var said := world(Mutable, key);
    if said.problem.Some? {
      WritesItself(said.problem.value);
      assert RecordedAs(said.problem, Some(AsApplication(said.problem.value)));
    }
  }

  lemma MutableCounts(e: Env, id: string, same: (Payload, Payload) -> bool, m: Markers, replaying: bool, world: World)
    ensures
      var r := DoMutable(e, id, same, m, replaying, world);
      r.Ok? ==> r.value.env.book.mutableSeq
                == e.book.mutableSeq[id := (if id in e.book.mutableSeq then e.book.mutableSeq[id] else 0) + 1]
  {
    hide MutableKey;
  }

  /** Which of the two a mutable side effect does; and every call counts. */
  lemma MutableSettles(e: Env, id: string, same: (Payload, Payload) -> bool, m: Markers, replaying: bool, world: World)
    requires !e.desk.closed
    ensures
      var r := DoMutable(e, id, same, m, replaying, world);
      && (if NextMutable(e, id) in m || replaying then MutableReplayed(e, id, m, r)
          else MutableLived(e, id, same, world(Mutable, NextMutable(e, id)), r))
      && (r.Ok? ==> r.value.env.book.mutableSeq
                    == e.book.mutableSeq[id := (if id in e.book.mutableSeq then e.book.mutableSeq[id] else 0) + 1])
  {
    hide DoMutable, MutableReplayed, MutableLived, NextMutable;
    MutableCounts(e, id, same, m, replaying, world);
    if NextMutable(e, id) in m || replaying {
      MutableReads(e, id, same, m, replaying, world);
    } else {
      MutableLives(e, id, same, m, world);
    }
  }

  lemma WritesItself(p: Problem)
    ensures WrittenAs(p, AsApplication(p))
  {
  }

  // ------------------------------------------------------------------
  // Returning
  // ------------------------------------------------------------------

  /** How an error is written down: an application error as it is, any other by its message. */
  predicate WrittenAs(p: Problem, f: Failure) {
    match p
    case App(g) => f == g
    case Raw(m) => f == Failure("", m, false)
    case TimeoutProblem(kind, _) => f == Failure("", "skald: activity timed out (" + TimeoutName(kind) + ")", false)
    case CanceledProblem(_) => f == Failure("", "skald: canceled", false)
  }

  predicate ClosesWith(ret: Return, c: Command) {
    match ret
    case Returned(result) => c == CompleteWorkflow(result)
    case ContinuedAsNew(typ, queue, input, timeout) => c == ContinueAsNew(typ, queue, input, timeout, 0, None)
    case FailedWith(p) =>
      if p.CanceledProblem? then c == CancelWorkflow(p.details)
      else c.FailWorkflow? && c.failure.Some? && WrittenAs(p, c.failure.value)
  }

  /** A return queues one closing command behind everything else, of the kind it calls for and with what it carries, and nothing
      is queued any more after it. */
  lemma ReturnCloses(d: Desk, ret: Return, c: Command, bind: Option<nat>)
    requires !d.closed
    ensures
      var d' := Complete(d, ret);
      && d'.closed && |d'.outstanding| == |d.outstanding| + 1 && d.outstanding <= d'.outstanding
      && d'.outstanding[|d.outstanding|].bind == None && ClosesWith(ret, d'.outstanding[|d.outstanding|].cmd)
      && Closing(d'.outstanding[|d.outstanding|].cmd)
      && d' == d.(outstanding := d'.outstanding, closed := true)
      && Enqueue(d', c, bind) == d'
  {
  }

  // ------------------------------------------------------------------
  // Commands and the events that confirm them
  // ------------------------------------------------------------------

  /** What a command and its event have in common. */
  datatype Identity =
    | AnActivity(id: string, activityType: string) | AnActivityCancel(scheduledId: int) | ATimer(id: string, duration: Duration)
    | ATimerCancel(startedId: int) | AMarker(key: MarkerKey) | ACompletion | AFailure | ACancellation | AContinuation

  function IdentityOf(c: Command): Identity {
    match c
    case ScheduleActivity(aid, o) => AnActivity(aid, o.activityType)
    case RequestCancelActivity(k) => AnActivityCancel(k)
    case StartTimer(tid, d) => ATimer(tid, d)
    case CancelTimer(k) => ATimerCancel(k)
    case CompleteWorkflow(_) => ACompletion
    case FailWorkflow(_) => AFailure
    case CancelWorkflow(_) => ACancellation
    case ContinueAsNew(_, _, _, _, _, _) => AContinuation
    case RecordMarker(key, _, _) => AMarker(key)
  }

  /** The command an event confirms, if it confirms one. */
  function Confirms(a: Attrs): Option<Identity> {
    match a
    case ActivityScheduled(aid, o, _) => Some(AnActivity(aid, o.activityType))
    case ActivityCancelRequested(k, _) => Some(AnActivityCancel(k))
    case TimerStarted(tid, d, _) => Some(ATimer(tid, d))
    case TimerCanceled(_, k, _) => Some(ATimerCancel(k))
    case MarkerRecorded(key, _, _, _) => Some(AMarker(key))
    case ExecutionCompleted(_, _) => Some(ACompletion)
    case ExecutionFailed(_, _, _) => Some(AFailure)
    case ExecutionCanceled(_, _) => Some(ACancellation)
    case ExecutionContinuedAsNew(_, _, _, _, _, _, _, _) => Some(AContinuation)
    case _ => None
  }

  /** A command matches an event exactly if the event confirms that very command. */
  lemma MatchesByIdentity(c: Command, a: Attrs)
    ensures Matches(c, a) <==> Confirms(a) == Some(IdentityOf(c))
    ensures CommandDerived(a) <==> Confirms(a).Some?
  {
  }

  /** An event that confirms a command is accepted exactly if that command heads the queue, which then moves on by one; an empty
      queue or any other command is reported as non-determinism. No other event is ever refused, or moves the queue unless it
      cancels. */
  lemma ConfirmationIsExact(e: Env, ev: Event)
    ensures
      var r := ApplyEvent(e, ev);
      var confirmed := Confirms(ev.attrs);
      && (confirmed.Some? ==>
            && (r.Ok? <==> e.desk.outstanding != [] && IdentityOf(e.desk.outstanding[0].cmd) == confirmed.value)
            && (r.Ok? ==> r.value.desk.outstanding == e.desk.outstanding[1..]))
      && (confirmed.None? ==> r.Ok? && (!ev.attrs.CancelRequested? ==> r.value.desk.outstanding == e.desk.outstanding))
      && (r.Err? ==> r.error == ErrNonDeterminism)
  {
    hide CancelTree, Matches, ActivityFailure;
    if e.desk.outstanding != [] {
      MatchesByIdentity(e.desk.outstanding[0].cmd, ev.attrs);
    }
  }
}
