/** The workflow side and the server keep the same idea of what is pending, so every batch the workflow side produces is
    one the server takes. */
module Agreement {
  import opened Prelude
  import opened History
  import opened Execution
  import opened Batches
  import opened Sdk
  import opened Determinism

  // ------------------------------------------------------------------
  // The simulation between a desk and a server state
  // ------------------------------------------------------------------

  /** A handle with an event is found under it, and is pending on the server until its resolution has been seen. */
  predicate HandleFits(d: Desk, k: nat, s: State)
    requires k < |d.handles|
  {
    var h := d.handles[k];
    var known := if h.kind.ActivityHandle? then d.activities else d.timers;
    && 0 <= h.eventId <= |s.events|
    && (h.eventId != 0 ==> h.eventId in known && known[h.eventId] == k)
    && (h.eventId != 0 && !h.closedByServer && Open(s) ==>
          if h.kind.ActivityHandle? then h.eventId in s.activities.byId else h.eventId in s.timers.byId)
  }

  predicate HandlesFit(d: Desk, s: State) {
    forall k :: 0 <= k < |d.handles| ==> HandleFits(d, k, s)
  }

  /** The names still to be handed out are in use nowhere. */
  ghost predicate NamesAhead(d: Desk, s: State) {
    && (forall n: nat :: n > d.activitySeq ==> ActivityName(n) !in s.activities.ids && ActivityName(n) !in ActivityIdsIn(Batch(d.outstanding)))
    && (forall n: nat :: n > d.timerSeq ==> TimerName(n) !in s.timers.ids && TimerName(n) !in TimerIdsIn(Batch(d.outstanding)))
  }

  /** A command that creates something binds a handle of its kind that has no event yet; no other command binds. */
  predicate BindFits(d: Desk, o: Outstanding) {
    match o.cmd
    case ScheduleActivity(_, _) =>
      o.bind.Some? && o.bind.value < |d.handles| && d.handles[o.bind.value].kind.ActivityHandle? && d.handles[o.bind.value].eventId == 0
    case StartTimer(_, _) =>
      o.bind.Some? && o.bind.value < |d.handles| && d.handles[o.bind.value].kind.TimerHandle? && d.handles[o.bind.value].eventId == 0
    case _ => o.bind.None?
  }

  predicate BindsFit(d: Desk) {
    && (forall i :: 0 <= i < |d.outstanding| ==> BindFits(d, d.outstanding[i]))
    && (forall i, j :: 0 <= i < j < |d.outstanding| && d.outstanding[i].bind.Some? ==> d.outstanding[i].bind != d.outstanding[j].bind)
  }

  /** Deferred cancellations name cancelled handles, each once. */
  predicate PendingFits(d: Desk) {
    && (forall i :: 0 <= i < |d.pendingCancels| ==> d.pendingCancels[i] < |d.handles| && d.handles[d.pendingCancels[i]].canceled)
    && (forall i, j :: 0 <= i < j < |d.pendingCancels| ==> d.pendingCancels[i] != d.pendingCancels[j])
  }

  ghost predicate Sim(d: Desk, s: State) {
    HandlesFit(d, s) && NamesAhead(d, s) && BindsFit(d) && PendingFits(d)
  }

  // ------------------------------------------------------------------
  // One event on both sides
  // ------------------------------------------------------------------

  /** Events the server writes on its own account: none of them answers a command or completes a task. */
  predicate External(a: Attrs) {
    !CommandDerived(a) && !a.TaskCompleted? && !a.ExecutionStarted?
  }

  /** What any recorded event leaves of the pending sets. */
  predicate PendingAfter(s: State, t: State, e: Event) {
    && |t.events| == |s.events| + 1
    && (Open(t) ==>
        && Open(s)
        && (forall k :: k in s.activities.byId && !(ActivityCloser(e.attrs) && e.attrs.scheduledId == k) ==> k in t.activities.byId)
        && (forall k :: k in s.timers.byId && !(TimerCloser(e.attrs) && e.attrs.startedId == k) ==> k in t.timers.byId)
        && (e.attrs.ActivityScheduled? ==> e.id in t.activities.byId)
        && (e.attrs.TimerStarted? ==> e.id in t.timers.byId))
    && (forall n :: n in t.activities.ids ==> n in s.activities.ids || (e.attrs.ActivityScheduled? && e.attrs.activityId == n))
    && (forall n :: n in t.timers.ids ==> n in s.timers.ids || (e.attrs.TimerStarted? && e.attrs.timerId == n))
  }

  lemma RecordPending(s: State, e: Event)
    requires Record(s, e).Ok?
    ensures PendingAfter(s, Record(s, e).value, e)
  {
    hide InfoFrom, OpenAttempt;
  }

  /** Nothing on the desk changes: the server may only have resolved what the desk does not hold as pending. */
  lemma HandlesFitSame(d: Desk, s: State, t: State, e: Event)
    requires HandlesFit(d, s) && PendingAfter(s, t, e) && !ActivityCloser(e.attrs) && !TimerCloser(e.attrs)
    ensures HandlesFit(d, t)
  {
    forall k | 0 <= k < |d.handles| ensures HandleFits(d, k, t) {
      assert HandleFits(d, k, s);
    }
  }

  lemma CloseFits(d: Desk, s: State, t: State, e: Event, a: Option<Answer>)
    requires HandlesFit(d, s) && PendingAfter(s, t, e) && (ActivityCloser(e.attrs) || TimerCloser(e.attrs))
    ensures
      var known := if ActivityCloser(e.attrs) then d.activities else d.timers;
      var id := if ActivityCloser(e.attrs) then e.attrs.scheduledId else e.attrs.startedId;
      HandlesFit(CloseHandle(d, known, id, a), t)
  {
    hide PendingAfter;
    var known := if ActivityCloser(e.attrs) then d.activities else d.timers;
    var id := if ActivityCloser(e.attrs) then e.attrs.scheduledId else e.attrs.startedId;
    var d' := CloseHandle(d, known, id, a);
    forall k | 0 <= k < |d'.handles| ensures HandleFits(d', k, t) {
      CloseFitsAt(d, s, t, e, a, k);
    }
  }

  lemma CloseFitsAt(d: Desk, s: State, t: State, e: Event, a: Option<Answer>, k: nat)
    requires k < |d.handles| && HandleFits(d, k, s)
    requires PendingAfter(s, t, e) && (ActivityCloser(e.attrs) || TimerCloser(e.attrs))
    ensures
      var known := if ActivityCloser(e.attrs) then d.activities else d.timers;
      var id := if ActivityCloser(e.attrs) then e.attrs.scheduledId else e.attrs.startedId;
      var d' := CloseHandle(d, known, id, a);
      k < |d'.handles| && HandleFits(d', k, t)
  {
  }

  /** Closing a handle touches neither queue nor names. */
  lemma CloseKeepsRest(d: Desk, known: map<int, nat>, id: int, a: Option<Answer>)
    ensures
      var d' := CloseHandle(d, known, id, a);
      && d' == d.(handles := d'.handles) && |d'.handles| == |d.handles|
      && forall k :: 0 <= k < |d.handles| ==>
           && d'.handles[k].kind == d.handles[k].kind && d'.handles[k].eventId == d.handles[k].eventId
           && d'.handles[k].canceled == d.handles[k].canceled
  {
  }

  /** The queue's bindings and the deferred cancellations only look at these three fields. */
  lemma RestFitsSame(d: Desk, d': Desk)
    requires BindsFit(d) && PendingFits(d)
    requires d'.outstanding == d.outstanding && d'.pendingCancels == d.pendingCancels && |d'.handles| == |d.handles|
    requires forall k :: 0 <= k < |d.handles| ==>
               && d'.handles[k].kind == d.handles[k].kind && d'.handles[k].eventId == d.handles[k].eventId
               && d'.handles[k].canceled == d.handles[k].canceled
    ensures BindsFit(d') && PendingFits(d')
  {
    forall i | 0 <= i < |d'.outstanding| ensures BindFits(d', d'.outstanding[i]) {
      assert BindFits(d, d.outstanding[i]);
    }
  }

  lemma NamesAheadAfter(d: Desk, d': Desk, s: State, t: State, e: Event)
    requires NamesAhead(d, s) && PendingAfter(s, t, e)
    requires d'.activitySeq == d.activitySeq && d'.timerSeq == d.timerSeq
    requires forall c :: c in Batch(d'.outstanding) ==> c in Batch(d.outstanding)
    requires e.attrs.ActivityScheduled? ==> e.attrs.activityId in ActivityIdsIn(Batch(d.outstanding))
    requires e.attrs.TimerStarted? ==> e.attrs.timerId in TimerIdsIn(Batch(d.outstanding))
    ensures NamesAhead(d', t)
  {
    hide ActivityName, TimerName;
    assert ActivityIdsIn(Batch(d'.outstanding)) <= ActivityIdsIn(Batch(d.outstanding));
    assert TimerIdsIn(Batch(d'.outstanding)) <= TimerIdsIn(Batch(d.outstanding));
  }

  // ------------------------------------------------------------------
  // What holds while code runs against a fixed server state
  // ------------------------------------------------------------------

  /** The handle's cancel command is not in the queue. */
  predicate Uncanceled(d: Desk, k: nat)
    requires k < |d.handles|
  {
    CancelTimer(d.handles[k].eventId) !in Batch(d.outstanding)
  }

  /** A bound timer whose cancel command may still be queued. */
  predicate CancelDue(d: Desk, k: nat, waiting: seq<nat>)
    requires k < |d.handles|
  {
    && d.handles[k].kind.TimerHandle? && d.handles[k].eventId != 0
    && (!d.handles[k].canceled || k in d.pendingCancels || k in waiting)
  }

  /** No timer is cancelled twice in the queue, and none whose cancellation is still to come has one there. */
  predicate CancelsFit(d: Desk, waiting: seq<nat>) {
    && CancelsOnce(Batch(d.outstanding))
    && forall k :: 0 <= k < |d.handles| && CancelDue(d, k, waiting) ==> Uncanceled(d, k)
  }

  predicate LegalSoFar(cmds: seq<Command>) {
    forall i :: 0 <= i < |cmds| ==> ValidCommand(cmds[i]) && !Closing(cmds[i])
  }

  /** The queue is a batch the server would take. */
  ghost predicate Takes(d: Desk, s: State, waiting: seq<nat>) {
    && Open(s)
    && Sim(d, s)
    && CancelsFit(d, waiting)
    && Precheck(s, Batch(d.outstanding))
    && LegalSoFar(Batch(d.outstanding))
  }

  lemma BatchAppend(o: seq<Outstanding>, x: Outstanding)
    ensures Batch(o + [x]) == Batch(o) + [x.cmd]
  {
  }

  lemma PrecheckAppend(s: State, cmds: seq<Command>, c: Command)
    requires Precheck(s, cmds) && PrecheckAt(s, cmds + [c], |cmds|)
    ensures Precheck(s, cmds + [c])
  {
    hide ActivityIdsIn, TimerIdsIn;
    forall i | 0 <= i < |cmds + [c]| ensures PrecheckAt(s, cmds + [c], i) {
      if i < |cmds| {
        assert PrecheckAt(s, cmds, i);
        assert (cmds + [c])[..i] == cmds[..i];
      }
    }
  }

  // ----- queueing a command that creates nothing -----

  predicate CreatesNothing(c: Command) { !c.ScheduleActivity? && !c.StartTimer? }

  lemma EnqueueSim(d: Desk, s: State, c: Command)
    requires Sim(d, s) && CreatesNothing(c)
    ensures Sim(Enqueue(d, c, None), s)
  {
    hide ActivityName, TimerName, ActivityIdsIn, TimerIdsIn;
    var d' := Enqueue(d, c, None);
    BatchAppend(d.outstanding, Outstanding(c, None));
    IdsInAppend(Batch(d.outstanding), c);
    EnqueueHandles(d, s, c);
  }

  lemma EnqueueHandles(d: Desk, s: State, c: Command)
    requires HandlesFit(d, s)
    ensures HandlesFit(Enqueue(d, c, None), s)
  {
    forall k | 0 <= k < |d.handles| ensures HandleFits(Enqueue(d, c, None), k, s) {
      assert HandleFits(d, k, s);
    }
  }

  lemma EnqueueTakes(d: Desk, s: State, c: Command, waiting: seq<nat>)
    requires Takes(d, s, waiting) && CreatesNothing(c) && !c.CancelTimer?
    requires ValidCommand(c) && !Closing(c) && (c.RequestCancelActivity? ==> c.scheduledId in s.activities.byId)
    ensures Takes(Enqueue(d, c, None), s, waiting)
  {
    hide Sim, PrecheckAt, ValidCommand, Closing;
    EnqueueSim(d, s, c);
    var cmds := Batch(d.outstanding);
    BatchAppend(d.outstanding, Outstanding(c, None));
    assert PrecheckAt(s, cmds + [c], |cmds|) by { LastPrecheck(s, cmds, c); }
    PrecheckAppend(s, cmds, c);
    CancelsFitAppend(d, c, waiting);
  }

  lemma LastPrecheck(s: State, cmds: seq<Command>, c: Command)
    requires CreatesNothing(c)
    requires c.RequestCancelActivity? ==> c.scheduledId in s.activities.byId
    requires c.CancelTimer? ==> c.startedId in s.timers.byId
    ensures PrecheckAt(s, cmds + [c], |cmds|)
  {
  }

  lemma CancelsFitAppend(d: Desk, c: Command, waiting: seq<nat>)
    requires CancelsFit(d, waiting) && !c.CancelTimer?
    ensures CancelsFit(Enqueue(d, c, None), waiting)
  {
    BatchAppend(d.outstanding, Outstanding(c, None));
    CancelsOnceAppend(Batch(d.outstanding), c);
    forall k | 0 <= k < |d.handles| && Uncanceled(d, k) ensures Uncanceled(Enqueue(d, c, None), k) {
    }
  }

  lemma CancelsOnceAppend(cmds: seq<Command>, c: Command)
    requires CancelsOnce(cmds) && (c.CancelTimer? ==> c !in cmds)
    ensures CancelsOnce(cmds + [c])
  {
  }

  /** Queueing the cancellation of a handle that was waiting for it. */
  lemma EmitTakes(d: Desk, s: State, k: nat, waiting: seq<nat>)
    requires k < |d.handles| && Takes(d, s, [k] + waiting)
    requires d.handles[k].canceled && k !in d.pendingCancels && k !in waiting
    ensures Takes(Emit(d, k), s, waiting)
    ensures Emit(d, k).handles == d.handles && Emit(d, k).pendingCancels == d.pendingCancels
  {
    hide Sim, PrecheckAt;
    var h := d.handles[k];
    assert HandleFits(d, k, s) by { SimHandle(d, s, k); }
    if h.closedByServer || h.eventId == 0 || d.closed {
      FewerWaiting(d, k, waiting);
    } else {
      var c := CancelCommand(h);
      var cmds := Batch(d.outstanding);
      BatchAppend(d.outstanding, Outstanding(c, None));
      EnqueueSim(d, s, c);
      LastPrecheck(s, cmds, c);
      PrecheckAppend(s, cmds, c);
      if h.kind.TimerHandle? {
        EmitCancels(d, s, k, waiting);
      } else {
        FewerWaiting(d, k, waiting);
        CancelsFitAppend(d, c, waiting);
      }
    }
  }

  lemma SimHandle(d: Desk, s: State, k: nat)
    requires Sim(d, s) && k < |d.handles|
    ensures HandleFits(d, k, s)
  {
  }

  lemma FewerWaiting(d: Desk, k: nat, waiting: seq<nat>)
    requires CancelsFit(d, [k] + waiting)
    ensures CancelsFit(d, waiting)
  {
    hide CancelsOnce;
    forall j | 0 <= j < |d.handles| && CancelDue(d, j, waiting)
      ensures Uncanceled(d, j)
    {
      assert j in waiting ==> j in [k] + waiting;
    }
  }

  lemma EmitCancels(d: Desk, s: State, k: nat, waiting: seq<nat>)
    requires k < |d.handles| && CancelsFit(d, [k] + waiting) && Sim(d, s) && !d.closed
    requires d.handles[k].kind.TimerHandle? && d.handles[k].eventId != 0
    requires d.handles[k].canceled && k !in d.pendingCancels && k !in waiting
    ensures CancelsFit(Enqueue(d, CancelTimer(d.handles[k].eventId), None), waiting)
  {
    hide NamesAhead, BindsFit, PendingFits, CancelsOnce;
    var c := CancelTimer(d.handles[k].eventId);
    var d' := Enqueue(d, c, None);
    BatchAppend(d.outstanding, Outstanding(c, None));
    assert k in [k] + waiting;
    assert Uncanceled(d, k);
    CancelsOnceAppend(Batch(d.outstanding), c);
    FewerWaiting(d, k, waiting);
    forall j | 0 <= j < |d.handles| && CancelDue(d, j, waiting)
      ensures Uncanceled(d', j)
    {
      assert Uncanceled(d, j);
      assert HandleFits(d, j, s) && HandleFits(d, k, s);
    }
  }

  // ----- cancelling handles and scopes -----

  /** Flipping the cancelled flag, unregistering and settling a handle. */
  function Flagged(d: Desk, k: nat): Desk
    requires k < |d.handles|
  {
    d.(handles := d.handles[k := Settle(d.handles[k].(canceled := true, scope := None), CANCELED)])
  }

  lemma FlaggedSim(d: Desk, s: State, k: nat)
    requires k < |d.handles| && Sim(d, s)
    ensures Sim(Flagged(d, k), s)
  {
    hide NamesAhead;
    var d' := Flagged(d, k);
    assert NamesAhead(d', s) by { SameNames(d, d', s); }
    forall j | 0 <= j < |d.handles| ensures HandleFits(d', j, s) {
      assert HandleFits(d, j, s);
    }
    forall i | 0 <= i < |d.outstanding| ensures BindFits(d', d.outstanding[i]) {
      assert BindFits(d, d.outstanding[i]);
    }
  }

  lemma SameNames(d: Desk, d': Desk, s: State)
    requires NamesAhead(d, s) && d'.outstanding == d.outstanding && d'.activitySeq == d.activitySeq && d'.timerSeq == d.timerSeq
    ensures NamesAhead(d', s)
  {
  }

  lemma FlaggedTakes(d: Desk, s: State, k: nat)
    requires k < |d.handles| && Takes(d, s, []) && !d.handles[k].canceled
    ensures Takes(Flagged(d, k), s, [k]) && k !in d.pendingCancels
  {
    hide Sim, Precheck, LegalSoFar;
    FlaggedSim(d, s, k);
    assert PendingFits(d) by { SimPending(d, s); }
    var d' := Flagged(d, k);
    forall j | 0 <= j < |d'.handles| && CancelDue(d', j, [k])
      ensures Uncanceled(d', j)
    {
      assert Uncanceled(d, j);
    }
  }

  lemma SimPending(d: Desk, s: State)
    requires Sim(d, s)
    ensures PendingFits(d)
  {
  }

  lemma DeferTakes(d: Desk, s: State, k: nat)
    requires k < |d.handles| && Takes(d, s, [k]) && d.handles[k].canceled && k !in d.pendingCancels
    ensures Takes(d.(pendingCancels := d.pendingCancels + [k]), s, [])
  {
    hide NamesAhead, Precheck, LegalSoFar;
    var d' := d.(pendingCancels := d.pendingCancels + [k]);
    SameNames(d, d', s);
    forall j | 0 <= j < |d.handles| ensures HandleFits(d', j, s) {
      assert HandleFits(d, j, s);
    }
    forall i | 0 <= i < |d.outstanding| ensures BindFits(d', d.outstanding[i]) {
      assert BindFits(d, d.outstanding[i]);
    }
    forall j | 0 <= j < |d'.handles| && CancelDue(d', j, [])
      ensures Uncanceled(d', j)
    {
      assert j in d'.pendingCancels ==> j in d.pendingCancels || j in [k];
      assert Uncanceled(d, j);
    }
  }

  lemma CancelHandleTakes(d: Desk, s: State, k: nat, applying: bool)
    requires k < |d.handles| && Takes(d, s, [])
    ensures Takes(CancelHandle(d, k, applying), s, [])
    ensures applying ==> CancelHandle(d, k, applying).outstanding == d.outstanding
  {
    hide Takes, Emit;
    if !d.handles[k].canceled {
      FlaggedTakes(d, s, k);
      var d1 := Flagged(d, k);
      if d.handles[k].eventId == 0 || applying {
        DeferTakes(d1, s, k);
      } else {
        assert [k] == [k] + [];
        EmitTakes(d1, s, k, []);
      }
    }
  }

  lemma {:induction false} CancelHandlesTake(d: Desk, s: State, i: nat, k: nat, applying: bool)
    requires Takes(d, s, [])
    ensures Takes(CancelHandles(d, i, k, applying), s, [])
    ensures applying ==> CancelHandles(d, i, k, applying).outstanding == d.outstanding
    decreases |d.handles| - k
  {
    hide Takes, CancelHandle;
    if k < |d.handles| {
      if d.handles[k].scope == Some(i) {
        CancelHandleTakes(d, s, k, applying);
        CancelHandlesTake(CancelHandle(d, k, applying), s, i, k + 1, applying);
      } else {
        CancelHandlesTake(d, s, i, k + 1, applying);
      }
    }
  }

  lemma ScopesIrrelevant(d: Desk, s: State, scopes: seq<Scope>)
    requires Takes(d, s, [])
    ensures Takes(d.(scopes := scopes), s, [])
  {
    hide NamesAhead, Precheck, LegalSoFar;
    var d' := d.(scopes := scopes);
    SameNames(d, d', s);
    forall j | 0 <= j < |d.handles| ensures HandleFits(d', j, s) {
      assert HandleFits(d, j, s);
    }
    forall i | 0 <= i < |d.outstanding| ensures BindFits(d', d.outstanding[i]) {
      assert BindFits(d, d.outstanding[i]);
    }
    forall j | 0 <= j < |d'.handles| && CancelDue(d', j, [])
      ensures Uncanceled(d', j)
    {
      assert Uncanceled(d, j);
    }
  }

  lemma {:induction false} CancelChildrenTake(d: Desk, s: State, i: nat, j: nat, applying: bool)
    requires i < j && Takes(d, s, [])
    ensures Takes(CancelChildren(d, i, j, applying), s, [])
    ensures applying ==> CancelChildren(d, i, j, applying).outstanding == d.outstanding
    decreases if i < |d.scopes| then |d.scopes| - i else 0, 0, if j < |d.scopes| then |d.scopes| - j else 0
  {
    hide Takes;
    if j < |d.scopes| {
      if d.scopes[j].parent == Some(i) {
        CancelTreeTakes(d, s, j, applying);
        CancelChildrenTake(CancelTree(d, j, applying), s, i, j + 1, applying);
      } else {
        CancelChildrenTake(d, s, i, j + 1, applying);
      }
    }
  }

  /** Cancelling a scope leaves a batch the server would take, and queues nothing while history is being applied. */
  lemma {:induction false} CancelTreeTakes(d: Desk, s: State, i: nat, applying: bool)
    requires Takes(d, s, [])
    ensures Takes(CancelTree(d, i, applying), s, [])
    ensures applying ==> CancelTree(d, i, applying).outstanding == d.outstanding
    decreases if i < |d.scopes| then |d.scopes| - i else 0, 1, 0
  {
    hide Takes;
    if i < |d.scopes| && !d.scopes[i].canceled {
      var d1 := d.(scopes := d.scopes[i := d.scopes[i].(canceled := true)]);
      ScopesIrrelevant(d, s, d.scopes[i := d.scopes[i].(canceled := true)]);
      CancelChildrenTake(d1, s, i, i + 1, applying);
      CancelHandlesTake(CancelChildren(d1, i, i + 1, applying), s, i, 0, applying);
    }
  }

  // ----- flushing what waited -----

  predicate AllWaiting(d: Desk, ks: seq<nat>) {
    && (forall i :: 0 <= i < |ks| ==> ks[i] < |d.handles| && d.handles[ks[i]].canceled)
    && (forall i, j :: 0 <= i < j < |ks| ==> ks[i] != ks[j])
  }

  lemma {:induction false} EmitAllTakes(d: Desk, s: State, ks: seq<nat>)
    requires Takes(d, s, ks) && AllWaiting(d, ks) && d.pendingCancels == []
    ensures Takes(EmitAll(d, ks), s, [])
    decreases |ks|
  {
    hide Takes, Emit;
    if ks != [] {
      assert ks == [ks[0]] + ks[1..];
      EmitTakes(d, s, ks[0], ks[1..]);
      EmitAllTakes(Emit(d, ks[0]), s, ks[1..]);
    }
  }

  lemma PendingWaits(d: Desk, s: State)
    requires Takes(d, s, [])
    ensures Takes(d.(pendingCancels := []), s, d.pendingCancels) && AllWaiting(d, d.pendingCancels)
  {
    hide NamesAhead, Precheck, LegalSoFar;
    var d' := d.(pendingCancels := []);
    SameNames(d, d', s);
    forall j | 0 <= j < |d.handles| ensures HandleFits(d', j, s) {
      assert HandleFits(d, j, s);
    }
    forall i | 0 <= i < |d.outstanding| ensures BindFits(d', d.outstanding[i]) {
      assert BindFits(d, d.outstanding[i]);
    }
    forall j | 0 <= j < |d'.handles| && CancelDue(d', j, d.pendingCancels)
      ensures Uncanceled(d', j)
    {
      assert Uncanceled(d, j);
    }
  }

  lemma FlushTakes(d: Desk, s: State)
    requires Takes(d, s, [])
    ensures Takes(FlushCancels(d), s, [])
  {
    hide Takes, EmitAll;
    PendingWaits(d, s);
    EmitAllTakes(d.(pendingCancels := []), s, d.pendingCancels);
  }

  // ----- new activities and timers -----

  lemma ActivityNameInjective(m: nat, n: nat)
    requires ActivityName(m) == ActivityName(n)
    ensures m == n
  {
    assert Itoa(m) == ActivityName(m)[4..];
    assert Itoa(n) == ActivityName(n)[4..];
    ItoaInjective(m, n);
  }

  lemma TimerNameInjective(m: nat, n: nat)
    requires TimerName(m) == TimerName(n)
    ensures m == n
  {
    assert Itoa(m) == TimerName(m)[6..];
    assert Itoa(n) == TimerName(n)[6..];
    ItoaInjective(m, n);
  }

  /** Handing out the next name and a handle that is settled from the start. */
  lemma SettledTakes(d: Desk, s: State, d': Desk, h: Handle)
    requires Takes(d, s, []) && h.eventId == 0
    requires d'.activitySeq >= d.activitySeq && d'.timerSeq >= d.timerSeq
    requires d' == d.(activitySeq := d'.activitySeq, timerSeq := d'.timerSeq, handles := d.handles + [h])
    ensures Takes(d', s, [])
  {
    hide Precheck, LegalSoFar, ActivityName, TimerName, ActivityIdsIn, TimerIdsIn;
    forall j | 0 <= j < |d'.handles| ensures HandleFits(d', j, s) {
      if j < |d.handles| { assert HandleFits(d, j, s); }
    }
    forall i | 0 <= i < |d.outstanding| ensures BindFits(d', d.outstanding[i]) {
      assert BindFits(d, d.outstanding[i]);
    }
    forall j | 0 <= j < |d'.handles| && CancelDue(d', j, []) ensures Uncanceled(d', j) {
      if j < |d.handles| { assert CancelDue(d, j, []) && Uncanceled(d, j); }
    }
  }

  /** Queueing the command that creates what the newest handle stands for. */
  lemma CreateSim(d: Desk, s: State, c: Command)
    requires Sim(d, s) && !d.closed && d.handles != []
    requires
      var h := d.handles[|d.handles| - 1];
      && h.eventId == 0
      && (forall i :: 0 <= i < |d.outstanding| ==> d.outstanding[i].bind != Some(|d.handles| - 1))
      && ((c.ScheduleActivity? && h.kind.ActivityHandle?) || (c.StartTimer? && h.kind.TimerHandle?))
    requires forall n: nat :: n > d.activitySeq ==> !(c.ScheduleActivity? && c.activityId == ActivityName(n))
    requires forall n: nat :: n > d.timerSeq ==> !(c.StartTimer? && c.timerId == TimerName(n))
    ensures Sim(Enqueue(d, c, Some(|d.handles| - 1)), s)
  {
    hide ActivityName, TimerName, ActivityIdsIn, TimerIdsIn;
    var o := Outstanding(c, Some(|d.handles| - 1));
    var d' := Enqueue(d, c, Some(|d.handles| - 1));
    BatchAppend(d.outstanding, o);
    IdsInAppend(Batch(d.outstanding), c);
    forall j | 0 <= j < |d'.handles| ensures HandleFits(d', j, s) {
      assert HandleFits(d, j, s);
    }
    forall i | 0 <= i < |d'.outstanding| ensures BindFits(d', d'.outstanding[i]) {
      if i < |d.outstanding| { assert BindFits(d, d.outstanding[i]); }
    }
  }

  lemma CreateTakes(d: Desk, s: State, c: Command)
    requires Takes(d, s, []) && !d.closed && d.handles != []
    requires
      var h := d.handles[|d.handles| - 1];
      && h.eventId == 0
      && (forall i :: 0 <= i < |d.outstanding| ==> d.outstanding[i].bind != Some(|d.handles| - 1))
      && ((c.ScheduleActivity? && h.kind.ActivityHandle?) || (c.StartTimer? && h.kind.TimerHandle?))
    requires forall n: nat :: n > d.activitySeq ==> !(c.ScheduleActivity? && c.activityId == ActivityName(n))
    requires forall n: nat :: n > d.timerSeq ==> !(c.StartTimer? && c.timerId == TimerName(n))
    requires ValidCommand(c) && PrecheckAt(s, Batch(d.outstanding) + [c], |d.outstanding|)
    ensures Takes(Enqueue(d, c, Some(|d.handles| - 1)), s, [])
  {
    hide Sim, PrecheckAt, ValidCommand, ActivityName, TimerName;
    CreateSim(d, s, c);
    var d' := Enqueue(d, c, Some(|d.handles| - 1));
    BatchAppend(d.outstanding, Outstanding(c, Some(|d.handles| - 1)));
    PrecheckAppend(s, Batch(d.outstanding), c);
    CancelsOnceAppend(Batch(d.outstanding), c);
    forall j | 0 <= j < |d'.handles| && CancelDue(d', j, []) ensures Uncanceled(d', j) {
      assert CancelDue(d, j, []) && Uncanceled(d, j);
    }
  }

  /** The options an author may pass: well formed once the default bound is in place, and no ID of their own. */
  predicate WellFormedCall(call: Call) {
    && (call.ExecuteActivity? ==> call.activityId == "" && ValidOptions(Bounded(call.options)))
    && SaneCall(call)
  }

  ghost predicate WellFormedCode<P(!new)>(w: Workflow<P>) {
    forall p :: w.next(p).Ask? ==> WellFormedCall(w.next(p).call)
  }

  lemma ActivityPrecheck(d: Desk, s: State, o: ActivityOptions)
    requires Sim(d, s)
    ensures PrecheckAt(s, Batch(d.outstanding) + [ScheduleActivity(ActivityName(d.activitySeq + 1), o)], |d.outstanding|)
  {
    hide ActivityName, TimerName;
    var cmds := Batch(d.outstanding) + [ScheduleActivity(ActivityName(d.activitySeq + 1), o)];
    assert cmds[..|d.outstanding|] == Batch(d.outstanding);
  }

  lemma TimerPrecheck(d: Desk, s: State, duration: Duration)
    requires Sim(d, s)
    ensures PrecheckAt(s, Batch(d.outstanding) + [StartTimer(TimerName(d.timerSeq + 1), duration)], |d.outstanding|)
  {
    hide ActivityName, TimerName;
    var cmds := Batch(d.outstanding) + [StartTimer(TimerName(d.timerSeq + 1), duration)];
    assert cmds[..|d.outstanding|] == Batch(d.outstanding);
  }

  lemma ExecuteActivityTakes(e: Env, s: State, scope: nat, o: ActivityOptions)
    requires Takes(e.desk, s, []) && !e.desk.closed && ValidOptions(Bounded(o))
    ensures Takes(DoExecuteActivity(e, scope, "", o).env.desk, s, [])
  {
    hide Takes, ActivityName, TimerName, ValidOptions, Bounded, PrecheckAt;
    var d := e.desk;
    var d0 := d.(activitySeq := d.activitySeq + 1);
    var name := ActivityName(d0.activitySeq);
    if IsCanceled(d.scopes, scope) {
      var h := Handle(ActivityHandle, name, 0, false, false, None, Some(CANCELED));
      SettledTakes(d, s, d0.(handles := d.handles + [h]), h);
    } else {
      var h := Handle(ActivityHandle, name, 0, false, false, Registers(d0, scope), None);
      var d1 := d0.(handles := d.handles + [h]);
      var c := ScheduleActivity(name, Bounded(o));
      SettledTakes(d, s, d1, h);
      assert Sim(d, s) by { TakesSim(d, s); }
      ActivityPrecheck(d, s, Bounded(o));
      FreshName(d0.activitySeq);
      assert name != "" by { NameNotEmpty(d0.activitySeq); }
      CreateTakes(d1, s, c);
    }
  }

  lemma NameNotEmpty(n: nat)
    ensures ActivityName(n) != "" && TimerName(n) != ""
  {
  }

  lemma FreshName(n: nat)
    ensures forall m: nat :: m > n ==> ActivityName(m) != ActivityName(n) && TimerName(m) != TimerName(n)
  {
    forall m: nat | m > n ensures ActivityName(m) != ActivityName(n) && TimerName(m) != TimerName(n) {
      if ActivityName(m) == ActivityName(n) { ActivityNameInjective(m, n); }
      if TimerName(m) == TimerName(n) { TimerNameInjective(m, n); }
    }
  }

  lemma TakesSim(d: Desk, s: State)
    requires Takes(d, s, [])
    ensures Sim(d, s) && Open(s)
  {
  }

  lemma NewTimerTakes(e: Env, s: State, scope: nat, duration: Duration)
    requires Takes(e.desk, s, []) && !e.desk.closed
    ensures Takes(DoNewTimer(e, scope, duration).env.desk, s, [])
  {
    hide Takes, ActivityName, TimerName, PrecheckAt;
    var d := e.desk;
    var d0 := d.(timerSeq := d.timerSeq + 1);
    var name := TimerName(d0.timerSeq);
    if IsCanceled(d.scopes, scope) || duration <= 0 {
      var h := Handle(TimerHandle, name, 0, false, false, None,
                      Some(if IsCanceled(d.scopes, scope) then CANCELED else Answer(NoPayload, None)));
      SettledTakes(d, s, d0.(handles := d.handles + [h]), h);
    } else {
      var h := Handle(TimerHandle, name, 0, false, false, Registers(d0, scope), None);
      var d1 := d0.(handles := d.handles + [h]);
      var c := StartTimer(name, duration);
      SettledTakes(d, s, d1, h);
      assert Sim(d, s) by { TakesSim(d, s); }
      TimerPrecheck(d, s, duration);
      FreshName(d0.timerSeq);
      assert name != "" by { NameNotEmpty(d0.timerSeq); }
      CreateTakes(d1, s, c);
    }
  }

  lemma PlainTakes(e: Env, s: State, call: Call)
    requires Takes(e.desk, s, []) && !e.desk.closed && !MarkerCall(call) && WellFormedCall(call)
    ensures Takes(DoPlain(e, call).env.desk, s, [])
  {
    hide Takes, CancelTree, DoExecuteActivity, DoNewTimer, ValidOptions;
    match call
    case OpenScope(p) => ScopesIrrelevant(e.desk, s, DoOpenScope(e.desk, p).scopes);
    case CancelScope(i) => CancelTreeTakes(e.desk, s, i, false);
    case ExecuteActivity(scope, _, o) => ExecuteActivityTakes(e, s, scope, o);
    case NewTimer(scope, d) => NewTimerTakes(e, s, scope, d);
    case _ =>
  }

  /** Every call of well-formed code keeps the queue one the server would take. */
  lemma PerformTakes(e: Env, s: State, call: Call, m: Markers, r: bool, world: World)
    requires Takes(e.desk, s, []) && !e.desk.closed && WellFormedCall(call) && KeysAhead(e.book)
    requires Perform(e, call, m, r, world).Ok?
    ensures Takes(Perform(e, call, m, r, world).value.env.desk, s, [])
  {
    hide Takes, KeysAhead, DoPlain, DoOnce, DoMutable, DoGetVersion, KeyOf;
    if MarkerCall(call) {
      PerformConsults(e, call, m, r, world);
      var a := Perform(e, call, m, r, world).value.env;
      if a != e && a.book.log[KeyOf(e.book, call)].Some? {
        var v := a.book.log[KeyOf(e.book, call)].value;
        EnqueueTakes(e.desk, s, RecordMarker(KeyOf(e.book, call), v.details, v.failure), []);
      }
    } else {
      PlainTakes(e, s, call);
    }
  }

  // ------------------------------------------------------------------
  // The log accounts for the markers queued
  // ------------------------------------------------------------------

  function AddMarkers(m: Markers, cmds: seq<Command>): Markers {
    if cmds == [] then m
    else
      var rest := AddMarkers(m, cmds[..|cmds| - 1]);
      match cmds[|cmds| - 1]
      case RecordMarker(k, details, failure) => rest[k := Recorded(details, failure)]
      case _ => rest
  }

  /** The index holds exactly the markers the log says were recorded. */
  predicate Exactly(m: Markers, log: Log) {
    && (forall k :: k in m ==> k in log && log[k] == Some(m[k]))
    && (forall k :: k in log && log[k].Some? ==> k in m)
  }

  lemma ExactlyCovers(m: Markers, log: Log)
    requires Exactly(m, log)
    ensures Covers(m, log)
  {
  }

  ghost predicate Accounted(m: Markers, e: Env) {
    Exactly(AddMarkers(m, Batch(e.desk.outstanding)), e.book.log)
  }

  /** The queue grew by commands other than markers. */
  predicate NoMarkers(o: seq<Outstanding>, o': seq<Outstanding>) {
    && |o| <= |o'| && o'[..|o|] == o
    && forall i :: |o| <= i < |o'| ==> !o'[i].cmd.RecordMarker?
  }

  lemma {:induction false} NoMarkersAdds(m: Markers, o: seq<Outstanding>, o': seq<Outstanding>)
    requires NoMarkers(o, o')
    ensures AddMarkers(m, Batch(o')) == AddMarkers(m, Batch(o))
    decreases |o'|
  {
    if |o'| == |o| {
      assert o' == o;
    } else {
      var init := o'[..|o'| - 1];
      assert init[..|o|] == o;
      assert o' == init + [o'[|o'| - 1]];
      NoMarkersAdds(m, o, init);
      BatchAppend(init, o'[|o'| - 1]);
    }
  }

  lemma NoMarkersTransitive(a: seq<Outstanding>, b: seq<Outstanding>, c: seq<Outstanding>)
    requires NoMarkers(a, b) && NoMarkers(b, c)
    ensures NoMarkers(a, c)
  {
    assert c[..|a|] == c[..|b|][..|a|];
    forall i | |a| <= i < |c| ensures !c[i].cmd.RecordMarker? {
      if i < |b| { assert c[i] == c[..|b|][i]; }
    }
  }

  lemma NoMarkersSelf(o: seq<Outstanding>)
    ensures NoMarkers(o, o)
  {
  }

  lemma CancelHandleNoMarkers(d: Desk, k: nat, applying: bool)
    requires k < |d.handles|
    ensures NoMarkers(d.outstanding, CancelHandle(d, k, applying).outstanding)
  {
  }

  lemma {:induction false} CancelHandlesNoMarkers(d: Desk, i: nat, k: nat, applying: bool)
    ensures NoMarkers(d.outstanding, CancelHandles(d, i, k, applying).outstanding)
    decreases |d.handles| - k
  {
    hide NoMarkers, CancelHandle;
    NoMarkersSelf(d.outstanding);
    if k < |d.handles| {
      if d.handles[k].scope == Some(i) {
        var d1 := CancelHandle(d, k, applying);
        CancelHandleNoMarkers(d, k, applying);
        CancelHandlesNoMarkers(d1, i, k + 1, applying);
        NoMarkersTransitive(d.outstanding, d1.outstanding, CancelHandles(d1, i, k + 1, applying).outstanding);
      } else {
        CancelHandlesNoMarkers(d, i, k + 1, applying);
      }
    }
  }

  lemma {:induction false} CancelChildrenNoMarkers(d: Desk, i: nat, j: nat, applying: bool)
    requires i < j
    ensures NoMarkers(d.outstanding, CancelChildren(d, i, j, applying).outstanding)
    decreases if i < |d.scopes| then |d.scopes| - i else 0, 0, if j < |d.scopes| then |d.scopes| - j else 0
  {
    hide NoMarkers;
    NoMarkersSelf(d.outstanding);
    if j < |d.scopes| {
      if d.scopes[j].parent == Some(i) {
        var d1 := CancelTree(d, j, applying);
        CancelTreeNoMarkers(d, j, applying);
        CancelChildrenNoMarkers(d1, i, j + 1, applying);
        NoMarkersTransitive(d.outstanding, d1.outstanding, CancelChildren(d1, i, j + 1, applying).outstanding);
      } else {
        CancelChildrenNoMarkers(d, i, j + 1, applying);
      }
    }
  }

  lemma {:induction false} CancelTreeNoMarkers(d: Desk, i: nat, applying: bool)
    ensures NoMarkers(d.outstanding, CancelTree(d, i, applying).outstanding)
    decreases if i < |d.scopes| then |d.scopes| - i else 0, 1, 0
  {
    hide NoMarkers;
    NoMarkersSelf(d.outstanding);
    if i < |d.scopes| && !d.scopes[i].canceled {
      var d1 := d.(scopes := d.scopes[i := d.scopes[i].(canceled := true)]);
      var d2 := CancelChildren(d1, i, i + 1, applying);
      CancelChildrenNoMarkers(d1, i, i + 1, applying);
      CancelHandlesNoMarkers(d2, i, 0, applying);
      NoMarkersTransitive(d.outstanding, d2.outstanding, CancelHandles(d2, i, 0, applying).outstanding);
    }
  }

  lemma {:induction false} EmitAllNoMarkers(d: Desk, ks: seq<nat>)
    ensures NoMarkers(d.outstanding, EmitAll(d, ks).outstanding)
    decreases |ks|
  {
    NoMarkersSelf(d.outstanding);
    if ks != [] {
      var d1 := if ks[0] < |d.handles| then Emit(d, ks[0]) else d;
      EmitAllNoMarkers(d1, ks[1..]);
      NoMarkersTransitive(d.outstanding, d1.outstanding, EmitAll(d1, ks[1..]).outstanding);
    }
  }

  lemma PlainNoMarkers(e: Env, call: Call)
    requires !MarkerCall(call)
    ensures NoMarkers(e.desk.outstanding, DoPlain(e, call).env.desk.outstanding)
  {
    hide CancelTree, ActivityName, TimerName, Bounded;
    NoMarkersSelf(e.desk.outstanding);
    if call.CancelScope? {
      CancelTreeNoMarkers(e.desk, call.scope, false);
    }
  }

  lemma ExactlyGrows(m: Markers, log: Log, k: MarkerKey, r: Option<Recorded>)
    requires Exactly(m, log) && k !in log
    ensures Exactly(if r.Some? then m[k := r.value] else m, log[k := r])
  {
  }

  /** A consulted marker is in the log and, if one was recorded, in the queue. */
  lemma ConsultedAccounts(m0: Markers, e: Env, a: Env, k: MarkerKey)
    requires Accounted(m0, e) && k !in e.book.log && !e.desk.closed && Consults(e, a, k)
    ensures Accounted(m0, a)
  {
    hide Exactly;
    var v := a.book.log[k];
    ExactlyGrows(AddMarkers(m0, Batch(e.desk.outstanding)), e.book.log, k, v);
    if v.Some? {
      BatchAppend(e.desk.outstanding, Outstanding(RecordMarker(k, v.value.details, v.value.failure), None));
    }
  }

  lemma PerformAccounts(m0: Markers, e: Env, call: Call, m: Markers, r: bool, world: World)
    requires Accounted(m0, e) && KeysAhead(e.book) && !e.desk.closed && Perform(e, call, m, r, world).Ok?
    ensures Accounted(m0, Perform(e, call, m, r, world).value.env)
  {
    hide KeysAhead, DoPlain, DoOnce, DoMutable, DoGetVersion, KeyOf, Exactly, Consults;
    var a := Perform(e, call, m, r, world).value.env;
    if MarkerCall(call) {
      PerformConsults(e, call, m, r, world);
      if a != e {
        ConsultedAccounts(m0, e, a, KeyOf(e.book, call));
      }
    } else {
      PlainKeeps(e, call);
      PlainNoMarkers(e, call);
      NoMarkersAdds(m0, e.desk.outstanding, a.desk.outstanding);
    }
  }

  // ------------------------------------------------------------------
  // A whole run of the code
  // ------------------------------------------------------------------

  /** The run is over: its queue is a batch the server takes, and its log accounts for the markers in it. */
  ghost predicate Finished(m0: Markers, e: Env, s: State) {
    && Sim(e.desk, s)
    && Accounted(m0, e)
    && ValidBatch(Batch(e.desk.outstanding))
    && Precheck(s, Batch(e.desk.outstanding))
    && CancelsOnce(Batch(e.desk.outstanding))
  }

  lemma BlockedFinished(m0: Markers, e: Env, s: State)
    requires Takes(e.desk, s, []) && Accounted(m0, e)
    ensures Finished(m0, e, s)
  {
  }

  lemma ClosingIsValid(ret: Return)
    ensures ValidCommand(ClosingCommand(ret)) && Closing(ClosingCommand(ret))
    ensures CreatesNothing(ClosingCommand(ret))
  {
  }

  lemma ClosedIrrelevant(d: Desk, s: State)
    requires Sim(d, s)
    ensures Sim(d.(closed := true), s)
  {
    hide NamesAhead;
    var d' := d.(closed := true);
    SameNames(d, d', s);
    forall j | 0 <= j < |d.handles| ensures HandleFits(d', j, s) {
      assert HandleFits(d, j, s);
    }
    forall i | 0 <= i < |d.outstanding| ensures BindFits(d', d.outstanding[i]) {
      assert BindFits(d, d.outstanding[i]);
    }
  }

  lemma ReturnedFinished(m0: Markers, e: Env, s: State, ret: Return)
    requires Takes(e.desk, s, []) && !e.desk.closed && Accounted(m0, e)
    ensures Finished(m0, e.(desk := Complete(e.desk, ret)), s)
  {
    hide Sim, PrecheckAt, ValidCommand, ClosingCommand, Exactly;
    var c := ClosingCommand(ret);
    var cmds := Batch(e.desk.outstanding);
    ClosingIsValid(ret);
    EnqueueSim(e.desk, s, c);
    ClosedIrrelevant(Enqueue(e.desk, c, None), s);
    BatchAppend(e.desk.outstanding, Outstanding(c, None));
    LastPrecheck(s, cmds, c);
    PrecheckAppend(s, cmds, c);
    CancelsOnceAppend(cmds, c);
  }

  /** Running well-formed code against a server state leaves a batch that state takes. */
  lemma {:induction false} StepsFinish<P(!new)>(w: Workflow<P>, e: Env, p: P, m: Markers, r: bool, world: World, fuel: nat,
                                                m0: Markers, s: State)
    requires WellFormedCode(w) && Takes(e.desk, s, []) && !e.desk.closed && KeysAhead(e.book) && Accounted(m0, e)
    requires Steps(w, e, p, m, r, world, fuel).Ok?
    ensures Finished(m0, Steps(w, e, p, m, r, world, fuel).value.env, s)
    decreases fuel
  {
    hide Takes, KeysAhead, Accounted, Finished, Perform, WellFormedCall;
    match w.next(p)
    case Return(ret) => ReturnedFinished(m0, e, s, ret);
    case Block => BlockedFinished(m0, e, s);
    case Ask(call) =>
      var a := Perform(e, call, m, r, world).value;
      PerformTakes(e, s, call, m, r, world);
      PerformAccounts(m0, e, call, m, r, world);
      PerformGrows(e, call, m, r, world);
      StepsFinish(w, a.env, w.resume(p, a.reply), m, r, world, fuel - 1, m0, s);
    case Panic =>
  }

  lemma RunFinishes<P(!new)>(w: Workflow<P>, c: Core<P>, m: Markers, r: bool, world: World, fuel: nat, m0: Markers, s: State)
    requires WellFormedCode(w) && Takes(c.env.desk, s, []) && KeysAhead(c.env.book) && Accounted(m0, c.env)
    requires RunCode(w, c, m, r, world, fuel).Ok?
    ensures Finished(m0, RunCode(w, c, m, r, world, fuel).value.env, s)
  {
    hide Takes, KeysAhead, Steps, Exactly, Finished;
    FlushTakes(c.env.desk, s);
    EmitAllNoMarkers(c.env.desk.(pendingCancels := []), c.env.desk.pendingCancels);
    var e := c.env.(desk := FlushCancels(c.env.desk));
    NoMarkersAdds(m0, c.env.desk.outstanding, e.desk.outstanding);
    if e.desk.closed {
      BlockedFinished(m0, e, s);
    } else {
      StepsFinish(w, e, if c.code.Some? then c.code.value else w.begin(e.start, e.startedAt), m, r, world, fuel, m0, s);
    }
  }

  // ------------------------------------------------------------------
  // Recorded commands on both sides
  // ------------------------------------------------------------------

  lemma PopBinds(d: Desk)
    requires BindsFit(d) && d.outstanding != []
    ensures BindsFit(d.(outstanding := d.outstanding[1..]))
    ensures
      var k := d.outstanding[0].bind;
      k.Some? ==> forall i :: 0 <= i < |d.outstanding[1..]| ==> d.outstanding[1..][i].bind != k
  {
    var d' := d.(outstanding := d.outstanding[1..]);
    forall i | 0 <= i < |d'.outstanding| ensures BindFits(d', d'.outstanding[i]) {
      assert BindFits(d, d.outstanding[i + 1]);
    }
  }

  lemma BindKeepsBinds(d: Desk, k: nat, id: int)
    requires BindsFit(d) && k < |d.handles| && forall i :: 0 <= i < |d.outstanding| ==> d.outstanding[i].bind != Some(k)
    ensures BindsFit(Bind(d, Some(k), id))
  {
    var d' := Bind(d, Some(k), id);
    forall i | 0 <= i < |d'.outstanding| ensures BindFits(d', d'.outstanding[i]) {
      assert BindFits(d, d.outstanding[i]);
    }
  }

  lemma BindFitsHandles(d: Desk, s: State, t: State, e: Event, k: nat)
    requires HandlesFit(d, s) && PendingAfter(s, t, e) && e.id == |s.events| + 1 && k < |d.handles|
    requires (e.attrs.ActivityScheduled? && d.handles[k].kind.ActivityHandle?) || (e.attrs.TimerStarted? && d.handles[k].kind.TimerHandle?)
    ensures HandlesFit(Bind(d, Some(k), e.id), t)
  {
    var d' := Bind(d, Some(k), e.id);
    forall j | 0 <= j < |d'.handles| ensures HandleFits(d', j, t) {
      assert HandleFits(d, j, s);
    }
  }

  lemma PopHandles(d: Desk, s: State)
    requires HandlesFit(d, s) && d.outstanding != []
    ensures HandlesFit(d.(outstanding := d.outstanding[1..]), s)
  {
    forall k | 0 <= k < |d.handles| ensures HandleFits(d.(outstanding := d.outstanding[1..]), k, s) {
      assert HandleFits(d, k, s);
    }
  }

  /** An event that creates something binds the handle waiting for it. */
  lemma CreationSim(d: Desk, s: State, t: State, e: Event)
    requires Sim(d, s) && PendingAfter(s, t, e) && e.id == |s.events| + 1
    requires d.outstanding != [] && Matches(d.outstanding[0].cmd, e.attrs)
    requires e.attrs.ActivityScheduled? || e.attrs.TimerStarted?
    ensures ApplyToDesk(d, e).Ok? && Sim(ApplyToDesk(d, e).value, t)
    ensures ApplyToDesk(d, e).value.outstanding == d.outstanding[1..]
  {
    hide NamesAhead, HandlesFit, BindsFit, PendingAfter;
    assert BindFits(d, d.outstanding[0]) by { FirstBind(d); }
    var k := d.outstanding[0].bind.value;
    var d1 := d.(outstanding := d.outstanding[1..]);
    var d2 := Bind(d1, Some(k), e.id);
    assert ApplyToDesk(d, e) == Ok(d2);
    PopHandles(d, s);
    PopBinds(d);
    BindKeepsBinds(d1, k, e.id);
    BindFitsHandles(d1, s, t, e, k);
    NamesAheadAfter(d, d2, s, t, e);
  }

  lemma FirstBind(d: Desk)
    requires BindsFit(d) && d.outstanding != []
    ensures BindFits(d, d.outstanding[0])
  {
  }

  lemma OtherMatchSim(d: Desk, s: State, t: State, e: Event)
    requires Sim(d, s) && PendingAfter(s, t, e)
    requires d.outstanding != [] && Matches(d.outstanding[0].cmd, e.attrs)
    requires !e.attrs.ActivityScheduled? && !e.attrs.TimerStarted?
    ensures ApplyToDesk(d, e).Ok? && Sim(ApplyToDesk(d, e).value, t)
    ensures ApplyToDesk(d, e).value.outstanding == d.outstanding[1..]
  {
    hide NamesAhead, HandlesFit, BindsFit, PendingFits, PendingAfter, CloseHandle;
    assert BindFits(d, d.outstanding[0]) by { FirstBind(d); }
    var d1 := d.(outstanding := d.outstanding[1..]);
    assert MatchCommand(d, e) == Ok(d1);
    PopHandles(d, s);
    PopBinds(d);
    assert PendingFits(d1) by { SamePending(d, d1); }
    NamesAheadAfter(d, d1, s, t, e);
    if e.attrs.TimerCanceled? {
      var st := e.attrs.startedId;
      var d2 := CloseHandle(d1, d1.timers, st, None);
      CloseFits(d1, s, t, e, None);
      CloseKeepsRest(d1, d1.timers, st, None);
      RestFitsSame(d1, d2);
      SameNames(d1, d2, t);
      assert ApplyToDesk(d, e) == Ok(d2);
    } else {
      HandlesFitSame(d1, s, t, e);
      assert ApplyToDesk(d, e) == Ok(d1);
    }
  }

  lemma SamePending(d: Desk, d': Desk)
    requires PendingFits(d) && d'.handles == d.handles && d'.pendingCancels == d.pendingCancels
    ensures PendingFits(d')
  {
  }

  /** The event a command turns into is matched by that command, and the two sides still agree. */
  lemma MatchedSim(d: Desk, s: State, e: Event)
    requires Sim(d, s) && Record(s, e).Ok? && e.id == |s.events| + 1
    requires d.outstanding != [] && Matches(d.outstanding[0].cmd, e.attrs)
    ensures ApplyToDesk(d, e).Ok? && Sim(ApplyToDesk(d, e).value, Record(s, e).value)
    ensures ApplyToDesk(d, e).value.outstanding == d.outstanding[1..]
  {
    hide Sim, Record, PendingAfter, Matches, ApplyToDesk;
    RecordPending(s, e);
    if e.attrs.ActivityScheduled? || e.attrs.TimerStarted? {
      CreationSim(d, s, Record(s, e).value, e);
    } else {
      OtherMatchSim(d, s, Record(s, e).value, e);
    }
  }

  lemma RecordedMatches(c: Command, a: Attrs, decision: int)
    requires Records(c, a, decision)
    ensures Matches(c, a) && CommandDerived(a)
  {
  }

  // ------------------------------------------------------------------
  // Events the server writes on its own account
  // ------------------------------------------------------------------

  lemma QuietDeskTakes(d: Desk, s: State)
    requires Sim(d, s) && Open(s) && d.outstanding == []
    ensures Takes(d, s, [])
  {
    hide Sim;
  }

  lemma SameDeskSim(d: Desk, s: State, t: State, e: Event)
    requires Sim(d, s) && PendingAfter(s, t, e) && !ActivityCloser(e.attrs) && !TimerCloser(e.attrs)
    requires !e.attrs.ActivityScheduled? && !e.attrs.TimerStarted?
    ensures Sim(d, t)
  {
    hide PendingAfter, HandlesFit, NamesAhead, BindsFit, PendingFits;
    HandlesFitSame(d, s, t, e);
    NamesAheadAfter(d, d, s, t, e);
  }

  lemma ResolutionSim(d: Desk, s: State, t: State, e: Event, a: Option<Answer>)
    requires Sim(d, s) && PendingAfter(s, t, e) && (ActivityCloser(e.attrs) || TimerCloser(e.attrs))
    ensures
      var known := if ActivityCloser(e.attrs) then d.activities else d.timers;
      var id := if ActivityCloser(e.attrs) then e.attrs.scheduledId else e.attrs.startedId;
      && Sim(CloseHandle(d, known, id, a), t)
      && CloseHandle(d, known, id, a).outstanding == d.outstanding
  {
    hide PendingAfter, HandlesFit, NamesAhead, BindsFit, PendingFits, CloseHandle;
    var known := if ActivityCloser(e.attrs) then d.activities else d.timers;
    var id := if ActivityCloser(e.attrs) then e.attrs.scheduledId else e.attrs.startedId;
    CloseFits(d, s, t, e, a);
    CloseKeepsRest(d, known, id, a);
    RestFitsSame(d, CloseHandle(d, known, id, a));
    NamesAheadAfter(d, CloseHandle(d, known, id, a), s, t, e);
  }

  lemma TakesTree(d: Desk, s: State)
    requires Sim(d, s) && Open(s) && d.outstanding == []
    ensures Sim(CancelTree(d, 0, true), s) && CancelTree(d, 0, true).outstanding == []
  {
    hide Takes, Sim, CancelTree;
    QuietDeskTakes(d, s);
    CancelTreeTakes(d, s, 0, true);
    TakesSim(CancelTree(d, 0, true), s);
  }

  /** An event of the server's own never needs a command, and the two sides still agree after it. */
  lemma ExternalSim(d: Desk, s: State, e: Event)
    requires Sim(d, s) && Record(s, e).Ok? && External(e.attrs) && Open(s) && d.outstanding == []
    ensures ApplyToDesk(d, e).Ok? && Sim(ApplyToDesk(d, e).value, Record(s, e).value)
    ensures ApplyToDesk(d, e).value.outstanding == []
  {
    hide Sim, Record, PendingAfter, CloseHandle, CancelTree;
    RecordPending(s, e);
    var t := Record(s, e).value;
    if ActivityCloser(e.attrs) {
      ResolutionSim(d, s, t, e, ActivityAnswer(e.attrs));
    } else if e.attrs.TimerFired? {
      ResolutionSim(d, s, t, e, Some(Answer(NoPayload, None)));
    } else if e.attrs.CancelRequested? {
      TakesTree(d, s);
      SameDeskSim(CancelTree(d, 0, true), s, t, e);
    } else {
      SameDeskSim(d, s, t, e);
    }
  }
}
