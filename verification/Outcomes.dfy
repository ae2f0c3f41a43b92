/** What workflow code is told is what the history recorded: outcomes of futures, signals in order, the clock. */
module Outcomes {
  import opened Prelude
  import opened RetryPolicy
  import opened History
  import opened Sdk
  import opened Cancellation

  // ------------------------------------------------------------------
  // How events read
  // ------------------------------------------------------------------

  predicate ResolvesActivity(a: Attrs) { a.ActivityCompleted? || a.ActivityFailed? || a.ActivityTimedOut? || a.ActivityCanceled? }

  /** The event resolves the activity or timer opened by event `id`. */
  predicate ResolvesAs(a: Attrs, kind: HandleKind, id: int) {
    match kind
    case ActivityHandle => ResolvesActivity(a) && a.scheduledId == id
    case TimerHandle => a.TimerFired? && a.startedId == id
  }

  /** It resolves it, or takes it back. */
  predicate EndsAs(a: Attrs, kind: HandleKind, id: int) {
    ResolvesAs(a, kind, id) || (kind.TimerHandle? && a.TimerCanceled? && a.startedId == id)
  }

  predicate OpensAs(a: Attrs, kind: HandleKind, name: string) {
    match kind
    case ActivityHandle => a.ActivityScheduled? && a.activityId == name
    case TimerHandle => a.TimerStarted? && a.timerId == name
  }

  /** What a resolving event says to the code that waits. */
  function ReadsAs(a: Attrs): Answer {
    if a.ActivityCompleted? then Answer(a.result, None)
    else if a.ActivityFailed? then
      Answer(NoPayload, Some(App(if a.failure.Some? then a.failure.value
                                 else Failure("", "activity failed without a failure detail", false))))
    else if a.ActivityTimedOut? then Answer(NoPayload, Some(TimeoutProblem(a.kind, a.details)))
    else if a.ActivityCanceled? then Answer(NoPayload, Some(CanceledProblem(a.details)))
    else Answer(NoPayload, None)
  }

  // ------------------------------------------------------------------
  // One event
  // ------------------------------------------------------------------

  /** Handle `k` is the one known under the event the attributes name. */
  predicate Names(d: Desk, a: Attrs, k: nat)
    requires ResolvesActivity(a) || a.TimerFired?
  {
    if a.TimerFired? then a.startedId in d.timers && d.timers[a.startedId] == k
    else a.scheduledId in d.activities && d.activities[a.scheduledId] == k
  }

  function Resolved(h: Handle, a: Attrs): Handle {
    Handle(h.kind, h.name, h.eventId, true, h.canceled, None, if h.outcome.Some? then h.outcome else Some(ReadsAs(a)))
  }

  /** A resolving event settles exactly the handle known under its event, with what the event says unless an outcome is there
      already, and changes nothing else. */
  lemma EventSettles(e: Env, ev: Event)
    requires ResolvesActivity(ev.attrs) || ev.attrs.TimerFired?
    ensures ApplyEvent(e, ev).Ok?
    ensures
      var e' := ApplyEvent(e, ev).value;
      && e' == e.(desk := e.desk.(handles := e'.desk.handles))
      && |e'.desk.handles| == |e.desk.handles|
      && forall k :: 0 <= k < |e.desk.handles| ==>
           e'.desk.handles[k] == if Names(e.desk, ev.attrs, k) then Resolved(e.desk.handles[k], ev.attrs) else e.desk.handles[k]
  {
    var d := e.desk;
    assert d == d.(handles := d.handles);
  }

  // ------------------------------------------------------------------
  // What a history says
  // ------------------------------------------------------------------

  /** Event `i` is the first of the first `n` that resolves it. */
  ghost predicate FirstToResolve(h: seq<Event>, n: nat, kind: HandleKind, id: int, i: nat)
    requires n <= |h|
  {
    i < n && ResolvesAs(h[i].attrs, kind, id) && forall j :: 0 <= j < i ==> !ResolvesAs(h[j].attrs, kind, id)
  }

  ghost predicate ResolvedWithin(h: seq<Event>, n: nat, kind: HandleKind, id: int)
    requires n <= |h|
  {
    exists i: nat :: FirstToResolve(h, n, kind, id, i)
  }

  ghost predicate EndedWithin(h: seq<Event>, n: nat, kind: HandleKind, id: int)
    requires n <= |h|
  {
    exists i :: 0 <= i < n && EndsAs(h[i].attrs, kind, id)
  }

  /** The inputs of the signals of one name among the first `n` events, in order. */
  function SignalsIn(h: seq<Event>, n: nat, name: string): seq<Payload>
    requires n <= |h|
  {
    if n == 0 then []
    else
      SignalsIn(h, n - 1, name) +
      (if h[n - 1].attrs.Signaled? && h[n - 1].attrs.signalName == name then [h[n - 1].attrs.input] else [])
  }

  /** Events end only what earlier ones opened, time does not run back, and only event 1 starts the run. */
  ghost predicate Sound(h: seq<Event>) {
    && (forall i :: 0 <= i < |h| ==> h[i].id == i + 1)
    && (forall i, kind, id :: 0 <= i < |h| && EndsAs(h[i].attrs, kind, id) ==> 1 <= id <= i)
    && (forall i, j :: 0 <= i <= j < |h| ==> 0 < h[i].time <= h[j].time)
    && (forall i :: 0 <= i < |h| ==> (h[i].attrs.ExecutionStarted? <==> i == 0))
  }

  lemma {:induction false} TimeGrows(h: seq<Event>, i: nat, j: nat)
    requires WellFormed(h) && i <= j < |h|
    ensures 0 < h[i].time <= h[j].time
    decreases j
  {
    hide RefsOk;
    assert WellPlaced(h, i) && WellPlaced(h, j);
    if i < j {
      TimeGrows(h, i, j - 1);
    }
  }

  lemma WellFormedSound(h: seq<Event>)
    requires WellFormed(h)
    ensures Sound(h)
  {
    hide WellFormed, RefsOk;
    forall i | 0 <= i < |h|
      ensures h[i].id == i + 1 && (h[i].attrs.ExecutionStarted? <==> i == 0)
      ensures forall kind, id :: EndsAs(h[i].attrs, kind, id) ==> 1 <= id <= i
    {
      EventSound(h, i);
    }
    forall i, j | 0 <= i <= j < |h| ensures 0 < h[i].time <= h[j].time {
      TimeGrows(h, i, j);
    }
  }

  lemma EventSound(h: seq<Event>, i: nat)
    requires WellFormed(h) && i < |h|
    ensures h[i].id == i + 1 && (h[i].attrs.ExecutionStarted? <==> i == 0)
    ensures forall kind, id :: EndsAs(h[i].attrs, kind, id) ==> 1 <= id <= i
  {
    assert WellPlaced(h, i);
  }

  // ------------------------------------------------------------------
  // What the desk then holds
  // ------------------------------------------------------------------

  /** A handle says what the history says of its event: open exactly until the event that resolves it, and settled as that
      event reads, unless it was canceled before. Without an event yet it is open, canceled, or a timer without a duration. */
  ghost predicate HandleTold(h: seq<Event>, n: nat, x: Handle)
    requires n <= |h|
  {
    if x.eventId == 0 then
      && !x.closedByServer && (x.canceled ==> x.outcome.Some?)
      && (x.outcome == None || x.outcome == Some(CANCELED) || (x.kind.TimerHandle? && x.outcome == Some(Answer(NoPayload, None))))
    else
      && 1 <= x.eventId <= n && OpensAs(h[x.eventId - 1].attrs, x.kind, x.name)
      && (x.closedByServer <==> EndedWithin(h, n, x.kind, x.eventId))
      && (x.outcome.None? ==> !x.canceled && !ResolvedWithin(h, n, x.kind, x.eventId))
      && (x.outcome.Some? ==>
            || (x.canceled && x.outcome.value == Answer(NoPayload, Some(CanceledProblem(NoPayload))))
            || exists i: nat :: FirstToResolve(h, n, x.kind, x.eventId, i) && x.outcome.value == ReadsAs(h[i].attrs))
  }

  /** The maps find each handle by its event, and only that. */
  ghost predicate Indexed(d: Desk) {
    && (forall id :: id in d.activities ==> NamedAt(d, d.activities[id], ActivityHandle, id))
    && (forall id :: id in d.timers ==> NamedAt(d, d.timers[id], TimerHandle, id))
    && (forall k :: 0 <= k < |d.handles| && d.handles[k].eventId != 0 ==> FoundAt(d, d.handles[k], k))
  }

  predicate NamedAt(d: Desk, k: nat, kind: HandleKind, id: int) {
    id != 0 && k < |d.handles| && d.handles[k].kind == kind && d.handles[k].eventId == id
  }

  predicate FoundAt(d: Desk, x: Handle, k: nat) {
    if x.kind.ActivityHandle? then x.eventId in d.activities && d.activities[x.eventId] == k
    else x.eventId in d.timers && d.timers[x.eventId] == k
  }

  /** A queued command creates a handle exactly if it waits to bind it; no two wait for one handle. */
  ghost predicate BindsTold(d: Desk) {
    && (forall i :: 0 <= i < |d.outstanding| ==> BindTold(d, d.outstanding[i]))
    && (forall i, j :: 0 <= i < j < |d.outstanding| && d.outstanding[i].bind.Some? ==> d.outstanding[i].bind != d.outstanding[j].bind)
  }

  predicate BindTold(d: Desk, o: Outstanding) {
    match o.bind
    case None => !o.cmd.ScheduleActivity? && !o.cmd.StartTimer?
    case Some(k) =>
      && k < |d.handles| && d.handles[k].eventId == 0 && (d.handles[k].outcome.Some? ==> d.handles[k].canceled && d.handles[k].outcome.value == CANCELED)
      && (if d.handles[k].kind.ActivityHandle? then o.cmd.ScheduleActivity? && o.cmd.activityId == d.handles[k].name
          else o.cmd.StartTimer? && o.cmd.timerId == d.handles[k].name)
  }

  ghost predicate HandlesTold(h: seq<Event>, n: nat, hs: seq<Handle>)
    requires n <= |h|
  {
    forall k :: 0 <= k < |hs| ==> HandleTold(h, n, hs[k])
  }

  ghost predicate DeskTold(h: seq<Event>, n: nat, d: Desk)
    requires n <= |h|
  {
    HandlesTold(h, n, d.handles) && Indexed(d) && BindsTold(d) && Tended(d)
  }

  // ------------------------------------------------------------------
  // Events keep it
  // ------------------------------------------------------------------

  lemma ResolvedGrows(h: seq<Event>, n: nat, kind: HandleKind, id: int)
    requires n < |h|
    ensures !ResolvesAs(h[n].attrs, kind, id) ==> (ResolvedWithin(h, n + 1, kind, id) <==> ResolvedWithin(h, n, kind, id))
    ensures !EndsAs(h[n].attrs, kind, id) ==> (EndedWithin(h, n + 1, kind, id) <==> EndedWithin(h, n, kind, id))
    ensures forall i: nat :: FirstToResolve(h, n, kind, id, i) ==> FirstToResolve(h, n + 1, kind, id, i)
    ensures ResolvesAs(h[n].attrs, kind, id) && !ResolvedWithin(h, n, kind, id) ==> FirstToResolve(h, n + 1, kind, id, n)
  {
    if !ResolvesAs(h[n].attrs, kind, id) && ResolvedWithin(h, n + 1, kind, id) {
      var i: nat :| FirstToResolve(h, n + 1, kind, id, i);
      assert FirstToResolve(h, n, kind, id, i);
    }
    if ResolvedWithin(h, n, kind, id) {
      var i: nat :| FirstToResolve(h, n, kind, id, i);
      assert FirstToResolve(h, n + 1, kind, id, i);
    }
    if ResolvesAs(h[n].attrs, kind, id) && !ResolvedWithin(h, n, kind, id) {
      forall j | 0 <= j < n ensures !ResolvesAs(h[j].attrs, kind, id) {
        Unresolved(h, n, kind, id, j);
      }
    }
  }

  /** If anything resolves it, something does first. */
  lemma {:induction false} Unresolved(h: seq<Event>, n: nat, kind: HandleKind, id: int, j: nat)
    requires j < n <= |h| && !ResolvedWithin(h, n, kind, id)
    ensures !ResolvesAs(h[j].attrs, kind, id)
    decreases j
  {
    if ResolvesAs(h[j].attrs, kind, id) {
      forall i | 0 <= i < j ensures !ResolvesAs(h[i].attrs, kind, id) {
        Unresolved(h, n, kind, id, i);
      }
      assert FirstToResolve(h, n, kind, id, j);
    }
  }

  lemma HandleStays(h: seq<Event>, n: nat, x: Handle)
    requires n < |h| && HandleTold(h, n, x) && !EndsAs(h[n].attrs, x.kind, x.eventId)
    ensures HandleTold(h, n + 1, x)
  {
    hide FirstToResolve, ResolvedWithin, EndedWithin, ReadsAs;
    ResolvedGrows(h, n, x.kind, x.eventId);
  }

  lemma HandleEnds(h: seq<Event>, n: nat, x: Handle, y: Handle)
    requires n < |h| && HandleTold(h, n, x) && x.eventId != 0 && EndsAs(h[n].attrs, x.kind, x.eventId)
    requires y == (if ResolvesAs(h[n].attrs, x.kind, x.eventId) then Resolved(x, h[n].attrs) else x.(closedByServer := true, scope := y.scope))
    ensures HandleTold(h, n + 1, y)
  {
    hide FirstToResolve, ResolvedWithin, ReadsAs;
    ResolvedGrows(h, n, x.kind, x.eventId);
    assert EndedWithin(h, n + 1, x.kind, x.eventId);
    if ResolvesAs(h[n].attrs, x.kind, x.eventId) && x.outcome.None? {
      assert FirstToResolve(h, n + 1, x.kind, x.eventId, n);
    }
  }

  lemma EndsNothing(h: seq<Event>, n: nat)
    requires n < |h| && Sound(h)
    ensures forall kind :: !EndsAs(h[n].attrs, kind, 0)
  {
  }

  /** An event that ends nothing the desk holds. */
  lemma DeskStays(h: seq<Event>, n: nat, d: Desk)
    requires n < |h| && DeskTold(h, n, d)
    requires forall k :: 0 <= k < |d.handles| ==> !EndsAs(h[n].attrs, d.handles[k].kind, d.handles[k].eventId)
    ensures DeskTold(h, n + 1, d)
  {
    hide HandleTold, EndsAs, Indexed, BindsTold, Tended;
    forall k | 0 <= k < |d.handles| ensures HandleTold(h, n + 1, d.handles[k]) {
      HandleStays(h, n, d.handles[k]);
    }
  }

  /** The handle an ending event names, if the desk knows one. */
  lemma EndedIsNamed(h: seq<Event>, n: nat, d: Desk, k: nat)
    requires n < |h| && Sound(h) && Indexed(d) && k < |d.handles|
    requires ResolvesActivity(h[n].attrs) || h[n].attrs.TimerFired?
    ensures EndsAs(h[n].attrs, d.handles[k].kind, d.handles[k].eventId) <==> Names(d, h[n].attrs, k)
    ensures Names(d, h[n].attrs, k) ==> d.handles[k].eventId != 0 && ResolvesAs(h[n].attrs, d.handles[k].kind, d.handles[k].eventId)
  {
    EndsNothing(h, n);
  }

  /** Handles keep their events and names; those that wait for one are untouched. */
  predicate KeepsNames(d: Desk, d': Desk) {
    && |d'.handles| == |d.handles| && d'.activities == d.activities && d'.timers == d.timers
    && forall k :: 0 <= k < |d.handles| ==>
         && d'.handles[k].eventId == d.handles[k].eventId && d'.handles[k].kind == d.handles[k].kind
         && d'.handles[k].name == d.handles[k].name
  }

  lemma IndexedKept(d: Desk, d': Desk)
    requires Indexed(d) && KeepsNames(d, d')
    ensures Indexed(d')
  {
  }

  lemma BindsKept(d: Desk, d': Desk)
    requires BindsTold(d) && KeepsNames(d, d') && d'.outstanding == d.outstanding
    requires forall k :: 0 <= k < |d.handles| && d.handles[k].eventId == 0 ==> d'.handles[k] == d.handles[k]
    ensures BindsTold(d')
  {
    forall i | 0 <= i < |d.outstanding| ensures BindTold(d', d.outstanding[i]) {
      assert BindTold(d, d.outstanding[i]);
    }
  }

  /** A resolving event settles its handle, and the desk says what the history says with that event. */
  lemma ResolvedTold(e: Env, h: seq<Event>, n: nat)
    requires n < |h| && Sound(h) && DeskTold(h, n, e.desk)
    requires ResolvesActivity(h[n].attrs) || h[n].attrs.TimerFired?
    ensures ApplyEvent(e, h[n]).Ok? && DeskTold(h, n + 1, ApplyEvent(e, h[n]).value.desk)
  {
    hide HandleTold, Indexed, BindsTold, Tended, ApplyEvent, Names, Resolved, EndsAs, ResolvesAs, ReadsAs, Sound;
    EventSettles(e, h[n]);
    EventTended(e, h[n]);
    var d, d' := e.desk, ApplyEvent(e, h[n]).value.desk;
    forall k | 0 <= k < |d.handles|
      ensures HandleTold(h, n + 1, d'.handles[k])
      ensures d.handles[k].eventId == 0 ==> d'.handles[k] == d.handles[k]
      ensures d'.handles[k].eventId == d.handles[k].eventId && d'.handles[k].kind == d.handles[k].kind
              && d'.handles[k].name == d.handles[k].name
    {
      EndedIsNamed(h, n, d, k);
      ResolvedShape(d.handles[k], h[n].attrs);
      if Names(d, h[n].attrs, k) {
        HandleEnds(h, n, d.handles[k], d'.handles[k]);
      } else {
        HandleStays(h, n, d.handles[k]);
      }
    }
    IndexedKept(d, d');
    BindsKept(d, d');
  }

  lemma ResolvedShape(x: Handle, a: Attrs)
    ensures Resolved(x, a).eventId == x.eventId && Resolved(x, a).kind == x.kind && Resolved(x, a).name == x.name
  {
  }

  // ----- commands confirmed by their events -----

  lemma PopTold(h: seq<Event>, n: nat, d: Desk)
    requires n <= |h| && DeskTold(h, n, d) && d.outstanding != []
    ensures DeskTold(h, n, d.(outstanding := d.outstanding[1..])) && BindTold(d, d.outstanding[0])
    ensures d.outstanding[0].bind.Some? ==> forall o :: o in d.outstanding[1..] ==> o.bind != d.outstanding[0].bind
  {
    hide HandleTold, Tended;
    var d1 := d.(outstanding := d.outstanding[1..]);
    assert BindTold(d, d.outstanding[0]);
    assert KeepsNames(d, d1);
    IndexedKept(d, d1);
    forall i | 0 <= i < |d1.outstanding| ensures BindTold(d1, d1.outstanding[i]) && d1.outstanding[i] == d.outstanding[i + 1] {
      assert BindTold(d, d.outstanding[i + 1]);
    }
    assert Tended(d1) by { TendedKept(d, d1); }
  }

  /** The event that opens a handle: nothing can have ended it yet. */
  lemma BoundTold(h: seq<Event>, n: nat, x: Handle)
    requires n < |h| && Sound(h) && HandleTold(h, n, x) && x.eventId == 0 && OpensAs(h[n].attrs, x.kind, x.name)
    requires x.outcome.Some? ==> x.canceled && x.outcome.value == CANCELED
    ensures HandleTold(h, n + 1, x.(eventId := n + 1))
  {
    assert !EndedWithin(h, n + 1, x.kind, n + 1) && !ResolvedWithin(h, n + 1, x.kind, n + 1);
  }

  lemma IdsBelow(h: seq<Event>, n: nat, d: Desk)
    requires n <= |h| && HandlesTold(h, n, d.handles) && Indexed(d)
    ensures (n + 1) !in d.activities && (n + 1) !in d.timers
    ensures forall k :: 0 <= k < |d.handles| ==> d.handles[k].eventId != n + 1
  {
    hide FirstToResolve, ResolvedWithin, EndedWithin, OpensAs;
    forall k | 0 <= k < |d.handles| ensures d.handles[k].eventId != n + 1 {
      assert HandleTold(h, n, d.handles[k]);
    }
  }

  lemma BindIndexed(d: Desk, k: nat, id: int)
    requires Indexed(d) && k < |d.handles| && d.handles[k].eventId == 0 && id != 0 && id !in d.activities && id !in d.timers
    requires forall l :: 0 <= l < |d.handles| ==> d.handles[l].eventId != id
    ensures Indexed(Bind(d, Some(k), id))
  {
    hide Tended;
    var d' := Bind(d, Some(k), id);
    forall l | 0 <= l < |d'.handles| && d'.handles[l].eventId != 0 ensures FoundAt(d', d'.handles[l], l) {
      assert l != k ==> FoundAt(d, d.handles[l], l);
    }
    forall j | j in d'.activities ensures NamedAt(d', d'.activities[j], ActivityHandle, j) {
      assert j in d.activities ==> NamedAt(d, d.activities[j], ActivityHandle, j);
    }
    forall j | j in d'.timers ensures NamedAt(d', d'.timers[j], TimerHandle, j) {
      assert j in d.timers ==> NamedAt(d, d.timers[j], TimerHandle, j);
    }
  }

  lemma BindKeepsOthers(d: Desk, k: nat, id: int)
    requires BindsTold(d) && k < |d.handles| && forall o :: o in d.outstanding ==> o.bind != Some(k)
    ensures BindsTold(Bind(d, Some(k), id))
  {
    var d' := Bind(d, Some(k), id);
    forall i | 0 <= i < |d.outstanding| ensures BindTold(d', d.outstanding[i]) {
      assert BindTold(d, d.outstanding[i]) && d.outstanding[i] in d.outstanding;
    }
  }

  lemma BindTended(d: Desk, k: nat, id: int)
    requires Tended(d) && k < |d.handles|
    ensures Tended(Bind(d, Some(k), id))
  {
    hide Tended;
    TendedKept(d, Bind(d, Some(k), id));
  }

  predicate EndsHandles(a: Attrs) { ResolvesActivity(a) || a.TimerFired? || a.TimerCanceled? }

  lemma EndsOnlyIf(a: Attrs)
    requires !EndsHandles(a)
    ensures forall kind, id :: !EndsAs(a, kind, id)
  {
  }

  /** A creating event binds the handle that waits for it. */
  lemma BindsHandle(h: seq<Event>, n: nat, d: Desk, k: nat)
    requires n < |h| && Sound(h) && DeskTold(h, n, d) && k < |d.handles| && !EndsHandles(h[n].attrs)
    requires d.handles[k].eventId == 0 && OpensAs(h[n].attrs, d.handles[k].kind, d.handles[k].name)
    requires d.handles[k].outcome.Some? ==> d.handles[k].canceled && d.handles[k].outcome.value == CANCELED
    requires forall o :: o in d.outstanding ==> o.bind != Some(k)
    ensures DeskTold(h, n + 1, Bind(d, Some(k), n + 1))
  {
    hide HandleTold, Indexed, BindsTold, Tended, OpensAs, EndsAs, EndsHandles, Sound;
    var d' := Bind(d, Some(k), n + 1);
    EndsOnlyIf(h[n].attrs);
    forall l | 0 <= l < |d'.handles| ensures HandleTold(h, n + 1, d'.handles[l]) {
      if l == k { BoundTold(h, n, d.handles[k]); } else { HandleStays(h, n, d.handles[l]); }
    }
    IdsBelow(h, n, d);
    BindIndexed(d, k, n + 1);
    BindKeepsOthers(d, k, n + 1);
    BindTended(d, k, n + 1);
  }

  /** A matched event other than a timer's cancellation. */
  lemma MatchTold(h: seq<Event>, n: nat, d: Desk)
    requires n < |h| && Sound(h) && DeskTold(h, n, d) && MatchCommand(d, h[n]).Ok? && !EndsHandles(h[n].attrs)
    ensures DeskTold(h, n + 1, MatchCommand(d, h[n]).value)
  {
    hide DeskTold, EndsAs, EndsHandles, Bind;
    PopTold(h, n, d);
    var d1 := d.(outstanding := d.outstanding[1..]);
    var o := d.outstanding[0];
    assert h[n].id == n + 1;
    if o.bind.Some? {
      BindsHandle(h, n, d1, o.bind.value);
    } else {
      EndsOnlyIf(h[n].attrs);
      DeskStays(h, n, d1);
      BindNothing(d1, n + 1);
    }
  }

  lemma BindNothing(d: Desk, id: int)
    ensures Bind(d, None, id) == d
  {
  }

  /** A canceled timer is closed by the server, with no outcome of its own. */
  lemma TakenBackTold(h: seq<Event>, n: nat, d: Desk)
    requires n < |h| && Sound(h) && DeskTold(h, n, d) && h[n].attrs.TimerCanceled? && ApplyToDesk(d, h[n]).Ok?
    ensures DeskTold(h, n + 1, ApplyToDesk(d, h[n]).value)
  {
    hide DeskTold, CloseHandle, Sound;
    PopTold(h, n, d);
    ClosedTold(h, n, d.(outstanding := d.outstanding[1..]));
  }

  lemma ClosedTold(h: seq<Event>, n: nat, d: Desk)
    requires n < |h| && Sound(h) && DeskTold(h, n, d) && h[n].attrs.TimerCanceled?
    ensures DeskTold(h, n + 1, CloseHandle(d, d.timers, h[n].attrs.startedId, None))
  {
    hide HandleTold, BindsTold, Tended;
    var st := h[n].attrs.startedId;
    var d' := CloseHandle(d, d.timers, st, None);
    CloseTended(d, d.timers, st, None);
    EndsNothing(h, n);
    forall k | 0 <= k < |d.handles| ensures HandleTold(h, n + 1, d'.handles[k]) {
      if st in d.timers && d.timers[st] == k {
        HandleEnds(h, n, d.handles[k], d'.handles[k]);
      } else {
        HandleStays(h, n, d.handles[k]);
      }
    }
    IndexedKept(d, d');
    BindsKept(d, d');
  }

  // ----- cancellations -----

  lemma WithdrawnTold(h: seq<Event>, n: nat, x: Handle)
    requires n <= |h| && HandleTold(h, n, x)
    ensures HandleTold(h, n, Withdrawn(x))
    ensures Withdrawn(x).outcome.Some? && Withdrawn(x).canceled
    ensures x.outcome.None? ==> Withdrawn(x).outcome.value == CANCELED
  {
    hide FirstToResolve, ResolvedWithin, EndedWithin, OpensAs;
  }

  predicate CreatesNothing(o: Outstanding) { o.bind.None? && !o.cmd.ScheduleActivity? && !o.cmd.StartTimer? }

  lemma {:induction false} QueuedCreatesNothing(hs: seq<Handle>, ks: seq<nat>, applying: bool)
    requires AllIn(ks, hs)
    ensures forall o :: o in Queued(hs, ks, applying) ==> CreatesNothing(o)
    decreases |ks|
  {
    if ks != [] {
      QueuedCreatesNothing(hs, ks[..|ks| - 1], applying);
    }
  }

  /** More commands that create nothing. */
  lemma BindsMore(d: Desk, d': Desk, more: seq<Outstanding>)
    requires BindsTold(d) && KeepsNames(d, d') && d'.outstanding == d.outstanding + more
    requires forall o :: o in more ==> CreatesNothing(o)
    requires forall k :: 0 <= k < |d.handles| ==> d'.handles[k] == d.handles[k] || d'.handles[k] == Withdrawn(d.handles[k])
    ensures BindsTold(d')
  {
    forall i | 0 <= i < |d'.outstanding| ensures BindTold(d', d'.outstanding[i]) {
      if i < |d.outstanding| {
        assert BindTold(d, d.outstanding[i]);
      } else {
        assert d'.outstanding[i] in more;
      }
    }
    forall i, j | 0 <= i < j < |d'.outstanding| && d'.outstanding[i].bind.Some?
      ensures d'.outstanding[i].bind != d'.outstanding[j].bind
    {
      if j >= |d.outstanding| { assert d'.outstanding[j] in more; }
      if i >= |d.outstanding| { assert d'.outstanding[i] in more; }
    }
  }

  lemma CanceledTold(h: seq<Event>, n: nat, d: Desk, i: nat, applying: bool)
    requires n <= |h| && DeskTold(h, n, d)
    ensures DeskTold(h, n, CancelTree(d, i, applying))
  {
    hide HandleTold, Indexed, BindsTold, Tended, CancelTree, CancelsTree, Withdrawn, Under;
    var d' := CancelTree(d, i, applying);
    CancelTreeCancels(d, i, applying);
    var ks :| CancelsTree(d, d', i, ks, applying);
    TreeQueues(d, d', i, ks, applying);
    QueuedCreatesNothing(d.handles, ks, applying);
    forall k | 0 <= k < |d.handles|
      ensures HandleTold(h, n, d'.handles[k])
      ensures d'.handles[k] == d.handles[k] || d'.handles[k] == Withdrawn(d.handles[k])
      ensures d'.handles[k].eventId == d.handles[k].eventId && d'.handles[k].kind == d.handles[k].kind && d'.handles[k].name == d.handles[k].name
    {
      WithdrawnTold(h, n, d.handles[k]);
      WithdrawnNames(d.handles[k]);
    }
    IndexedKept(d, d');
    BindsMore(d, d', if d.closed then [] else Queued(d.handles, ks, applying));
  }

  lemma WithdrawnNames(x: Handle)
    ensures Withdrawn(x).eventId == x.eventId && Withdrawn(x).kind == x.kind && Withdrawn(x).name == x.name
  {
  }

  lemma TreeQueues(d: Desk, d': Desk, i: nat, ks: seq<nat>, applying: bool)
    requires CancelsTree(d, d', i, ks, applying)
    ensures AllIn(ks, d.handles)
    ensures d'.outstanding == d.outstanding + (if d.closed then [] else Queued(d.handles, ks, applying))
    ensures d'.activities == d.activities && d'.timers == d.timers
  {
    hide Queued, Waiting, InOrder, ListsTree, TreeMarked;
  }

  lemma FlushedTold(h: seq<Event>, n: nat, d: Desk)
    requires n <= |h| && DeskTold(h, n, d)
    ensures DeskTold(h, n, FlushCancels(d))
  {
    hide HandleTold, Indexed, BindsTold, Tended, FlushCancels;
    FlushQueues(d);
    assert AllIn(d.pendingCancels, d.handles) by { TendedPending(d); }
    QueuedCreatesNothing(d.handles, d.pendingCancels, false);
    IndexedKept(d, FlushCancels(d));
    BindsMore(d, FlushCancels(d), if d.closed then [] else Queued(d.handles, d.pendingCancels, false));
  }

  lemma TendedPending(d: Desk)
    requires Tended(d)
    ensures AllIn(d.pendingCancels, d.handles)
  {
  }

  // ----- calls -----

  /** The desk with one more command that creates nothing, or closed. */
  lemma QueuedTold(h: seq<Event>, n: nat, d: Desk, d': Desk, more: seq<Outstanding>)
    requires n <= |h| && DeskTold(h, n, d) && (forall o :: o in more ==> CreatesNothing(o))
    requires d' == d.(outstanding := d.outstanding + more, closed := d'.closed)
    ensures DeskTold(h, n, d')
  {
    hide HandleTold, Indexed, BindsTold, Tended;
    TendedKept(d, d');
    IndexedKept(d, d');
    BindsMore(d, d', more);
  }

  /** A new handle, with the command that creates it if it waits for one. */
  lemma NewHandleTold(h: seq<Event>, n: nat, d: Desk, d': Desk, x: Handle, more: seq<Outstanding>)
    requires n <= |h| && DeskTold(h, n, d) && x.eventId == 0 && HandleTold(h, n, x)
    requires d' == d.(handles := d.handles + [x], outstanding := d.outstanding + more, activitySeq := d'.activitySeq, timerSeq := d'.timerSeq)
    requires x.scope.Some? ==> Live(d', x)
    requires more == [] || (|more| == 1 && more[0].bind == Some(|d.handles|) && BindTold(d', more[0]))
    ensures DeskTold(h, n, d')
  {
    hide HandleTold, Tended;
    TendedKept(d, d');
    forall i | 0 <= i < |d'.outstanding| ensures BindTold(d', d'.outstanding[i]) {
      if i < |d.outstanding| { assert BindTold(d, d.outstanding[i]); }
    }
    forall i, j | 0 <= i < j < |d'.outstanding| && d'.outstanding[i].bind.Some?
      ensures d'.outstanding[i].bind != d'.outstanding[j].bind
    {
      assert BindTold(d, d.outstanding[i]);
    }
    assert Indexed(d');
  }

  lemma ExecuteTold(h: seq<Event>, n: nat, e: Env, scope: nat, aid: string, o: ActivityOptions)
    requires n <= |h| && DeskTold(h, n, e.desk)
    ensures DeskTold(h, n, DoExecuteActivity(e, scope, aid, o).env.desk)
  {
    hide DeskTold, ActivityName, Bounded;
    var d := if aid == "" then e.desk.(activitySeq := e.desk.activitySeq + 1) else e.desk;
    var name := if aid == "" then ActivityName(d.activitySeq) else aid;
    if IsCanceled(d.scopes, scope) {
      NewHandleTold(h, n, e.desk, DoExecuteActivity(e, scope, aid, o).env.desk,
                    Handle(ActivityHandle, name, 0, false, false, None, Some(CANCELED)), []);
    } else {
      NewHandleTold(h, n, e.desk, DoExecuteActivity(e, scope, aid, o).env.desk,
                    Handle(ActivityHandle, name, 0, false, false, Registers(d, scope), None),
                    if d.closed then [] else [Outstanding(ScheduleActivity(name, Bounded(o)), Some(|d.handles|))]);
    }
  }

  lemma SleepTold(h: seq<Event>, n: nat, e: Env, scope: nat, duration: Duration)
    requires n <= |h| && DeskTold(h, n, e.desk)
    ensures DeskTold(h, n, DoNewTimer(e, scope, duration).env.desk)
  {
    hide DeskTold, TimerName;
    var d := e.desk.(timerSeq := e.desk.timerSeq + 1);
    var name := TimerName(d.timerSeq);
    var d' := DoNewTimer(e, scope, duration).env.desk;
    if IsCanceled(d.scopes, scope) {
      NewHandleTold(h, n, e.desk, d', Handle(TimerHandle, name, 0, false, false, None, Some(CANCELED)), []);
    } else if duration <= 0 {
      NewHandleTold(h, n, e.desk, d', Handle(TimerHandle, name, 0, false, false, None, Some(Answer(NoPayload, None))), []);
    } else {
      NewHandleTold(h, n, e.desk, d', Handle(TimerHandle, name, 0, false, false, Registers(d, scope), None),
                    if d.closed then [] else [Outstanding(StartTimer(name, duration), Some(|d.handles|))]);
    }
  }

  lemma OpenScopeTold(h: seq<Event>, n: nat, d: Desk, p: nat)
    requires n <= |h| && DeskTold(h, n, d)
    ensures DeskTold(h, n, DoOpenScope(d, p))
  {
    hide HandleTold, Tended, DoOpenScope;
    OpenTended(d, p);
    OpenKeeps(d, p);
    IndexedKept(d, DoOpenScope(d, p));
    BindsKept(d, DoOpenScope(d, p));
  }

  lemma OpenKeeps(d: Desk, p: nat)
    ensures DoOpenScope(d, p) == d.(scopes := DoOpenScope(d, p).scopes)
  {
  }

  /** A marker call queues a marker or nothing, and touches only its books beside that. */
  predicate Marks(e: Env, e': Env) {
    && e' == e.(desk := e'.desk, book := e'.book)
    && e'.desk == e.desk.(outstanding := e'.desk.outstanding)
    && e.desk.outstanding <= e'.desk.outstanding
    && forall o :: o in e'.desk.outstanding[|e.desk.outstanding|..] ==> CreatesNothing(o)
  }

  lemma OnceMarks(e: Env, kind: EffectKind, key: MarkerKey, m: Markers, r: bool, world: World)
    requires DoOnce(e, kind, key, m, r, world).Ok?
    ensures Marks(e, DoOnce(e, kind, key, m, r, world).value.env)
  {
    hide RecordAnswer, ReadBack;
  }

  lemma MutableMarks(e: Env, id: string, same: (Payload, Payload) -> bool, m: Markers, r: bool, world: World)
    requires DoMutable(e, id, same, m, r, world).Ok?
    ensures Marks(e, DoMutable(e, id, same, m, r, world).value.env)
  {
    hide MutableKey, ReadBack;
  }

  lemma VersionMarks(e: Env, id: string, lo: int, hi: int, m: Markers, r: bool)
    requires DoGetVersion(e, id, lo, hi, m, r).Ok?
    ensures Marks(e, DoGetVersion(e, id, lo, hi, m, r).value.env)
  {
    hide VersionKey;
  }

  lemma MarkerQueues(e: Env, call: Call, m: Markers, r: bool, world: World)
    requires MarkerCall(call) && Perform(e, call, m, r, world).Ok?
    ensures Marks(e, Perform(e, call, m, r, world).value.env)
  {
    hide DoOnce, DoMutable, DoGetVersion, SideKey, LocalKey;
    if call.SideEffect? {
      OnceMarks(NextSide(e), Plain, SideKey(e.book.sideSeq + 1), m, r, world);
    } else if call.LocalActivity? {
      OnceMarks(NextLocal(e), Local, LocalKey(e.book.localSeq + 1), m, r, world);
    } else if call.MutableSideEffect? {
      MutableMarks(e, call.id, call.same, m, r, world);
    } else {
      VersionMarks(e, call.changeId, call.minSupported, call.maxSupported, m, r);
    }
  }

  lemma PerformTold(h: seq<Event>, n: nat, e: Env, call: Call, m: Markers, r: bool, world: World)
    requires n <= |h| && DeskTold(h, n, e.desk) && Perform(e, call, m, r, world).Ok?
    ensures DeskTold(h, n, Perform(e, call, m, r, world).value.env.desk)
  {
    hide DeskTold, DoOnce, DoMutable, DoGetVersion, DoExecuteActivity, DoNewTimer, CancelTree, DoOpenScope;
    if MarkerCall(call) {
      MarkerQueues(e, call, m, r, world);
      var d' := Perform(e, call, m, r, world).value.env.desk;
      assert Marks(e, Perform(e, call, m, r, world).value.env);
      QueuedTold(h, n, e.desk, d', d'.outstanding[|e.desk.outstanding|..]);
    } else if call.OpenScope? {
      OpenScopeTold(h, n, e.desk, call.parent);
    } else if call.CancelScope? {
      CanceledTold(h, n, e.desk, call.scope, false);
    } else if call.ExecuteActivity? {
      ExecuteTold(h, n, e, call.scope, call.activityId, call.options);
    } else if call.NewTimer? {
      SleepTold(h, n, e, call.scope, call.duration);
    }
  }

  lemma CompleteTold(h: seq<Event>, n: nat, d: Desk, ret: Return)
    requires n <= |h| && DeskTold(h, n, d)
    ensures DeskTold(h, n, Complete(d, ret))
  {
    hide DeskTold;
    QueuedTold(h, n, d, Complete(d, ret), if d.closed then [] else [Outstanding(ClosingCommand(ret), None)]);
  }

  // ------------------------------------------------------------------
  // Signals and the clock
  // ------------------------------------------------------------------

  /** What is waiting to be received under a name. */
  function Queue(e: Env, name: string): seq<Payload> { if name in e.signals then e.signals[name] else [] }

  /** The queue of each name is the tail of its signals: what has been handed out is exactly the part before it. */
  ghost predicate Inbox(h: seq<Event>, n: nat, e: Env)
    requires n <= |h|
  {
    forall name: string :: InboxOf(h, n, e, name)
  }

  predicate InboxOf(h: seq<Event>, n: nat, e: Env, name: string)
    requires n <= |h|
  {
    var all, left := SignalsIn(h, n, name), Queue(e, name);
    |left| <= |all| && left == all[|all| - |left|..]
  }

  /** How many signals of a name the code has received. */
  function HandedOut(h: seq<Event>, n: nat, e: Env, name: string): int
    requires n <= |h|
  {
    |SignalsIn(h, n, name)| - |Queue(e, name)|
  }

  /** Event `i` is the last that set the clock: the start of the run or of a workflow task. */
  ghost predicate TurnedAt(h: seq<Event>, n: nat, i: nat)
    requires n <= |h|
  {
    i < n && (i == 0 || h[i].attrs.TaskStarted?) && forall j :: i < j < n ==> !h[j].attrs.TaskStarted?
  }

  ghost predicate ClockAt(h: seq<Event>, n: nat, t: Time)
    requires n <= |h|
  {
    exists i: nat :: TurnedAt(h, n, i) && t == h[i].time
  }

  ghost predicate TimeTold(h: seq<Event>, n: nat, e: Env)
    requires n <= |h|
  {
    if n == 0 then e.now == 0
    else h[0].attrs.ExecutionStarted? && e.start == h[0].attrs.start && e.startedAt == h[0].time && ClockAt(h, n, e.now)
  }

  /** The environment says what the first `n` events say. */
  ghost predicate EnvTold(h: seq<Event>, n: nat, e: Env)
    requires n <= |h|
  {
    DeskTold(h, n, e.desk) && TimeTold(h, n, e) && Inbox(h, n, e)
  }

  lemma ClockStays(h: seq<Event>, n: nat, t: Time)
    requires 0 < n < |h| && ClockAt(h, n, t) && !h[n].attrs.TaskStarted?
    ensures ClockAt(h, n + 1, t)
  {
    var i: nat :| TurnedAt(h, n, i) && t == h[i].time;
    assert TurnedAt(h, n + 1, i);
  }

  lemma TimeStays(h: seq<Event>, n: nat, e: Env, e': Env)
    requires n < |h| && Sound(h) && TimeTold(h, n, e) && !h[n].attrs.TaskStarted? && n > 0
    requires e'.now == e.now && e'.start == e.start && e'.startedAt == e.startedAt
    ensures TimeTold(h, n + 1, e')
  {
    ClockStays(h, n, e.now);
  }

  lemma InboxStays(h: seq<Event>, n: nat, e: Env, e': Env)
    requires n < |h| && Inbox(h, n, e) && !h[n].attrs.Signaled? && e'.signals == e.signals
    ensures Inbox(h, n + 1, e')
  {
    var next := n + 1;
    forall name: string ensures InboxOf(h, next, e', name) {
      assert InboxOf(h, n, e, name);
    }
  }

  lemma TurnTold(h: seq<Event>, n: nat, e: Env)
    requires n < |h| && Sound(h) && EnvTold(h, n, e) && h[n].attrs.TaskStarted?
    ensures EnvTold(h, n + 1, Advance(e, h[n].time))
  {
    hide DeskTold, EndsAs, Inbox;
    assert h[0].attrs.ExecutionStarted?;
    EndsOnlyIf(h[n].attrs);
    DeskStays(h, n, e.desk);
    assert TurnedAt(h, n + 1, n);
    InboxStays(h, n, e, Advance(e, h[n].time));
  }

  lemma SignalTold(h: seq<Event>, n: nat, e: Env)
    requires n < |h| && Sound(h) && EnvTold(h, n, e) && h[n].attrs.Signaled?
    ensures ApplyEvent(e, h[n]).Ok? && EnvTold(h, n + 1, ApplyEvent(e, h[n]).value)
  {
    hide DeskTold, EndsAs, Inbox, Sound;
    EndsOnlyIf(h[n].attrs);
    DeskStays(h, n, e.desk);
    NotFirst(h, n);
    TimeStays(h, n, e, ApplyEvent(e, h[n]).value);
    InboxGains(h, n, e);
  }

  lemma NotFirst(h: seq<Event>, n: nat)
    requires n < |h| && Sound(h) && !h[n].attrs.ExecutionStarted?
    ensures n > 0
  {
  }

  lemma InboxGainsAt(h: seq<Event>, n: nat, e: Env, name: string)
    requires n < |h| && InboxOf(h, n, e, name) && h[n].attrs.Signaled?
    ensures InboxOf(h, n + 1, ApplyEvent(e, h[n]).value, name)
  {
    var e' := ApplyEvent(e, h[n]).value;
    var all, left := SignalsIn(h, n, name), Queue(e, name);
    if name == h[n].attrs.signalName {
      assert Queue(e', name) == left + [h[n].attrs.input];
      assert SignalsIn(h, n + 1, name) == all + [h[n].attrs.input];
    } else {
      assert Queue(e', name) == left;
      assert SignalsIn(h, n + 1, name) == all + [];
    }
  }

  lemma SignalApplies(e: Env, ev: Event)
    requires ev.attrs.Signaled?
    ensures ApplyEvent(e, ev).Ok?
  {
  }

  lemma InboxGains(h: seq<Event>, n: nat, e: Env)
    requires n < |h| && Inbox(h, n, e) && h[n].attrs.Signaled?
    ensures Inbox(h, n + 1, ApplyEvent(e, h[n]).value)
  {
    SignalApplies(e, h[n]);
    hide InboxOf, ApplyEvent;
    var next, e' := n + 1, ApplyEvent(e, h[n]).value;
    forall name: string ensures InboxOf(h, next, e', name) {
      assert InboxOf(h, n, e, name);
      InboxGainsAt(h, n, e, name);
    }
  }

  lemma BeginTold(h: seq<Event>, e: Env)
    requires 0 < |h| && Sound(h) && EnvTold(h, 0, e)
    ensures ApplyEvent(e, h[0]).Ok? && EnvTold(h, 1, ApplyEvent(e, h[0]).value)
  {
    hide DeskTold, EndsAs, Inbox;
    assert h[0].attrs.ExecutionStarted?;
    EndsOnlyIf(h[0].attrs);
    DeskStays(h, 0, e.desk);
    assert TurnedAt(h, 1, 0);
    InboxStays(h, 0, e, ApplyEvent(e, h[0]).value);
  }

  lemma DeskEventTold(h: seq<Event>, n: nat, e: Env)
    requires n < |h| && Sound(h) && DeskTold(h, n, e.desk)
    requires !h[n].attrs.ExecutionStarted? && !h[n].attrs.Signaled? && ApplyEvent(e, h[n]).Ok?
    ensures DeskTold(h, n + 1, ApplyEvent(e, h[n]).value.desk)
    ensures ApplyEvent(e, h[n]).value == e.(desk := ApplyEvent(e, h[n]).value.desk)
  {
    hide DeskTold, EndsAs, MatchCommand, CloseHandle, CancelTree, Sound;
    var a := h[n].attrs;
    if ResolvesActivity(a) || a.TimerFired? {
      ResolvedTold(e, h, n);
    } else if a.TimerCanceled? {
      TakenBackTold(h, n, e.desk);
    } else {
      EndsOnlyIf(a);
      if a.CancelRequested? {
        CanceledTold(h, n, e.desk, 0, true);
        DeskStays(h, n, CancelTree(e.desk, 0, true));
      } else if CommandDerived(a) {
        MatchTold(h, n, e.desk);
      } else {
        DeskStays(h, n, e.desk);
      }
    }
  }

  lemma EventTold(h: seq<Event>, n: nat, e: Env)
    requires n < |h| && Sound(h) && EnvTold(h, n, e) && !h[n].attrs.TaskStarted? && ApplyEvent(e, h[n]).Ok?
    ensures EnvTold(h, n + 1, ApplyEvent(e, h[n]).value)
  {
    hide DeskTold, Inbox, TimeTold, ApplyEvent;
    if h[n].attrs.ExecutionStarted? {
      BeginTold(h, e);
    } else if h[n].attrs.Signaled? {
      SignalTold(h, n, e);
    } else {
      DeskEventTold(h, n, e);
      TimeStays(h, n, e, ApplyEvent(e, h[n]).value);
      InboxStays(h, n, e, ApplyEvent(e, h[n]).value);
    }
  }

  // ------------------------------------------------------------------
  // Runs
  // ------------------------------------------------------------------

  lemma PlainKeepsInbox(e: Env, call: Call)
    requires !MarkerCall(call)
    ensures
      var e' := DoPlain(e, call).env;
      && e'.start == e.start && e'.startedAt == e.startedAt && e'.now == e.now
      && (!call.TryReceive? ==> e'.signals == e.signals)
  {
    hide CancelTree, DoOpenScope, ActivityName, TimerName, Bounded;
  }

  lemma ReceiveTold(h: seq<Event>, n: nat, e: Env, name: string)
    requires n <= |h| && Inbox(h, n, e)
    ensures
      var a := DoPlain(e, TryReceive(name));
      var taken := HandedOut(h, n, e, name);
      && Inbox(h, n, a.env)
      && 0 <= taken <= |SignalsIn(h, n, name)|
      && (if taken < |SignalsIn(h, n, name)|
          then a.reply == Reply.Received(SignalsIn(h, n, name)[taken]) && HandedOut(h, n, a.env, name) == taken + 1
          else a.reply == Nothing && a.env == e)
      && forall other: string :: other != name ==> HandedOut(h, n, a.env, other) == HandedOut(h, n, e, other)
  {
    hide InboxOf, SignalsIn, DoPlain, HandedOut;
    assert InboxOf(h, n, e, name);
    var e' := DoPlain(e, TryReceive(name)).env;
    ReceiveOne(h, n, e, name);
    forall other: string ensures InboxOf(h, n, e', other) && (other != name ==> HandedOut(h, n, e', other) == HandedOut(h, n, e, other)) {
      assert InboxOf(h, n, e, other);
      if other != name { ReceiveOther(h, n, e, name, other); }
    }
  }

  lemma ReceiveOne(h: seq<Event>, n: nat, e: Env, name: string)
    requires n <= |h| && InboxOf(h, n, e, name)
    ensures
      var a := DoPlain(e, TryReceive(name));
      var taken := HandedOut(h, n, e, name);
      && InboxOf(h, n, a.env, name)
      && 0 <= taken <= |SignalsIn(h, n, name)|
      && (if taken < |SignalsIn(h, n, name)|
          then a.reply == Reply.Received(SignalsIn(h, n, name)[taken]) && HandedOut(h, n, a.env, name) == taken + 1
          else a.reply == Nothing && a.env == e)
  {
    hide SignalsIn;
  }

  lemma ReceiveOther(h: seq<Event>, n: nat, e: Env, name: string, other: string)
    requires n <= |h| && InboxOf(h, n, e, other) && other != name
    ensures
      var e' := DoPlain(e, TryReceive(name)).env;
      InboxOf(h, n, e', other) && HandedOut(h, n, e', other) == HandedOut(h, n, e, other)
  {
    hide SignalsIn;
  }

  lemma CallTold(h: seq<Event>, n: nat, e: Env, call: Call, m: Markers, r: bool, world: World)
    requires n <= |h| && EnvTold(h, n, e) && Perform(e, call, m, r, world).Ok?
    ensures EnvTold(h, n, Perform(e, call, m, r, world).value.env)
  {
    hide DeskTold, Inbox, DoOnce, DoMutable, DoGetVersion, DoPlain, ClockAt;
    PerformTold(h, n, e, call, m, r, world);
    if MarkerCall(call) {
      MarkerQueues(e, call, m, r, world);
      SameInbox(h, n, e, Perform(e, call, m, r, world).value.env);
    } else {
      PlainKeepsInbox(e, call);
      if call.TryReceive? {
        ReceiveTold(h, n, e, call.signal);
      } else {
        SameInbox(h, n, e, DoPlain(e, call).env);
      }
    }
  }

  lemma SameInbox(h: seq<Event>, n: nat, e: Env, e': Env)
    requires n <= |h| && Inbox(h, n, e) && e'.signals == e.signals
    ensures Inbox(h, n, e')
  {
    forall name: string ensures InboxOf(h, n, e', name) {
      assert InboxOf(h, n, e, name);
    }
  }

  lemma RedeskTold(h: seq<Event>, n: nat, e: Env, d: Desk)
    requires n <= |h| && EnvTold(h, n, e) && DeskTold(h, n, d)
    ensures EnvTold(h, n, e.(desk := d))
  {
    hide DeskTold, Inbox, ClockAt;
    SameInbox(h, n, e, e.(desk := d));
  }

  lemma {:induction false} AskedTold<P>(w: Workflow<P>, h: seq<Event>, n: nat, e: Env, p: P, m: Markers, r: bool, world: World, j: nat)
    requires n <= |h| && EnvTold(h, n, e) && Asked(w, e, p, m, r, world, j).Ok?
    ensures EnvTold(h, n, Asked(w, e, p, m, r, world, j).value.0)
    decreases j
  {
    hide EnvTold, Perform;
    if j > 0 {
      var call := w.next(p).call;
      CallTold(h, n, e, call, m, r, world);
      var a := Perform(e, call, m, r, world).value;
      AskedTold(w, h, n, a.env, w.resume(p, a.reply), m, r, world, j - 1);
    }
  }

  lemma {:induction false} StepsTold<P>(w: Workflow<P>, h: seq<Event>, n: nat, e: Env, p: P, m: Markers, r: bool, world: World, fuel: nat)
    requires n <= |h| && EnvTold(h, n, e) && Steps(w, e, p, m, r, world, fuel).Ok?
    ensures EnvTold(h, n, Steps(w, e, p, m, r, world, fuel).value.env)
    decreases fuel
  {
    hide EnvTold, Perform, Complete;
    match w.next(p)
    case Return(ret) =>
      assert DeskTold(h, n, e.desk) by { EnvDesk(h, n, e); }
      CompleteTold(h, n, e.desk, ret);
      RedeskTold(h, n, e, Complete(e.desk, ret));
    case Ask(call) =>
      CallTold(h, n, e, call, m, r, world);
      var a := Perform(e, call, m, r, world).value;
      StepsTold(w, h, n, a.env, w.resume(p, a.reply), m, r, world, fuel - 1);
    case _ =>
  }

  lemma EnvDesk(h: seq<Event>, n: nat, e: Env)
    requires n <= |h| && EnvTold(h, n, e)
    ensures DeskTold(h, n, e.desk)
  {
  }

  lemma FlushTold(h: seq<Event>, n: nat, e: Env)
    requires n <= |h| && EnvTold(h, n, e)
    ensures EnvTold(h, n, e.(desk := FlushCancels(e.desk)))
  {
    hide EnvTold, FlushCancels;
    EnvDesk(h, n, e);
    FlushedTold(h, n, e.desk);
    RedeskTold(h, n, e, FlushCancels(e.desk));
  }

  lemma RunTold<P>(w: Workflow<P>, h: seq<Event>, n: nat, c: Core<P>, m: Markers, r: bool, world: World, fuel: nat)
    requires n <= |h| && EnvTold(h, n, c.env) && RunCode(w, c, m, r, world, fuel).Ok?
    ensures EnvTold(h, n, RunCode(w, c, m, r, world, fuel).value.env)
  {
    hide EnvTold, Steps, FlushCancels;
    FlushTold(h, n, c.env);
    var e := c.env.(desk := FlushCancels(c.env.desk));
    if !e.desk.closed {
      StepsTold(w, h, n, e, if c.code.Some? then c.code.value else w.begin(e.start, e.startedAt), m, r, world, fuel);
    }
  }

  lemma FreshTold<P>(h: seq<Event>)
    ensures EnvTold(h, 0, Fresh<P>().env)
  {
    var e := Fresh<P>().env;
    FreshTended<P>();
    forall name: string ensures InboxOf(h, 0, e, name) {
    }
  }

  /** A replay of a well-formed history leaves an environment that says what the history says. */
  lemma {:induction false} ReplayTells<P>(w: Workflow<P>, m: Markers, h: seq<Event>, n: nat, world: World, fuel: nat)
    requires Sound(h) && n <= |h| && ReplayRange(w, Fresh<P>(), m, h, 0, n, world, fuel).Ok?
    ensures EnvTold(h, n, ReplayRange(w, Fresh<P>(), m, h, 0, n, world, fuel).value.env)
    decreases n
  {
    hide EnvTold, RunCode, ApplyEvent, Sound, Fresh;
    if n == 0 {
      FreshTold<P>(h);
    } else {
      ReplayTells(w, m, h, n - 1, world, fuel);
      var c := ReplayRange(w, Fresh<P>(), m, h, 0, n - 1, world, fuel).value;
      if h[n - 1].attrs.TaskStarted? {
        TurnTold(h, n - 1, c.env);
        if CompletedNext(h, n - 1) { RunTold(w, h, n, c.(env := Advance(c.env, h[n - 1].time)), m, true, world, fuel); }
      } else {
        EventTold(h, n - 1, c.env);
      }
    }
  }

  /** What the code is answered: a future is pending exactly until the history resolves it and then reads as the resolving event,
      unless it was canceled first; signals arrive in the order recorded; the clock is that of the last turn. */
  ghost predicate ReplyTold(h: seq<Event>, n: nat, e: Env, call: Call, reply: Reply)
    requires 0 < n <= |h|
  {
    match call
    case Poll(k) =>
      if k >= |e.desk.handles| then reply == Pending
      else if e.desk.handles[k].eventId == 0 then
        reply in {Pending, Settled(CANCELED)} || (e.desk.handles[k].kind.TimerHandle? && reply == Settled(Answer(NoPayload, None)))
      else
        var x := e.desk.handles[k];
        && 1 <= x.eventId <= n && OpensAs(h[x.eventId - 1].attrs, x.kind, x.name)
        && (!x.canceled ==> (reply == Pending <==> !ResolvedWithin(h, n, x.kind, x.eventId)))
        && (forall i: nat :: FirstToResolve(h, n, x.kind, x.eventId, i) && !x.canceled ==> reply == Settled(ReadsAs(h[i].attrs)))
        && (x.canceled ==> reply == Settled(CANCELED) || exists i: nat :: FirstToResolve(h, n, x.kind, x.eventId, i)
                                                                      && reply == Settled(ReadsAs(h[i].attrs)))
    case TryReceive(name) =>
      var taken := HandedOut(h, n, e, name);
      && 0 <= taken <= |SignalsIn(h, n, name)|
      && reply == if taken < |SignalsIn(h, n, name)| then Reply.Received(SignalsIn(h, n, name)[taken]) else Nothing
    case ScopeCanceled(i) => reply == Flag(i < |e.desk.scopes| && e.desk.scopes[i].canceled)
    case Now => exists i: nat :: TurnedAt(h, n, i) && reply == Instant(h[i].time)
    case _ => true
  }

  lemma PollTold(h: seq<Event>, n: nat, e: Env, k: nat)
    requires 0 < n <= |h| && EnvTold(h, n, e)
    ensures ReplyTold(h, n, e, Poll(k), DoPlain(e, Poll(k)).reply)
  {
    hide Indexed, BindsTold, Tended, TimeTold, Inbox, OpensAs, EndedWithin, ReadsAs;
    if k < |e.desk.handles| {
      var x := e.desk.handles[k];
      assert HandleTold(h, n, x);
      forall i: nat, j: nat | FirstToResolve(h, n, x.kind, x.eventId, i) && FirstToResolve(h, n, x.kind, x.eventId, j) ensures i == j {
      }
    }
  }

  lemma CallReplies(h: seq<Event>, n: nat, e: Env, call: Call, m: Markers, r: bool, world: World)
    requires 0 < n <= |h| && EnvTold(h, n, e) && Perform(e, call, m, r, world).Ok?
    ensures ReplyTold(h, n, e, call, Perform(e, call, m, r, world).value.reply)
  {
    hide DeskTold, HandleTold, Inbox, FirstToResolve, SignalsIn, DoOnce, DoMutable, DoGetVersion;
    if call.Poll? {
      PollTold(h, n, e, call.promise);
    } else if call.TryReceive? {
      ReceiveTold(h, n, e, call.signal);
    }
  }

  /** Wherever workflow code stands, replaying or live, after the first `n` events of a well-formed history and any number of
      calls: the environment still says what the history says, and so does the answer to the next call. */
  lemma AnswersAreRecorded<P>(w: Workflow<P>, m: Markers, h: seq<Event>, n: nat, before: World, fuel: nat, p: P, m': Markers, r: bool,
                              world: World, j: nat, call: Call)
    requires WellFormed(h) && 0 < n <= |h| && Resumed(w, m, h, n, before, fuel).Ok?
    requires Asked(w, Resumed(w, m, h, n, before, fuel).value.env, p, m', r, world, j).Ok?
    ensures
      var e := Asked(w, Resumed(w, m, h, n, before, fuel).value.env, p, m', r, world, j).value.0;
      && EnvTold(h, n, e)
      && (Perform(e, call, m', r, world).Ok? ==> ReplyTold(h, n, e, call, Perform(e, call, m', r, world).value.reply))
  {
    hide EnvTold, ReplyTold, Sound, WellFormed, Perform, Asked, ReplayRange, FlushCancels, Fresh;
    WellFormedSound(h);
    ReplayTells(w, m, h, n, before, fuel);
    FlushTold(h, n, ReplayRange(w, Fresh<P>(), m, h, 0, n, before, fuel).value.env);
    AskedTold(w, h, n, Resumed(w, m, h, n, before, fuel).value.env, p, m', r, world, j);
    var e := Asked(w, Resumed(w, m, h, n, before, fuel).value.env, p, m', r, world, j).value.0;
    if Perform(e, call, m', r, world).Ok? {
      CallReplies(h, n, e, call, m', r, world);
    }
  }

  // ------------------------------------------------------------------
  // How a run begins and ends
  // ------------------------------------------------------------------

  /** The code of a run begins, after any number of events, from what event 1 says, and once the cancels that had to wait are
      queued; later it goes on where it blocked. A workflow that has closed is not run again. */
  lemma CodeBegins<P>(w: Workflow<P>, m: Markers, h: seq<Event>, n: nat, before: World, fuel: nat, m': Markers, r: bool, world: World)
    requires WellFormed(h) && 0 < n <= |h| && ReplayRange(w, Fresh<P>(), m, h, 0, n, before, fuel).Ok?
    ensures h[0].attrs.ExecutionStarted?
    ensures
      var c := ReplayRange(w, Fresh<P>(), m, h, 0, n, before, fuel).value;
      var e := Resumed(w, m, h, n, before, fuel).value.env;
      var run := RunCode(w, c, m', r, world, fuel);
      if e.desk.closed then run == Ok(c.(env := e))
      else run == Steps(w, e, if c.code.None? then w.begin(h[0].attrs.start, h[0].time) else c.code.value, m', r, world, fuel)
  {
    hide Steps, ReplayRange, DeskTold, Inbox, FlushCancels, WellFormed, Sound, Fresh;
    WellFormedSound(h);
    ReplayTells(w, m, h, n, before, fuel);
  }

  /** A run ends with the call at which the code blocks, returns or panics: a return queues its closing command and nothing after
      it, a block leaves the code where it will be woken, and code that asks too often is stopped. */
  lemma {:induction false} RunEndsWithCode<P>(w: Workflow<P>, e: Env, p: P, m: Markers, r: bool, world: World, fuel: nat, j: nat)
    requires Asked(w, e, p, m, r, world, j).Ok?
    ensures
      var (e', p') := Asked(w, e, p, m, r, world, j).value;
      var run := Steps(w, e, p, m, r, world, fuel);
      if j >= fuel then run == Err(ErrDeadlock)
      else
        match w.next(p')
        case Return(ret) => run == Ok(Core(Some(p'), e'.(desk := Complete(e'.desk, ret))))
        case Block => run == Ok(Core(Some(w.resume(p', Woken)), e'))
        case Panic => run == Err(ErrPanic)
        case Ask(call) => Perform(e', call, m, r, world).Err? ==> run.Err? && run.error == Perform(e', call, m, r, world).error
    decreases j
  {
    hide Perform, Complete;
    if j > 0 && fuel > 0 {
      var a := Perform(e, w.next(p).call, m, r, world).value;
      RunEndsWithCode(w, a.env, w.resume(p, a.reply), m, r, world, fuel - 1, j - 1);
    }
  }
}
