/** One task queue: a backlog, parked pollers with a one-task slot each, and the races between them
    (internal/matching/matching.go). */
module Matching {
  import opened Prelude

  type Task = int

  /** A parked poller: off the list once settled, with at most one task in its slot. */
  datatype Waiter = Waiter(settled: bool, slot: Option<Task>)

  /** `parked` lists waiters by index, oldest first. The last four fields record where tasks have gone. */
  datatype Queue = Queue(
    backlog: seq<Task>, parked: seq<nat>, waiters: seq<Waiter>,
    accepted: multiset<Task>, delivered: multiset<Task>, drained: multiset<Task>, queued: seq<Task>, left: nat)

  const EMPTY := Queue([], [], [], multiset{}, multiset{}, multiset{}, [], 0)

  // ------------------------------------------------------------------
  // The critical sections as functions
  // ------------------------------------------------------------------

  /** The first parked waiter that has not given up, or the length of the list. */
  function FirstLive(parked: seq<nat>, waiters: seq<Waiter>): (k: nat)
    ensures k <= |parked|
    ensures k < |parked| ==> parked[k] < |waiters| && !waiters[parked[k]].settled
    ensures forall i :: 0 <= i < k ==> parked[i] >= |waiters| || waiters[parked[i]].settled
  {
    if parked == [] then 0
    else if parked[0] < |waiters| && !waiters[parked[0]].settled then 0
    else 1 + FirstLive(parked[1..], waiters)
  }

  /** Hands a task to the poller that has waited longest, or queues it, or refuses it when the backlog is full. */
  function Offer(q: Queue, t: Task, bound: nat): (Queue, bool) {
    var k := FirstLive(q.parked, q.waiters);
    if k < |q.parked| then
      (q.(parked := q.parked[k + 1..], waiters := q.waiters[q.parked[k] := Waiter(true, Some(t))],
          accepted := q.accepted + multiset{t}), true)
    else if |q.backlog| >= bound then (q.(parked := []), false)
    else (q.(parked := [], backlog := q.backlog + [t], queued := q.queued + [t], accepted := q.accepted + multiset{t}), true)
  }

  function TakeBacklog(q: Queue): (Queue, Option<Task>) {
    if q.backlog == [] then (q, None)
    else (q.(backlog := q.backlog[1..], left := q.left + 1, delivered := q.delivered + multiset{q.backlog[0]}), Some(q.backlog[0]))
  }

  function Park(q: Queue): (Queue, nat) {
    (q.(parked := q.parked + [|q.waiters|], waiters := q.waiters + [Waiter(false, None)]), |q.waiters|)
  }

  function Remove(parked: seq<nat>, w: nat): seq<nat> {
    if parked == [] then [] else if parked[0] == w then parked[1..] else [parked[0]] + Remove(parked[1..], w)
  }

  /** Taking the task out of a waiter's slot. */
  function Collect(q: Queue, w: nat): (Queue, Option<Task>)
    requires w < |q.waiters|
  {
    match q.waiters[w].slot
    case None => (q, None)
    case Some(t) => (q.(waiters := q.waiters[w := q.waiters[w].(slot := None)], delivered := q.delivered + multiset{t}), Some(t))
  }

  /** A poller that stops waiting; if a producer got there first, its task is already in the slot. */
  function Unpark(q: Queue, w: nat): (Queue, Option<Task>)
    requires w < |q.waiters|
  {
    if q.waiters[w].settled then Collect(q, w)
    else (q.(parked := Remove(q.parked, w), waiters := q.waiters[w := q.waiters[w].(settled := true)]), None)
  }

  function SettleAll(waiters: seq<Waiter>, parked: seq<nat>): (r: seq<Waiter>)
    ensures |r| == |waiters|
    decreases |parked|
  {
    if parked == [] then waiters
    else if parked[0] < |waiters| then SettleAll(waiters[parked[0] := waiters[parked[0]].(settled := true)], parked[1..])
    else SettleAll(waiters, parked[1..])
  }

  function Drain(q: Queue): Queue {
    q.(backlog := [], left := |q.queued|, drained := q.drained + multiset(q.backlog), parked := [],
       waiters := SettleAll(q.waiters, q.parked))
  }

  // ------------------------------------------------------------------
  // The invariant
  // ------------------------------------------------------------------

  /** The tasks sitting in slots. */
  function InSlots(waiters: seq<Waiter>): multiset<Task> {
    if waiters == [] then multiset{}
    else InSlots(waiters[..|waiters| - 1]) + SlotOf(waiters[|waiters| - 1])
  }

  /** Every accepted task is in exactly one place. */
  predicate Conserved(q: Queue) {
    q.accepted == multiset(q.backlog) + InSlots(q.waiters) + q.delivered + q.drained
  }

  /** A waiter is listed exactly while it is unsettled, once, and its slot is empty until then: a send never blocks. */
  predicate WellParked(parked: seq<nat>, waiters: seq<Waiter>) {
    && (forall i :: 0 <= i < |parked| ==> parked[i] < |waiters| && !waiters[parked[i]].settled)
    && (forall i, j :: 0 <= i < j < |parked| ==> parked[i] != parked[j])
    && (forall w :: 0 <= w < |waiters| && !waiters[w].settled ==> w in parked && waiters[w].slot.None?)
  }

  /** Backlog tasks leave in the order they came. */
  predicate InOrder(q: Queue) { q.left <= |q.queued| && q.backlog == q.queued[q.left..] }

  predicate Inv(q: Queue) { Conserved(q) && WellParked(q.parked, q.waiters) && InOrder(q) }

  // ----- counting -----

  /** A task moves from one place to another. */
  lemma Moved(a: multiset<Task>, b: multiset<Task>, s: multiset<Task>, s': multiset<Task>, d: multiset<Task>, r: multiset<Task>, t: multiset<Task>)
    requires a == b + s + d + r && s' + t == s
    ensures a == b + s' + (d + t) + r
  {
  }

  lemma Swapped(a: multiset<Task>, b: multiset<Task>, c: multiset<Task>, d: multiset<Task>, e: multiset<Task>)
    requires a + b == c + d
    ensures (a + e) + b == (c + e) + d
  {
    assert (a + e) + b == (a + b) + e;
    assert (c + e) + d == (c + d) + e;
  }

  // ----- slots -----

  lemma {:induction false} SlotsPut(waiters: seq<Waiter>, w: nat, x: Waiter)
    requires w < |waiters|
    ensures InSlots(waiters[w := x]) + SlotOf(waiters[w]) == InSlots(waiters) + SlotOf(x)
    decreases |waiters|
  {
    hide SlotOf;
    var n := |waiters| - 1;
    var after := waiters[w := x];
    if w == n {
      assert after[..n] == waiters[..n];
    } else {
      assert after[..n] == waiters[..n][w := x];
      SlotsPut(waiters[..n], w, x);
      Swapped(InSlots(after[..n]), SlotOf(waiters[w]), InSlots(waiters[..n]), SlotOf(x), SlotOf(waiters[n]));
    }
  }

  function SlotOf(w: Waiter): multiset<Task> { match w.slot case Some(t) => multiset{t} case None => multiset{} }

  lemma SlotsPush(waiters: seq<Waiter>, x: Waiter)
    ensures InSlots(waiters + [x]) == InSlots(waiters) + SlotOf(x)
  {
    assert (waiters + [x])[..|waiters|] == waiters;
  }

  lemma SettledSlots(waiters: seq<Waiter>, w: nat)
    requires w < |waiters|
    ensures InSlots(waiters[w := waiters[w].(settled := true)]) == InSlots(waiters)
  {
    hide InSlots;
    var x := waiters[w].(settled := true);
    SlotsPut(waiters, w, x);
    assert SlotOf(x) == SlotOf(waiters[w]);
    Cancelled(InSlots(waiters[w := x]), InSlots(waiters), SlotOf(x));
  }

  lemma Cancelled(a: multiset<Task>, b: multiset<Task>, c: multiset<Task>)
    requires a + c == b + c
    ensures a == b
  {
    assert (a + c) - c == a && (b + c) - c == b;
  }

  lemma {:induction false} SettleAllKeepsSlots(waiters: seq<Waiter>, parked: seq<nat>)
    ensures InSlots(SettleAll(waiters, parked)) == InSlots(waiters)
    decreases |parked|
  {
    if parked != [] {
      if parked[0] < |waiters| {
        var x := waiters[parked[0]].(settled := true);
        SettledSlots(waiters, parked[0]);
        SettleAllKeepsSlots(waiters[parked[0] := x], parked[1..]);
      } else {
        SettleAllKeepsSlots(waiters, parked[1..]);
      }
    }
  }

  lemma {:induction false} SettleAllSettles(waiters: seq<Waiter>, parked: seq<nat>, w: nat)
    requires w < |waiters|
    ensures SettleAll(waiters, parked)[w].settled <==> waiters[w].settled || w in parked
    decreases |parked|
  {
    if parked != [] {
      if parked[0] < |waiters| {
        SettleAllSettles(waiters[parked[0] := waiters[parked[0]].(settled := true)], parked[1..], w);
      } else {
        SettleAllSettles(waiters, parked[1..], w);
      }
    }
  }

  // ----- each critical section -----

  /** With nobody having given up, the first in line is served. */
  lemma FirstIsLive(parked: seq<nat>, waiters: seq<Waiter>)
    requires WellParked(parked, waiters)
    ensures FirstLive(parked, waiters) == 0
  {
  }

  lemma FirstIsFree(parked: seq<nat>, waiters: seq<Waiter>)
    requires WellParked(parked, waiters) && parked != []
    ensures parked[0] < |waiters| && waiters[parked[0]] == Waiter(false, None)
  {
    assert parked[0] in parked;
  }

  lemma OfferKeeps(q: Queue, t: Task, bound: nat)
    requires Inv(q) && |q.backlog| <= bound
    ensures Inv(Offer(q, t, bound).0) && |Offer(q, t, bound).0.backlog| <= bound
    ensures Offer(q, t, bound).0.accepted == q.accepted + (if Offer(q, t, bound).1 then multiset{t} else multiset{})
  {
    hide WellParked, InSlots, FirstLive;
    FirstIsLive(q.parked, q.waiters);
    if q.parked != [] {
      FirstIsFree(q.parked, q.waiters);
      var w := q.parked[0];
      SlotsPut(q.waiters, w, Waiter(true, Some(t)));
      assert SlotOf(q.waiters[w]) == multiset{};
      assert InSlots(q.waiters[w := Waiter(true, Some(t))]) == InSlots(q.waiters) + multiset{t};
      ServedParked(q.parked, q.waiters, t);
    } else {
      assert multiset(q.backlog + [t]) == multiset(q.backlog) + multiset{t};
      if |q.backlog| < bound {
        assert (q.queued + [t])[q.left..] == q.queued[q.left..] + [t];
      }
    }
  }

  lemma ServedParked(parked: seq<nat>, waiters: seq<Waiter>, t: Task)
    requires WellParked(parked, waiters) && parked != []
    ensures WellParked(parked[1..], waiters[parked[0] := Waiter(true, Some(t))])
  {
    var ws := waiters[parked[0] := Waiter(true, Some(t))];
    forall w | 0 <= w < |ws| && !ws[w].settled ensures w in parked[1..] && ws[w].slot.None? {
      assert w in parked;
      var i :| 0 <= i < |parked| && parked[i] == w;
      assert parked[1..][i - 1] == w;
    }
  }

  lemma TakeKeeps(q: Queue)
    requires Inv(q)
    ensures Inv(TakeBacklog(q).0)
    ensures TakeBacklog(q).1.None? <==> q.backlog == []
    ensures TakeBacklog(q).1.Some? ==> q.left < |q.queued| && TakeBacklog(q).1.value == q.queued[q.left]
  {
    if q.backlog != [] {
      assert q.backlog == [q.backlog[0]] + q.backlog[1..];
      assert multiset(q.backlog) == multiset{q.backlog[0]} + multiset(q.backlog[1..]);
      assert q.queued[q.left..][1..] == q.queued[q.left + 1..];
    }
  }

  lemma ParkedMore(parked: seq<nat>, waiters: seq<Waiter>)
    requires WellParked(parked, waiters)
    ensures WellParked(parked + [|waiters|], waiters + [Waiter(false, None)])
  {
    var p, ws := parked + [|waiters|], waiters + [Waiter(false, None)];
    forall w | 0 <= w < |ws| && !ws[w].settled ensures w in p && ws[w].slot.None? {
      if w < |waiters| {
        assert w in parked;
      } else {
        assert p[|parked|] == w;
      }
    }
  }

  lemma ParkKeeps(q: Queue)
    requires Inv(q)
    ensures Inv(Park(q).0)
  {
    hide InSlots, WellParked;
    SlotsPush(q.waiters, Waiter(false, None));
    ParkedMore(q.parked, q.waiters);
  }

  lemma CollectKeeps(q: Queue, w: nat)
    requires Inv(q) && w < |q.waiters|
    ensures Inv(Collect(q, w).0)
  {
    hide InSlots;
    if q.waiters[w].slot.Some? {
      var x := q.waiters[w].(slot := None);
      SlotsPut(q.waiters, w, x);
      assert InSlots(q.waiters[w := x]) + multiset{q.waiters[w].slot.value} == InSlots(q.waiters);
      Moved(q.accepted, multiset(q.backlog), InSlots(q.waiters), InSlots(q.waiters[w := x]), q.delivered, q.drained,
            multiset{q.waiters[w].slot.value});
    }
  }

  lemma {:induction false} RemoveDrops(parked: seq<nat>, w: nat)
    requires forall i, j :: 0 <= i < j < |parked| ==> parked[i] != parked[j]
    ensures forall x :: x in Remove(parked, w) <==> x in parked && x != w
    ensures forall i, j :: 0 <= i < j < |Remove(parked, w)| ==> Remove(parked, w)[i] != Remove(parked, w)[j]
    decreases |parked|
  {
    if parked != [] {
      RemoveDrops(parked[1..], w);
      assert parked == [parked[0]] + parked[1..];
      assert parked[0] !in parked[1..];
    }
  }

  lemma RemovedParked(parked: seq<nat>, waiters: seq<Waiter>, w: nat)
    requires WellParked(parked, waiters) && w < |waiters|
    ensures WellParked(Remove(parked, w), waiters[w := waiters[w].(settled := true)])
  {
    hide Remove;
    RemoveDrops(parked, w);
    var p, ws := Remove(parked, w), waiters[w := waiters[w].(settled := true)];
    forall i | 0 <= i < |p| ensures p[i] < |ws| && !ws[p[i]].settled {
      assert p[i] in p;
      assert p[i] in parked && p[i] != w;
      var j :| 0 <= j < |parked| && parked[j] == p[i];
    }
    forall x | 0 <= x < |ws| && !ws[x].settled ensures x in p && ws[x].slot.None? {
      assert x in parked && x != w;
    }
  }

  lemma UnparkKeeps(q: Queue, w: nat)
    requires Inv(q) && w < |q.waiters|
    ensures Inv(Unpark(q, w).0)
    ensures Unpark(q, w).0.waiters[w].settled
  {
    if q.waiters[w].settled {
      CollectKeeps(q, w);
    } else {
      hide InSlots, WellParked;
      RemovedParked(q.parked, q.waiters, w);
      SettledSlots(q.waiters, w);
    }
  }

  lemma DrainKeeps(q: Queue)
    requires Inv(q)
    ensures Inv(Drain(q)) && Drain(q).parked == [] && Drain(q).backlog == []
  {
    SettleAllKeepsSlots(q.waiters, q.parked);
    assert q.queued[|q.queued|..] == [];
    forall w | 0 <= w < |q.waiters| ensures SettleAll(q.waiters, q.parked)[w].settled {
      SettleAllSettles(q.waiters, q.parked, w);
    }
  }

  // ------------------------------------------------------------------
  // Every interleaving
  // ------------------------------------------------------------------

  /** The critical sections of producers and pollers, in any order; `CollectSlot` is a poller waking up on its channel. */
  datatype Section = OfferTask(t: Task) | Take | ParkPoller | UnparkPoller(w: nat) | CollectSlot(w: nat) | DrainAll

  function Run1(q: Queue, s: Section, bound: nat): Queue {
    match s
    case OfferTask(t) => Offer(q, t, bound).0
    case Take => TakeBacklog(q).0
    case ParkPoller => Park(q).0
    case UnparkPoller(w) => if w < |q.waiters| then Unpark(q, w).0 else q
    case CollectSlot(w) => if w < |q.waiters| then Collect(q, w).0 else q
    case DrainAll => Drain(q)
  }

  function RunAll(q: Queue, ss: seq<Section>, bound: nat): Queue {
    if ss == [] then q else Run1(RunAll(q, ss[..|ss| - 1], bound), ss[|ss| - 1], bound)
  }

  lemma SectionKeeps(q: Queue, s: Section, bound: nat)
    requires Inv(q) && |q.backlog| <= bound
    ensures Inv(Run1(q, s, bound)) && |Run1(q, s, bound).backlog| <= bound
  {
    hide Inv, Offer, TakeBacklog, Park, Unpark, Collect, Drain;
    match s
    case OfferTask(t) => OfferKeeps(q, t, bound);
    case Take =>
      TakeKeeps(q);
      BacklogShrinks(q);
    case ParkPoller =>
      ParkKeeps(q);
      BacklogShrinks(q);
    case UnparkPoller(w) =>
      if w < |q.waiters| {
        UnparkKeeps(q, w);
        SlotsLeaveBacklog(q, w);
      }
    case CollectSlot(w) =>
      if w < |q.waiters| {
        CollectKeeps(q, w);
        SlotsLeaveBacklog(q, w);
      }
    case DrainAll => DrainKeeps(q);
  }

  lemma BacklogShrinks(q: Queue)
    ensures |TakeBacklog(q).0.backlog| <= |q.backlog| && Park(q).0.backlog == q.backlog
  {
  }

  lemma SlotsLeaveBacklog(q: Queue, w: nat)
    requires w < |q.waiters|
    ensures Unpark(q, w).0.backlog == q.backlog && Collect(q, w).0.backlog == q.backlog
  {
  }

  /** Over every interleaving each accepted task is in exactly one of backlog, one slot, delivered or drained; a waiter is
      listed exactly while unsettled, with an empty slot; backlog tasks leave in arrival order, within the bound. */
  lemma {:induction false} TasksAreConserved(ss: seq<Section>, bound: nat)
    ensures Inv(RunAll(EMPTY, ss, bound)) && |RunAll(EMPTY, ss, bound).backlog| <= bound
  {
    hide Inv, Run1;
    if ss == [] {
      EmptyInv();
    } else {
      TasksAreConserved(ss[..|ss| - 1], bound);
      SectionKeeps(RunAll(EMPTY, ss[..|ss| - 1], bound), ss[|ss| - 1], bound);
    }
  }

  lemma EmptyInv()
    ensures Inv(EMPTY)
  {
  }

  // ----- who is served -----

  /** Pollers are listed in the order they parked. */
  predicate ByArrival(q: Queue) {
    && (forall i, j :: 0 <= i < j < |q.parked| ==> q.parked[i] < q.parked[j])
    && (forall i :: 0 <= i < |q.parked| ==> q.parked[i] < |q.waiters|)
  }

  lemma {:induction false} RemoveKeepsArrival(parked: seq<nat>, w: nat)
    requires forall i, j :: 0 <= i < j < |parked| ==> parked[i] < parked[j]
    ensures forall i, j :: 0 <= i < j < |Remove(parked, w)| ==> Remove(parked, w)[i] < Remove(parked, w)[j]
    ensures forall x :: x in Remove(parked, w) ==> x in parked
    decreases |parked|
  {
    if parked != [] {
      var rest := Remove(parked[1..], w);
      RemoveKeepsArrival(parked[1..], w);
      assert forall i :: 0 <= i < |rest| ==> rest[i] in parked[1..];
    }
  }

  lemma OfferKeepsArrival(q: Queue, t: Task, bound: nat)
    requires ByArrival(q)
    ensures ByArrival(Offer(q, t, bound).0)
  {
  }

  lemma UnparkKeepsArrival(q: Queue, w: nat)
    requires ByArrival(q) && w < |q.waiters|
    ensures ByArrival(Unpark(q, w).0) && ByArrival(Collect(q, w).0)
  {
    hide Remove;
    RemoveKeepsArrival(q.parked, w);
    assert forall i :: 0 <= i < |Remove(q.parked, w)| ==> Remove(q.parked, w)[i] in q.parked;
  }

  lemma RestKeepsArrival(q: Queue)
    requires ByArrival(q)
    ensures ByArrival(TakeBacklog(q).0) && ByArrival(Drain(q)) && ByArrival(Park(q).0)
  {
    hide SettleAll;
  }

  lemma SectionKeepsArrival(q: Queue, s: Section, bound: nat)
    requires ByArrival(q)
    ensures ByArrival(Run1(q, s, bound))
  {
    hide Offer, Unpark, Collect, Drain, TakeBacklog, Remove;
    match s
    case OfferTask(t) => OfferKeepsArrival(q, t, bound);
    case UnparkPoller(w) => if w < |q.waiters| { UnparkKeepsArrival(q, w); }
    case CollectSlot(w) => if w < |q.waiters| { UnparkKeepsArrival(q, w); }
    case _ => RestKeepsArrival(q);
  }

  lemma {:induction false} ListedByArrival(ss: seq<Section>, bound: nat)
    ensures ByArrival(RunAll(EMPTY, ss, bound))
  {
    hide Run1;
    if ss != [] {
      ListedByArrival(ss[..|ss| - 1], bound);
      SectionKeepsArrival(RunAll(EMPTY, ss[..|ss| - 1], bound), ss[|ss| - 1], bound);
    }
  }

  /** Poller `w` still waits and has waited longer than any other. */
  predicate WaitsLongest(q: Queue, w: nat) {
    w < |q.waiters| && !q.waiters[w].settled && forall v :: 0 <= v < w ==> q.waiters[v].settled
  }

  predicate NobodyWaits(q: Queue) { forall w :: 0 <= w < |q.waiters| ==> q.waiters[w].settled }

  /** After every interleaving, an offered task goes into the slot of the poller that has waited longest and touches no other;
      without a poller it goes to the end of the backlog if there is room, and is refused if there is none. */
  lemma OfferServesLongestWaiting(ss: seq<Section>, bound: nat, t: Task)
    ensures
      var q := RunAll(EMPTY, ss, bound);
      var (after, taken) := Offer(q, t, bound);
      if NobodyWaits(q) then
        && taken == (|q.backlog| < bound)
        && after.waiters == q.waiters && after.backlog == q.backlog + (if taken then [t] else [])
      else
        taken && after.backlog == q.backlog
        && exists w: nat :: WaitsLongest(q, w) && after.waiters == q.waiters[w := Waiter(true, Some(t))]
  {
    hide Run1, InSlots;
    var q := RunAll(EMPTY, ss, bound);
    TasksAreConserved(ss, bound);
    ListedByArrival(ss, bound);
    FirstIsLive(q.parked, q.waiters);
    if q.parked != [] {
      FirstIsFree(q.parked, q.waiters);
      var w := q.parked[0];
      forall v | 0 <= v < w ensures q.waiters[v].settled {
        assert forall i :: 0 <= i < |q.parked| ==> q.parked[0] <= q.parked[i];
      }
      assert WaitsLongest(q, w);
    }
    assert q.backlog + [] == q.backlog;
  }

  /** A poller that wakes up or gives up takes exactly the task in its slot, and leaves the slot empty. */
  lemma SlotIsHandedOver(q: Queue, w: nat)
    requires Inv(q) && w < |q.waiters|
    ensures
      var gone := Unpark(q, w);
      && gone.1 == q.waiters[w].slot && gone.0.waiters == q.waiters[w := Waiter(true, None)]
      && (q.waiters[w].settled ==> Collect(q, w).1 == q.waiters[w].slot && Collect(q, w).0.waiters == q.waiters[w := Waiter(true, None)])
      && gone.0.backlog == q.backlog && (forall v :: v in gone.0.parked ==> v in q.parked)
  {
    hide InSlots;
    RemoveDrops(q.parked, w);
    if q.waiters[w].settled && q.waiters[w].slot.None? {
      assert q.waiters[w := Waiter(true, None)] == q.waiters;
    }
  }

  // ----- backlog and parked pollers -----

  /** Tasks wait for pollers or pollers for tasks, never both. */
  predicate Apart(q: Queue) { q.backlog == [] || q.parked == [] }

  /** Taking from the backlog and parking are separate critical sections: a task may have come in between. */
  predicate ParksOnBacklog(q: Queue, s: Section) { s.ParkPoller? && q.backlog != [] }

  /** One section keeps backlog and pollers apart exactly when it does not park on a backlog. */
  lemma SectionStaysApart(q: Queue, s: Section, bound: nat)
    requires Inv(q) && Apart(q)
    ensures Apart(Run1(q, s, bound)) <==> !ParksOnBacklog(q, s)
  {
    hide InSlots;
    if s.OfferTask? {
      FirstIsLive(q.parked, q.waiters);
    } else if s.UnparkPoller? {
      RemoveDrops(q.parked, s.w);
    }
  }

  /** A whole interleaving keeps them apart throughout exactly when none of its sections parks on a backlog. */
  lemma {:induction false} ApartExactlyUnlessParkedOnBacklog(ss: seq<Section>, bound: nat)
    ensures
      (forall n :: 0 <= n <= |ss| ==> Apart(RunAll(EMPTY, ss[..n], bound)))
      <==> (forall n :: 0 <= n < |ss| ==> !ParksOnBacklog(RunAll(EMPTY, ss[..n], bound), ss[n]))
  {
    hide Inv, Run1, ParksOnBacklog, TakeBacklog, Park;
    assert Apart(RunAll(EMPTY, ss[..0], bound));
    forall n | 0 <= n < |ss| && Apart(RunAll(EMPTY, ss[..n], bound))
      ensures Apart(RunAll(EMPTY, ss[..n + 1], bound)) <==> !ParksOnBacklog(RunAll(EMPTY, ss[..n], bound), ss[n])
    {
      TasksAreConserved(ss[..n], bound);
      assert ss[..n + 1][..n] == ss[..n];
      SectionStaysApart(RunAll(EMPTY, ss[..n], bound), ss[n], bound);
    }
    if forall n :: 0 <= n < |ss| ==> !ParksOnBacklog(RunAll(EMPTY, ss[..n], bound), ss[n]) {
      var n := 0;
      while n < |ss|
        invariant n <= |ss|
        invariant forall i :: 0 <= i <= n ==> Apart(RunAll(EMPTY, ss[..i], bound))
      {
        assert !ParksOnBacklog(RunAll(EMPTY, ss[..n], bound), ss[n]);
        n := n + 1;
      }
    } else {
      var n :| 0 <= n < |ss| && ParksOnBacklog(RunAll(EMPTY, ss[..n], bound), ss[n]);
      assert !Apart(RunAll(EMPTY, ss[..n], bound)) || !Apart(RunAll(EMPTY, ss[..n + 1], bound));
    }
  }

  /** Such an interleaving: one poller finds nothing, a task comes in, the poller parks. */
  lemma BacklogAndPollerCanCoexist()
    ensures
      var q := RunAll(EMPTY, [Take, OfferTask(1), ParkPoller], 1);
      q.backlog == [1] && q.parked == [0]
  {
    var ss := [Take, OfferTask(1), ParkPoller];
    assert ss[..2] == [Take, OfferTask(1)];
    assert [Take, OfferTask(1)][..1] == [Take];
    assert [Take][..0] == [];
  }

  // ------------------------------------------------------------------
  // The queue object
  // ------------------------------------------------------------------

  class TaskQueue {
    var backlog: seq<Task>
    var parked: seq<nat>
    var waiters: seq<Waiter>
    ghost var accepted: multiset<Task>
    ghost var delivered: multiset<Task>
    ghost var drained: multiset<Task>
    ghost var queued: seq<Task>
    ghost var left: nat

    constructor ()
      ensures View() == EMPTY
    {
      backlog, parked, waiters := [], [], [];
      accepted, delivered, drained, queued, left := multiset{}, multiset{}, multiset{}, [], 0;
    }

    ghost function View(): Queue
      reads this
    {
      Queue(backlog, parked, waiters, accepted, delivered, drained, queued, left)
    }

    /** Skips waiters that have given up, serves the first that has not, and otherwise queues. */
    method OfferOne(t: Task, bound: nat) returns (ok: bool)
      modifies this
      ensures View() == Offer(old(View()), t, bound).0 && ok == Offer(old(View()), t, bound).1
    {
      ghost var first := FirstLive(parked, waiters);
      ghost var all := parked;
      ghost var skipped := 0;
      while parked != []
        invariant skipped <= first && parked == all[skipped..]
        invariant waiters == old(waiters) && backlog == old(backlog) && queued == old(queued) && left == old(left)
        invariant accepted == old(accepted) && delivered == old(delivered) && drained == old(drained)
        decreases |parked|
      {
        var w := parked[0];
        parked := parked[1..];
        if w < |waiters| && !waiters[w].settled {
          waiters := waiters[w := Waiter(true, Some(t))];
          accepted := accepted + multiset{t};
          return true;
        }
        skipped := skipped + 1;
      }
      if |backlog| >= bound { return false; }
      backlog := backlog + [t];
      queued, accepted := queued + [t], accepted + multiset{t};
      return true;
    }

    method TakeOne() returns (t: Option<Task>)
      modifies this
      ensures View() == TakeBacklog(old(View())).0 && t == TakeBacklog(old(View())).1
    {
      if backlog == [] { return None; }
      var first := backlog[0];
      backlog := backlog[1..];
      left, delivered := left + 1, delivered + multiset{first};
      return Some(first);
    }

    method ParkOne() returns (w: nat)
      modifies this
      ensures View() == Park(old(View())).0 && w == Park(old(View())).1
    {
      w := |waiters|;
      waiters := waiters + [Waiter(false, None)];
      parked := parked + [w];
    }

    method UnparkOne(w: nat) returns (t: Option<Task>)
      requires w < |waiters|
      modifies this
      ensures View() == Unpark(old(View()), w).0 && t == Unpark(old(View()), w).1
    {
      if waiters[w].settled {
        t := waiters[w].slot;
        if t.Some? {
          waiters := waiters[w := waiters[w].(slot := None)];
          delivered := delivered + multiset{t.value};
        }
        return;
      }
      waiters := waiters[w := waiters[w].(settled := true)];
      parked := Remove(parked, w);
      return None;
    }

    method DrainAll() returns (n: nat)
      modifies this
      ensures View() == Drain(old(View())) && n == |old(backlog)|
    {
      n := |backlog|;
      drained, left := drained + multiset(backlog), |queued|;
      backlog := [];
      ghost var all := SettleAll(waiters, parked);
      while parked != []
        invariant SettleAll(waiters, parked) == all
        invariant backlog == [] && accepted == old(accepted) && delivered == old(delivered) && queued == old(queued)
        invariant drained == old(drained) + multiset(old(backlog)) && left == |queued|
        decreases |parked|
      {
        var w := parked[0];
        parked := parked[1..];
        if w < |waiters| {
          waiters := waiters[w := waiters[w].(settled := true)];
        }
      }
    }
  }
}
