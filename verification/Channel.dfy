/** A workflow channel is a first-in first-out queue whose tail may be parked senders (internal/workflow/channel.go). */
module Channels {
  import opened Prelude

  /** A channel that never blocks a sender. */
  const UNBOUNDED := -1

  /** `parked` holds the values of senders waiting for room, oldest first. */
  datatype Chan<T> = Chan(capacity: int, buffer: seq<T>, parked: seq<T>, closed: bool)

  /** The abstract queue: what a receiver will see, in order. */
  function Contents<T>(c: Chan<T>): seq<T> { c.buffer + c.parked }

  predicate HasRoom<T>(c: Chan<T>) { c.capacity == UNBOUNDED || |c.buffer| < c.capacity }

  /** A sender is parked only when the buffer is full, and a bounded buffer never overflows. */
  predicate Fits<T>(c: Chan<T>) {
    && (c.parked != [] ==> !HasRoom(c))
    && (c.capacity != UNBOUNDED && c.buffer != [] ==> |c.buffer| <= c.capacity)
  }

  // ------------------------------------------------------------------
  // Operations as functions
  // ------------------------------------------------------------------

  /** A send that must not block: refused when there is no room. Sending on a closed channel panics. */
  function SendAsync<T>(c: Chan<T>, v: T): Result<(Chan<T>, bool)> {
    if c.closed then Err(ErrPanic)
    else if HasRoom(c) then Ok((c.(buffer := c.buffer + [v]), true))
    else Ok((c, false))
  }

  /** A send that may block: the value is buffered, or parked where a receiver can find it. */
  function Send<T>(c: Chan<T>, v: T): Result<Chan<T>> {
    if c.closed then Err(ErrPanic)
    else if HasRoom(c) then Ok(c.(buffer := c.buffer + [v]))
    else Ok(c.(parked := c.parked + [v]))
  }

  /** Moves one parked sender into the room a receive has made. */
  function Promote<T>(c: Chan<T>): Chan<T> {
    if c.capacity <= 0 || c.parked == [] || |c.buffer| >= c.capacity then c
    else c.(buffer := c.buffer + [c.parked[0]], parked := c.parked[1..])
  }

  function Receive<T>(c: Chan<T>): (Chan<T>, Option<T>) {
    if c.buffer != [] then (Promote(c.(buffer := c.buffer[1..])), Some(c.buffer[0]))
    else if c.parked != [] then (c.(parked := c.parked[1..]), Some(c.parked[0]))
    else (c, None)
  }

  /** A value from outside the workflow: taken whatever the capacity, unless the channel is closed. */
  function Deliver<T>(c: Chan<T>, v: T): Chan<T> {
    if c.closed then c else c.(buffer := c.buffer + [v])
  }

  function Close<T>(c: Chan<T>): Result<Chan<T>> { if c.closed then Err(ErrPanic) else Ok(c.(closed := true)) }

  // ------------------------------------------------------------------
  // Refinement of a queue
  // ------------------------------------------------------------------

  /** Each operation is the queue operation of its name, and keeps the shape. */
  lemma SendIsEnqueue<T>(c: Chan<T>, v: T)
    requires Fits(c) && Send(c, v).Ok?
    ensures Send(c, v).value.parked != c.parked <==> c.capacity != UNBOUNDED && |c.buffer| >= c.capacity
    ensures Fits(Send(c, v).value) && Contents(Send(c, v).value) == Contents(c) + [v]
  {
    if HasRoom(c) {
      assert c.parked == [];
    } else {
      assert c.buffer + (c.parked + [v]) == c.buffer + c.parked + [v];
    }
  }

  lemma SendAsyncIsEnqueue<T>(c: Chan<T>, v: T)
    requires Fits(c) && SendAsync(c, v).Ok?
    ensures Fits(SendAsync(c, v).value.0)
    ensures SendAsync(c, v).value.1 <==> c.capacity == UNBOUNDED || |c.buffer| < c.capacity
    ensures Contents(SendAsync(c, v).value.0) == Contents(c) + (if SendAsync(c, v).value.1 then [v] else [])
  {
    if HasRoom(c) {
      assert c.parked == [];
    }
  }

  lemma ReceiveIsDequeue<T>(c: Chan<T>)
    requires Fits(c)
    ensures Fits(Receive(c).0)
    ensures
      match Receive(c).1
      case Some(v) => Contents(c) == [v] + Contents(Receive(c).0)
      case None => Contents(c) == [] && Receive(c).0 == c
  {
    if c.buffer != [] {
      var d := c.(buffer := c.buffer[1..]);
      assert Contents(c) == [c.buffer[0]] + Contents(d);
      if c.parked != [] && c.capacity > 0 {
        assert |Promote(d).buffer| == |c.buffer|;
      }
    } else if c.parked != [] {
      assert c.parked == [c.parked[0]] + c.parked[1..];
    }
  }

  /** Sending and closing fail exactly on a closed channel; closing keeps what is queued. */
  lemma ClosedRefuses<T>(c: Chan<T>, v: T)
    ensures Send(c, v).Err? <==> c.closed
    ensures SendAsync(c, v).Err? <==> c.closed
    ensures Close(c).Err? <==> c.closed
    ensures Close(c).Ok? ==> Close(c).value.closed && Contents(Close(c).value) == Contents(c) && Receive(Close(c).value).1 == Receive(c).1
  {
  }

  /** Delivery bypasses the capacity and overtakes whoever is parked. It enqueues its value exactly when the channel is open
      and no parked value differs from it. */
  lemma DeliverIsEnqueueExactly<T>(c: Chan<T>, v: T)
    ensures Contents(Deliver(c, v)) == Contents(c) + [v] <==> !c.closed && forall i :: 0 <= i < |c.parked| ==> c.parked[i] == v
    ensures c.closed ==> Deliver(c, v) == c
  {
    if c.closed {
      assert |Contents(c) + [v]| == |Contents(c)| + 1;
    } else {
      assert Contents(Deliver(c, v)) == c.buffer + ([v] + c.parked);
      assert Contents(c) + [v] == c.buffer + (c.parked + [v]);
      SameAfter(c.buffer, [v] + c.parked, c.parked + [v]);
      Rotates(c.parked, v);
    }
  }

  lemma SameAfter<T>(b: seq<T>, x: seq<T>, y: seq<T>)
    ensures b + x == b + y <==> x == y
  {
    if b + x == b + y {
      assert x == (b + x)[|b|..] && y == (b + y)[|b|..];
    }
  }

  lemma {:induction false} Rotates<T>(p: seq<T>, v: T)
    ensures [v] + p == p + [v] <==> forall i :: 0 <= i < |p| ==> p[i] == v
  {
    if p != [] {
      Rotates(p[1..], v);
      assert p == [p[0]] + p[1..];
      assert [v] + p == [v] + ([p[0]] + p[1..]) && p + [v] == [p[0]] + (p[1..] + [v]);
      if [v] + p == p + [v] {
        assert ([v] + p)[0] == (p + [v])[0];
        assert ([v] + p)[1..] == p && (p + [v])[1..] == p[1..] + [v];
      }
    }
  }

  /** Signal channels are unbounded: they park nobody, so there delivery is a plain enqueue. */
  lemma UnboundedNeverParks<T>(c: Chan<T>)
    requires Fits(c) && c.capacity == UNBOUNDED
    ensures c.parked == []
  {
  }

  lemma DeliverOnUnbounded<T>(c: Chan<T>, v: T)
    requires Fits(c) && c.capacity == UNBOUNDED && !c.closed
    ensures Fits(Deliver(c, v)) && Contents(Deliver(c, v)) == Contents(c) + [v]
  {
    UnboundedNeverParks(c);
    DeliverIsEnqueueExactly(c, v);
  }

  // ------------------------------------------------------------------
  // Runs
  // ------------------------------------------------------------------

  datatype Action<T> = DoSend(value: T) | DoTrySend(value: T) | DoDeliver(value: T) | DoReceive | DoClose

  /** What a run of operations has accepted and handed out, and the channel it leaves; a panic leaves everything as is. */
  datatype Trace<T> = Trace(chan: Chan<T>, sent: seq<T>, received: seq<T>)

  function Act<T>(t: Trace<T>, a: Action<T>): Trace<T> {
    match a
    case DoSend(v) =>
      (match Send(t.chan, v)
       case Ok(c) => Trace(c, t.sent + [v], t.received)
       case Err(_) => t)
    case DoTrySend(v) =>
      (match SendAsync(t.chan, v)
       case Ok(r) => Trace(r.0, if r.1 then t.sent + [v] else t.sent, t.received)
       case Err(_) => t)
    case DoDeliver(v) => if t.chan.closed then t else Trace(Deliver(t.chan, v), t.sent + [v], t.received)
    case DoReceive =>
      var r := Receive(t.chan);
      (match r.1
       case Some(v) => Trace(r.0, t.sent, t.received + [v])
       case None => t)
    case DoClose =>
      (match Close(t.chan)
       case Ok(c) => t.(chan := c)
       case Err(_) => t)
  }

  function Acts<T>(t: Trace<T>, actions: seq<Action<T>>): Trace<T> {
    if actions == [] then t else Act(Acts(t, actions[..|actions| - 1]), actions[|actions| - 1])
  }

  /** Values are delivered from outside only where nobody can be parked. */
  predicate Deliverable<T>(capacity: int, actions: seq<Action<T>>) {
    capacity == UNBOUNDED || forall i :: 0 <= i < |actions| ==> !actions[i].DoDeliver?
  }

  lemma ActConserves<T>(t: Trace<T>, a: Action<T>)
    requires Fits(t.chan) && t.sent == t.received + Contents(t.chan) && (a.DoDeliver? ==> t.chan.capacity == UNBOUNDED)
    ensures Fits(Act(t, a).chan) && Act(t, a).sent == Act(t, a).received + Contents(Act(t, a).chan)
    ensures Act(t, a).chan.capacity == t.chan.capacity
  {
    hide Contents;
    match a
    case DoSend(v) =>
      if Send(t.chan, v).Ok? { SendIsEnqueue(t.chan, v); }
    case DoTrySend(v) =>
      if SendAsync(t.chan, v).Ok? { SendAsyncIsEnqueue(t.chan, v); }
    case DoDeliver(v) =>
      if !t.chan.closed { DeliverOnUnbounded(t.chan, v); }
    case DoReceive => ReceiveIsDequeue(t.chan);
    case DoClose => CloseKeeps(t.chan);
  }

  lemma CloseKeeps<T>(c: Chan<T>)
    requires Fits(c)
    ensures Close(c).Ok? ==> Fits(Close(c).value) && Contents(Close(c).value) == Contents(c)
  {
  }

  /** Over any run from an empty channel, what was accepted is what was received followed by what is still queued: every
      value is received at most once, in the order it was sent or delivered. */
  lemma {:induction false} ChannelIsFifo<T>(capacity: int, actions: seq<Action<T>>)
    requires Deliverable(capacity, actions)
    ensures
      var t := Acts(Trace(Chan(capacity, [], [], false), [], []), actions);
      Fits(t.chan) && t.chan.capacity == capacity && t.sent == t.received + Contents(t.chan)
  {
    hide Act, Contents;
    var start := Trace(Chan(capacity, [], [], false), [], []);
    if actions == [] {
      assert Contents(start.chan) == [] by { EmptyContents<T>(capacity); }
    } else {
      ChannelIsFifo(capacity, actions[..|actions| - 1]);
      ActConserves(Acts(start, actions[..|actions| - 1]), actions[|actions| - 1]);
    }
  }

  lemma EmptyContents<T>(capacity: int)
    ensures Contents(Chan<T>.Chan(capacity, [], [], false)) == []
  {
  }

  // ------------------------------------------------------------------
  // The object, with one token per parked sender
  // ------------------------------------------------------------------

  /** A parked send: the token, not the channel, says whether the value has been taken. */
  class PendingSend<T> {
    const value: T
    var taken: bool

    constructor (value: T)
      ensures this.value == value && !taken
    {
      this.value := value;
      taken := false;
    }
  }

  class Channel<T> {
    const capacity: int
    var buffer: seq<T>
    var senders: seq<PendingSend<T>>
    var closed: bool

    constructor (capacity: int)
      ensures Valid() && View() == Chan(capacity, [], [], false)
    {
      this.capacity := capacity;
      buffer, senders, closed := [], [], false;
    }

    function Values(tokens: seq<PendingSend<T>>): (vs: seq<T>)
      ensures |vs| == |tokens| && forall i :: 0 <= i < |vs| ==> vs[i] == tokens[i].value
    {
      seq(|tokens|, i requires 0 <= i < |tokens| => tokens[i].value)
    }

    function View(): Chan<T>
      reads this
    {
      Chan(capacity, buffer, Values(senders), closed)
    }

    /** A token is queued exactly as long as it has not been taken. */
    ghost predicate Valid()
      reads this, senders
    {
      && Fits(View())
      && (forall i :: 0 <= i < |senders| ==> !senders[i].taken)
      && (forall i, j :: 0 <= i < j < |senders| ==> senders[i] != senders[j])
    }

    method TrySend(v: T) returns (r: Result<bool>)
      requires Valid()
      modifies `buffer
      ensures Valid() && senders == old(senders)
      ensures
        match SendAsync(old(View()), v)
        case Ok(x) => r == Ok(x.1) && View() == x.0
        case Err(e) => r == Err(e) && View() == old(View())
    {
      if closed { return Err(ErrPanic); }
      if capacity == UNBOUNDED || |buffer| < capacity {
        buffer := buffer + [v];
        return Ok(true);
      }
      return Ok(false);
    }

    /** The first half of a blocking send: the value is buffered, or parked under a token the sender then waits on. */
    method BeginSend(v: T) returns (r: Result<Option<PendingSend<T>>>)
      requires Valid()
      modifies `buffer, `senders
      ensures Valid()
      ensures
        match Send(old(View()), v)
        case Err(e) => r == Err(e) && View() == old(View())
        case Ok(c) =>
          && r.Ok? && View() == c
          && (r.value.Some? <==> !HasRoom(old(View())))
          && (r.value.Some? ==> fresh(r.value.value) && senders == old(senders) + [r.value.value] && r.value.value.value == v)
    {
      if closed { return Err(ErrPanic); }
      if capacity == UNBOUNDED || |buffer| < capacity {
        buffer := buffer + [v];
        return Ok(None);
      }
      var token := new PendingSend(v);
      senders := senders + [token];
      return Ok(Some(token));
    }

    /** A sender is released exactly when its value moves: the tokens marked are the ones that left the list. */
    method TryReceive() returns (r: Option<T>)
      requires Valid()
      modifies `buffer, `senders, senders
      ensures Valid()
      ensures View() == Receive(old(View())).0 && r == Receive(old(View())).1
      ensures |senders| <= |old(senders)| <= |senders| + 1 && senders == old(senders)[|old(senders)| - |senders|..]
      ensures forall s :: s in old(senders) ==> (s.taken <==> s !in senders)
    {
      if buffer != [] {
        var v := buffer[0];
        buffer := buffer[1..];
        if capacity > 0 && senders != [] && |buffer| < capacity {
          var s := senders[0];
          senders := senders[1..];
          s.taken := true;
          buffer := buffer + [s.value];
        }
        return Some(v);
      }
      if senders != [] {
        var s := senders[0];
        senders := senders[1..];
        s.taken := true;
        return Some(s.value);
      }
      return None;
    }

    /** A value from outside the workflow, such as a signal: never refused, never parked. */
    method DeliverValue(v: T)
      requires Valid()
      modifies `buffer
      ensures View() == Deliver(old(View()), v) && senders == old(senders)
      ensures capacity == UNBOUNDED ==> Valid()
    {
      if capacity == UNBOUNDED && !closed { DeliverOnUnbounded(View(), v); }
      if closed { return; }
      buffer := buffer + [v];
    }

    method CloseChannel() returns (err: Option<Error>)
      requires Valid()
      modifies `closed
      ensures Valid()
      ensures
        match Close(old(View()))
        case Ok(c) => err.None? && View() == c
        case Err(e) => err == Some(e) && View() == old(View())
    {
      if closed { return Some(ErrPanic); }
      closed := true;
      return None;
    }
  }

}
