/** The blocking calls of workflow code, each compiled from its own steps, and the dispatcher's fixpoint for programs built
    from them (internal/workflow/future.go, channel.go, selector.go, state.go). */
module Blocking {
  import opened Prelude
  import opened Channels
  import opened Dispatchers

  /** What the coroutines of a workflow share: futures, settled or not, and channels. A channel carries the tokens of the
      sends that put something in. */
  datatype Memory = Memory(futures: seq<Option<int>>, channels: seq<Chan<nat>>)

  predicate Ready(m: Memory, f: nat) { f < |m.futures| && m.futures[f].Some? }

  /** Something to receive, or the channel is closed. */
  predicate Receivable(m: Memory, c: nat) { c < |m.channels| && (Contents(m.channels[c]) != [] || m.channels[c].closed) }

  /** The send's token is not parked any more, or the channel was closed under it. */
  predicate Taken(m: Memory, c: nat, token: nat) {
    c < |m.channels| ==> token !in m.channels[c].parked || m.channels[c].closed
  }

  // ------------------------------------------------------------------
  // Steps on the memory
  // ------------------------------------------------------------------

  /** Settles a future; only the first call has an effect. */
  function Settle(m: Memory, f: nat, v: int): Memory {
    if f < |m.futures| && m.futures[f].None? then m.(futures := m.futures[f := Some(v)]) else m
  }

  function PutChannel(m: Memory, c: nat, ch: Chan<nat>): Memory
    requires c < |m.channels|
  {
    m.(channels := m.channels[c := ch])
  }

  /** Takes the first value of a channel, if there is one. */
  function Take(m: Memory, c: nat): Memory {
    if c < |m.channels| then PutChannel(m, c, Channels.Receive(m.channels[c]).0) else m
  }

  predicate Takes(m: Memory, c: nat) { c < |m.channels| && Channels.Receive(m.channels[c]).1.Some? }

  /** Buffers the token if there is room. */
  function Offer(m: Memory, c: nat, token: nat): Memory {
    if Fit(m, c) then PutChannel(m, c, Channels.Send(m.channels[c], token).value) else m
  }

  /** Parks it otherwise. */
  function OfferOrPark(m: Memory, c: nat, token: nat): Memory {
    if c < |m.channels| && !m.channels[c].closed then PutChannel(m, c, Channels.Send(m.channels[c], token).value) else m
  }

  predicate Fit(m: Memory, c: nat) { c < |m.channels| && !m.channels[c].closed && HasRoom(m.channels[c]) }

  function CloseChannel(m: Memory, c: nat): Memory {
    if c < |m.channels| then PutChannel(m, c, m.channels[c].(closed := true)) else m
  }

  // ------------------------------------------------------------------
  // Selectors
  // ------------------------------------------------------------------

  /** A branch and what it runs when it is chosen. */
  datatype Branch = Branch(ready: Memory -> bool, run: Memory -> Memory)

  /** The first ready branch in registration order, or the number of branches. */
  function First(branches: seq<Branch>, m: Memory): (k: nat)
    ensures k <= |branches|
    ensures k < |branches| ==> branches[k].ready(m)
    ensures forall i :: 0 <= i < k ==> !branches[i].ready(m)
  {
    if branches == [] then 0 else if branches[0].ready(m) then 0 else 1 + First(branches[1..], m)
  }

  function RunFirst(branches: seq<Branch>, otherwise: Option<Memory -> Memory>, m: Memory): Memory {
    var k := First(branches, m);
    if k < |branches| then branches[k].run(m) else if otherwise.Some? then otherwise.value(m) else m
  }

  predicate Selectable(branches: seq<Branch>, otherwise: Option<Memory -> Memory>, m: Memory) {
    First(branches, m) < |branches| || otherwise.Some?
  }

  /** The branch a selector runs is the ready one registered first; the default runs only if none is ready. */
  lemma SelectRunsFirstReady(branches: seq<Branch>, otherwise: Option<Memory -> Memory>, m: Memory, k: nat)
    ensures k < |branches| && branches[k].ready(m) && (forall i :: 0 <= i < k ==> !branches[i].ready(m))
            ==> RunFirst(branches, otherwise, m) == branches[k].run(m)
    ensures (forall i :: 0 <= i < |branches| ==> !branches[i].ready(m))
            ==> RunFirst(branches, otherwise, m) == if otherwise.Some? then otherwise.value(m) else m
  {
    hide First;
  }

  /** A future keeps the first value it is settled with. */
  lemma FirstSettleWins(m: Memory, f: nat, v: int, g: nat, w: int)
    requires f < |m.futures|
    ensures
      var once := Settle(m, f, v);
      && once == m.(futures := once.futures) && |once.futures| == |m.futures|
      && once.futures[f] == (if m.futures[f].Some? then m.futures[f] else Some(v))
      && (forall i :: 0 <= i < |m.futures| && i != f ==> once.futures[i] == m.futures[i])
      && Settle(once, g, w).futures[f] == once.futures[f]
  {
  }

  // ------------------------------------------------------------------
  // Calls as steps
  // ------------------------------------------------------------------

  /** Marking progress changes nothing else. */
  function Mark(next: Code<Memory>): Code<Memory> { Act(m => m, m => true, next) }

  function GetLoop(f: nat, next: Code<Memory>): Code<Memory> { Yield(m => Ready(m, f), next) }

  function ReceiveLoop(c: nat, next: Code<Memory>): Code<Memory> {
    Yield(m => Receivable(m, c), Act(m => Take(m, c), m => Takes(m, c), next))
  }

  function SendLoop(c: nat, token: nat, next: Code<Memory>): Code<Memory> { Yield(m => Taken(m, c, token), next) }

  function SelectLoop(branches: seq<Branch>, otherwise: Option<Memory -> Memory>, next: Code<Memory>): Code<Memory> {
    Yield(m => Selectable(branches, otherwise, m), Act(m => RunFirst(branches, otherwise, m), m => false, next))
  }

  function AwaitLoop(done: Memory -> bool, canceled: Memory -> bool, next: Code<Memory>): Code<Memory> {
    Yield(m => done(m) || canceled(m), next)
  }

  /** A statement of workflow code. The non-blocking forms mark progress exactly when they change something. Each send of a
      program has a token of its own. */
  datatype Statement =
    | Local(change: Memory -> Memory)
    | Get(future: nat)
    | Set(future: nat, value: int)
    | Receive(channel: nat)
    | ReceiveAsync(channel: nat)
    | Send(channel: nat, token: nat)
    | SendAsync(channel: nat, token: nat)
    | CloseIt(channel: nat)
    | Select(branches: seq<Branch>, otherwise: Option<Memory -> Memory>)
    | Await(done: Memory -> bool, canceled: Memory -> bool)
    | Go(body: Program)

  datatype Program = Return | Then(first: Statement, rest: Program)

  function Compile(p: Program): Code<Memory> {
    match p
    case Return => End
    case Then(s, rest) => CompileOne(s, Compile(rest))
  }

  function CompileOne(s: Statement, next: Code<Memory>): Code<Memory> {
    match s
    case Local(change) => Act(change, m => false, next)
    case Get(f) => Mark(GetLoop(f, next))
    case Set(f, v) => Act(m => Settle(m, f, v), m => Settle(m, f, v) != m, next)
    case Receive(c) => Mark(ReceiveLoop(c, next))
    case ReceiveAsync(c) => Act(m => Take(m, c), m => Takes(m, c), next)
    case Send(c, token) => Mark(Act(m => OfferOrPark(m, c, token), m => Fit(m, c), SendLoop(c, token, next)))
    case SendAsync(c, token) => Act(m => Offer(m, c, token), m => Fit(m, c), next)
    case CloseIt(c) => Act(m => CloseChannel(m, c), m => true, next)
    case Select(branches, otherwise) => Mark(SelectLoop(branches, otherwise, next))
    case Await(done, canceled) => Mark(AwaitLoop(done, canceled, next))
    case Go(body) => Spawn(Compile(body), next)
  }

  // ------------------------------------------------------------------
  // Every blocking call marks progress when it is entered
  // ------------------------------------------------------------------

  lemma {:induction false} GuardedEither(p: Code<Memory>)
    requires Guarded(p, false)
    ensures Guarded(p, true)
  {
    match p
    case Act(_, marks, next) => if !Always(marks) { GuardedEither(next); }
    case _ =>
  }

  lemma MarkGuards(next: Code<Memory>)
    requires Guarded(next, true)
    ensures Guarded(Mark(next), false)
  {
    var always := (m: Memory) => true;
    assert Always(always);
  }

  /** One statement in front of guarded code: whichever call it is, it marks progress before it can yield. */
  lemma StatementIsGuarded(s: Statement, next: Code<Memory>)
    requires Guarded(next, false) && (s.Go? ==> Guarded(Compile(s.body), false))
    ensures Guarded(CompileOne(s, next), false)
  {
    GuardedEither(next);
    match s
    case Get(f) => MarkGuards(GetLoop(f, next));
    case Receive(c) => MarkGuards(ReceiveLoop(c, next));
    case Send(c, token) => MarkGuards(Act(m => OfferOrPark(m, c, token), m => Fit(m, c), SendLoop(c, token, next)));
    case Select(branches, otherwise) => MarkGuards(SelectLoop(branches, otherwise, next));
    case Await(done, canceled) => MarkGuards(AwaitLoop(done, canceled, next));
    case _ =>
  }

  lemma {:induction false} ProgramIsGuarded(p: Program)
    ensures Guarded(Compile(p), false)
    decreases p
  {
    if p.Then? {
      ProgramIsGuarded(p.rest);
      if p.first.Go? { ProgramIsGuarded(p.first.body); }
      StatementIsGuarded(p.first, Compile(p.rest));
    }
  }

  /** The calls that return at once mark progress exactly when they change something. */
  lemma AsyncMarksItsChange(m: Memory, s: Statement, next: Code<Memory>)
    requires s.Set? || s.ReceiveAsync? || s.SendAsync?
    ensures CompileOne(s, next).Act? && (CompileOne(s, next).marks(m) <==> CompileOne(s, next).change(m) != m)
  {
    match s
    case Set(_, _) =>
    case ReceiveAsync(c) =>
      if c < |m.channels| {
        ReceiveChanges(m.channels[c]);
        var ch := Channels.Receive(m.channels[c]).0;
        assert m.channels[c := ch][c] == ch;
      }
    case SendAsync(c, token) =>
      if Fit(m, c) {
        var ch := Channels.Send(m.channels[c], token).value;
        assert |ch.buffer| == |m.channels[c].buffer| + 1;
        assert m.channels[c := ch][c] == ch;
      }
  }

  lemma ReceiveChanges<T>(c: Chan<T>)
    ensures Channels.Receive(c).1.Some? <==> Channels.Receive(c).0 != c
    ensures Channels.Receive(c).1.None? ==> Channels.Receive(c).0 == c
  {
    if c.buffer != [] {
      var d := c.(buffer := c.buffer[1..]);
      assert |d.buffer| + |d.parked| < |c.buffer| + |c.parked|;
      assert |Promote(d).buffer| + |Promote(d).parked| == |d.buffer| + |d.parked|;
    } else if c.parked != [] {
      assert |c.parked[1..]| < |c.parked|;
    }
  }

  // ------------------------------------------------------------------
  // The fixpoint of programs
  // ------------------------------------------------------------------

  function Start(ps: seq<Program>): (cs: seq<Coroutine<Memory>>)
    ensures |cs| == |ps| && forall i :: 0 <= i < |cs| ==> cs[i] == Newborn(Compile(ps[i]))
  {
    seq(|ps|, i requires 0 <= i < |ps| => Newborn(Compile(ps[i])))
  }

  /** For any programs, whatever they call: the dispatcher stops only when every coroutine has finished or waits for something
      that is not there. */
  lemma ProgramsBlockOrFinish(ps: seq<Program>, m: Memory, stop: Memory -> bool, i: nat)
    ensures
      var s := Fixpoint(Start(ps), m, stop);
      !s.stopped && i < |s.cs| ==> Blocked(s.cs[i], s.mem)
  {
    hide Compile, Fixpoint, Standing;
    forall k | 0 <= k < |ps| ensures Standing(Start(ps)[k]) {
      ProgramIsGuarded(ps[k]);
      NewbornStands(Compile(ps[k]));
    }
    FixpointBlocksAll(Start(ps), m, stop);
  }

  lemma NewbornStands(p: Code<Memory>)
    requires Guarded(p, false)
    ensures Standing(Newborn(p))
  {
  }

  /** What stands in the way of a call that has not returned. */
  predicate NotThere(call: Statement, m: Memory) {
    match call
    case Get(f) => !Ready(m, f)
    case Receive(c) => c < |m.channels| ==> Contents(m.channels[c]) == [] && !m.channels[c].closed
    case Send(c, token) => c < |m.channels| && token in m.channels[c].parked && !m.channels[c].closed
    case Select(branches, otherwise) => otherwise.None? && forall k :: 0 <= k < |branches| ==> !branches[k].ready(m)
    case Await(done, canceled) => !done(m) && !canceled(m)
    case _ => false
  }

  /** The loop a blocking call yields in. */
  function LoopOf(call: Statement, next: Code<Memory>): Code<Memory> {
    match call
    case Get(f) => GetLoop(f, next)
    case Receive(c) => ReceiveLoop(c, next)
    case Send(c, token) => SendLoop(c, token, next)
    case Select(branches, otherwise) => SelectLoop(branches, otherwise, next)
    case Await(done, canceled) => AwaitLoop(done, canceled, next)
    case _ => next
  }

  predicate Blocks(call: Statement) { call.Get? || call.Receive? || call.Send? || call.Select? || call.Await? }

  /** A blocking call goes on yielding exactly as long as what it waits for is not there. */
  lemma LoopWaitsExactly(call: Statement, next: Code<Memory>, m: Memory)
    requires Blocks(call)
    ensures LoopOf(call, next).Yield? && (!LoopOf(call, next).ready(m) <==> NotThere(call, m))
  {
    match call
    case Receive(c) =>
      assert LoopOf(call, next).ready(m) == Receivable(m, c);
    case Select(branches, otherwise) =>
      assert LoopOf(call, next).ready(m) == Selectable(branches, otherwise, m);
    case _ =>
  }

  // ----- where a coroutine can stand -----

  /** The code is inside a blocking call of a program, with the rest of the program to follow. */
  ghost predicate InCall(code: Code<Memory>, call: Statement, rest: Program) { Blocks(call) && code == LoopOf(call, Compile(rest)) }

  ghost predicate OfProgram(c: Coroutine<Memory>) {
    || c.done
    || (exists p: Program :: c.code == Compile(p))
    || (exists call: Statement, rest: Program :: InCall(c.code, call, rest))
  }

  ghost predicate AllOfPrograms(cs: seq<Coroutine<Memory>>) { forall i :: 0 <= i < |cs| ==> OfProgram(cs[i]) }

  /** One run goes on as the other: to the same place, starting the same coroutines. */
  ghost predicate GoesOn(r: Ran<Memory>, n: Ran<Memory>) { r.after == n.after && r.spawned == n.spawned }

  lemma ActRuns(code: Code<Memory>, m: Memory)
    requires code.Act?
    ensures GoesOn(Resume(code, m), Resume(code.next, code.change(m)))
  {
  }

  lemma YieldRuns(code: Code<Memory>, m: Memory)
    requires code.Yield? && code.ready(m)
    ensures Resume(code, m) == Resume(code.next, m)
  {
  }

  /** Past a call that returned, the rest of the program runs. */
  lemma LoopReturns(call: Statement, next: Code<Memory>, m: Memory)
    requires Blocks(call) && LoopOf(call, next).Yield? && LoopOf(call, next).ready(m)
    ensures exists m' :: GoesOn(Resume(LoopOf(call, next), m), Resume(next, m'))
  {
    hide Resume;
    var code := LoopOf(call, next);
    YieldRuns(code, m);
    if call.Receive? || call.Select? {
      ActRuns(code.next, m);
      assert GoesOn(Resume(code, m), Resume(next, code.next.change(m)));
    } else {
      assert GoesOn(Resume(code, m), Resume(next, m));
    }
  }

  /** A blocking call enters its loop. */
  lemma CallEnters(s: Statement, next: Code<Memory>, m: Memory)
    requires Blocks(s)
    ensures exists m' :: GoesOn(Resume(CompileOne(s, next), m), Resume(LoopOf(s, next), m'))
  {
    hide Resume;
    var code := CompileOne(s, next);
    ActRuns(code, m);
    if s.Send? {
      ActRuns(code.next, code.change(m));
      assert GoesOn(Resume(code, m), Resume(LoopOf(s, next), code.next.change(code.change(m))));
    } else {
      assert GoesOn(Resume(code, m), Resume(LoopOf(s, next), code.change(m)));
    }
  }

  /** A statement runs through, or leaves the coroutine inside its call. */
  lemma StatementRuns(s: Statement, next: Code<Memory>, m: Memory)
    requires !s.Go?
    ensures
      var r := Resume(CompileOne(s, next), m);
      || (exists m' :: GoesOn(r, Resume(next, m')))
      || (Blocks(s) && r.after == Newborn(LoopOf(s, next)) && r.spawned == [])
  {
    hide Resume, CompileOne, LoopOf;
    if Blocks(s) {
      CallEnters(s, next, m);
      var m1 :| GoesOn(Resume(CompileOne(s, next), m), Resume(LoopOf(s, next), m1));
      LoopWaitsExactly(s, next, m1);
      if LoopOf(s, next).ready(m1) {
        LoopReturns(s, next, m1);
        var m2 :| GoesOn(Resume(LoopOf(s, next), m1), Resume(next, m2));
        assert GoesOn(Resume(CompileOne(s, next), m), Resume(next, m2));
      } else {
        StuckStays(LoopOf(s, next), m1);
      }
    } else {
      PlainIsAct(s, next);
      ActRuns(CompileOne(s, next), m);
      assert GoesOn(Resume(CompileOne(s, next), m), Resume(next, CompileOne(s, next).change(m)));
    }
  }

  lemma PlainIsAct(s: Statement, next: Code<Memory>)
    requires !s.Go? && !Blocks(s)
    ensures CompileOne(s, next).Act? && CompileOne(s, next).next == next
  {
  }

  lemma {:induction false} ProgramRuns(p: Program, m: Memory)
    ensures OfProgram(Resume(Compile(p), m).after) && AllOfPrograms(Resume(Compile(p), m).spawned)
    decreases p
  {
    hide CompileOne, OfProgram;
    match p
    case Return => assert OfProgram(Coroutine(End, true)) by { DoneIsOfProgram(End); }
    case Then(s, rest) =>
      if s.Go? {
        GoRuns(s.body, Compile(rest), m);
        ProgramRuns(rest, m);
        assert OfProgram(Newborn(Compile(s.body))) by { NewbornIsOfProgram(s.body); }
      } else {
        StatementRuns(s, Compile(rest), m);
        var r := Resume(CompileOne(s, Compile(rest)), m);
        if Blocks(s) && r.after == Newborn(LoopOf(s, Compile(rest))) && r.spawned == [] {
          InCallIsOfProgram(s, rest);
        } else {
          var m' :| GoesOn(r, Resume(Compile(rest), m'));
          ProgramRuns(rest, m');
        }
      }
  }

  lemma GoRuns(body: Program, next: Code<Memory>, m: Memory)
    ensures
      var r, n := Resume(CompileOne(Go(body), next), m), Resume(next, m);
      r.after == n.after && r.spawned == [Newborn(Compile(body))] + n.spawned
  {
    hide Compile;
  }

  lemma DoneIsOfProgram(code: Code<Memory>)
    ensures OfProgram(Coroutine(code, true))
  {
  }

  lemma NewbornIsOfProgram(p: Program)
    ensures OfProgram(Newborn(Compile(p)))
  {
    hide Compile;
  }

  lemma InCallIsOfProgram(call: Statement, rest: Program)
    requires Blocks(call)
    ensures OfProgram(Newborn(LoopOf(call, Compile(rest))))
  {
    hide Compile, LoopOf;
    assert InCall(LoopOf(call, Compile(rest)), call, rest);
  }

  /** A coroutine of a program stays one, and starts only such. */
  lemma ResumedIsOfProgram(c: Coroutine<Memory>, m: Memory)
    requires OfProgram(c) && !c.done
    ensures OfProgram(Resume(c.code, m).after) && AllOfPrograms(Resume(c.code, m).spawned)
  {
    hide Compile, LoopOf, Resume;
    if p: Program :| c.code == Compile(p) {
      ProgramRuns(p, m);
    } else {
      var call: Statement, rest: Program :| InCall(c.code, call, rest);
      LoopWaitsExactly(call, Compile(rest), m);
      if c.code.ready(m) {
        LoopReturns(call, Compile(rest), m);
        var m' :| GoesOn(Resume(c.code, m), Resume(Compile(rest), m'));
        ProgramRuns(rest, m');
      } else {
        StuckStays(c.code, m);
        assert Newborn(c.code) == c;
      }
    }
  }

  lemma StuckStays(code: Code<Memory>, m: Memory)
    requires code.Yield? && !code.ready(m)
    ensures Resume(code, m).after == Newborn(code) && Resume(code, m).spawned == []
  {
  }

  lemma {:induction false} PassKeepsPrograms(cs: seq<Coroutine<Memory>>, i: nat, m: Memory, progress: bool, stop: Memory -> bool)
    requires AllOfPrograms(cs)
    ensures AllOfPrograms(PassFrom(cs, i, m, progress, stop).cs)
    decreases Total(cs), |cs| - i
  {
    hide OfProgram, Resume;
    if i < |cs| && !stop(m) {
      if cs[i].done {
        PassKeepsPrograms(cs, i + 1, m, progress, stop);
      } else {
        var r := Resume(cs[i].code, m);
        VisitShrinks(cs, i, m);
        ResumedIsOfProgram(cs[i], m);
        PassKeepsPrograms(Visit(cs, i, r), i + 1, r.mem, progress || r.progress, stop);
      }
    }
  }

  lemma {:induction false} FixpointKeepsPrograms(cs: seq<Coroutine<Memory>>, m: Memory, stop: Memory -> bool)
    requires AllOfPrograms(cs)
    ensures AllOfPrograms(Fixpoint(cs, m, stop).cs)
    decreases Total(cs)
  {
    hide AllOfPrograms;
    var pass := PassFrom(cs, 0, m, false, stop);
    PassKeepsPrograms(cs, 0, m, false, stop);
    if !pass.stopped && pass.progress {
      FixpointKeepsPrograms(pass.cs, pass.mem, stop);
    }
  }

  /** For any programs: when the dispatcher has stopped of itself, every coroutine has finished, or is inside a blocking call
      that waits for something that is not there. */
  lemma EveryoneFinishedOrWaits(ps: seq<Program>, m: Memory, stop: Memory -> bool, i: nat)
    requires !Fixpoint(Start(ps), m, stop).stopped && i < |Fixpoint(Start(ps), m, stop).cs|
    ensures
      var s := Fixpoint(Start(ps), m, stop);
      s.cs[i].done || exists call: Statement, rest: Program :: InCall(s.cs[i].code, call, rest) && NotThere(call, s.mem)
  {
    hide Fixpoint, Compile, LoopOf, NotThere;
    forall k | 0 <= k < |ps| ensures OfProgram(Start(ps)[k]) {
      NewbornIsOfProgram(ps[k]);
    }
    FixpointKeepsPrograms(Start(ps), m, stop);
    var s := Fixpoint(Start(ps), m, stop);
    ProgramsBlockOrFinish(ps, m, stop, i);
    if !s.cs[i].done {
      assert OfProgram(s.cs[i]);
      if p: Program :| s.cs[i].code == Compile(p) {
        NeverAtALoop(p);
      } else {
        var call: Statement, rest: Program :| InCall(s.cs[i].code, call, rest);
        LoopWaitsExactly(call, Compile(rest), s.mem);
      }
    }
  }

  /** No statement begins with a loop: progress is marked first. */
  lemma NeverAtALoop(p: Program)
    ensures !Compile(p).Yield?
  {
  }
}
