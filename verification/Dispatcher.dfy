/** The cooperative dispatcher runs coroutines to a fixpoint (internal/workflow/dispatcher.go). */
module Dispatchers {
  import opened Prelude

  /** What a coroutine still has to do over shared memory `M`: a step of code that may mark progress, the loop at the heart of
      a blocking call, which yields until its condition holds, or starting another coroutine. */
  datatype Code<!M> =
    | End
    | Act(change: M -> M, marks: M -> bool, next: Code<M>)
    | Yield(ready: M -> bool, next: Code<M>)
    | Spawn(child: Code<M>, next: Code<M>)

  /** One that has yielded stands at the loop it yielded in. */
  datatype Coroutine<!M> = Coroutine(code: Code<M>, done: bool)

  function Newborn<M>(p: Code<M>): Coroutine<M> { Coroutine(p, false) }

  /** Nothing to do without new information. */
  predicate Blocked<M>(c: Coroutine<M>, m: M) { c.done || (c.code.Yield? && !c.code.ready(m)) }

  // ------------------------------------------------------------------
  // Work left: every step of a program can be taken once
  // ------------------------------------------------------------------

  function Size<M>(p: Code<M>): nat {
    match p
    case End => 0
    case Act(_, _, next) => 1 + Size(next)
    case Yield(_, next) => 1 + Size(next)
    case Spawn(child, next) => 2 + Size(child) + Size(next)
  }

  function Weight<M>(c: Coroutine<M>): nat { if c.done then 0 else 1 + Size(c.code) }

  function Total<M>(cs: seq<Coroutine<M>>): nat {
    if cs == [] then 0 else Total(cs[..|cs| - 1]) + Weight(cs[|cs| - 1])
  }

  lemma {:induction false} TotalPut<M>(cs: seq<Coroutine<M>>, i: nat, c: Coroutine<M>)
    requires i < |cs|
    ensures Total(cs[i := c]) + Weight(cs[i]) == Total(cs) + Weight(c)
    decreases |cs|
  {
    var n := |cs| - 1;
    if i == n {
      assert cs[i := c][..n] == cs[..n];
    } else {
      assert cs[i := c][..n] == cs[..n][i := c];
      TotalPut(cs[..n], i, c);
    }
  }

  lemma {:induction false} TotalConcat<M>(a: seq<Coroutine<M>>, b: seq<Coroutine<M>>)
    ensures Total(a + b) == Total(a) + Total(b)
    decreases |b|
  {
    if b == [] {
      assert a + b == a;
    } else {
      var n := |b| - 1;
      assert (a + b)[..|a + b| - 1] == a + b[..n];
      TotalConcat(a, b[..n]);
    }
  }

  // ------------------------------------------------------------------
  // One coroutine
  // ------------------------------------------------------------------

  /** What resuming a coroutine leaves: where it stopped, the memory, whether it marked progress, whom it started. */
  datatype Ran<!M> = Ran(after: Coroutine<M>, mem: M, progress: bool, spawned: seq<Coroutine<M>>)

  /** Runs until the coroutine finishes or yields. Starting a coroutine and finishing mark progress; testing the condition of
      a loop does not, so a blocking call that is to be seen must mark progress itself. */
  function Resume<M>(p: Code<M>, m: M): (r: Ran<M>)
    ensures r.after.done || r.after.code.Yield?
    ensures Blocked(r.after, r.mem)
    ensures r.spawned != [] ==> r.progress
    ensures Weight(r.after) + Total(r.spawned) + (if r.progress then 1 else 0) <= Weight(Newborn(p))
  {
    match p
    case End => Ran(Coroutine(End, true), m, true, [])
    case Act(change, marks, next) =>
      var r := Resume(next, change(m));
      r.(progress := r.progress || marks(m))
    case Spawn(child, next) =>
      var r := Resume(next, m);
      TotalConcat([Newborn(child)], r.spawned);
      assert [Newborn(child)][..0] == [];
      r.(progress := true, spawned := [Newborn(child)] + r.spawned)
    case Yield(ready, next) =>
      if ready(m) then Resume(next, m) else Ran(Coroutine(p, false), m, false, [])
  }

  /** Progress is always marked. */
  ghost predicate Always<M(!new)>(marks: M -> bool) { forall m :: marks(m) }

  /** Whenever the code comes to a loop, progress has been marked since the coroutine last yielded (`entered` says whether it
      has been so far). */
  ghost predicate Guarded<M(!new)>(p: Code<M>, entered: bool) {
    match p
    case End => true
    case Act(_, marks, next) => Guarded(next, entered || Always(marks))
    case Yield(_, next) => entered && Guarded(next, false)
    case Spawn(child, next) => Guarded(child, false) && Guarded(next, true)
  }

  /** About to run guarded code, or standing in a loop of it. */
  ghost predicate Standing<M(!new)>(c: Coroutine<M>) {
    c.done || Guarded(c.code, false) || (c.code.Yield? && Guarded(c.code.next, false))
  }

  ghost predicate AllStanding<M(!new)>(cs: seq<Coroutine<M>>) { forall i :: 0 <= i < |cs| ==> Standing(cs[i]) }

  /** Running guarded code marks progress. */
  lemma {:induction false} GuardedMarks<M(!new)>(p: Code<M>, m: M, entered: bool)
    requires Guarded(p, entered)
    ensures
      var r := Resume(p, m);
      (r.progress || entered) && Standing(r.after) && AllStanding(r.spawned)
  {
    match p
    case End =>
    case Act(change, marks, next) => GuardedMarks(next, change(m), entered || Always(marks));
    case Yield(ready, next) => if ready(m) { GuardedMarks(next, m, false); }
    case Spawn(child, next) => GuardedMarks(next, m, true);
  }

  /** Every change a resumed coroutine makes, to the memory or to where it stands, is marked. */
  lemma ChangesAreMarked<M(!new)>(c: Coroutine<M>, m: M)
    requires Standing(c) && !c.done
    ensures
      var r := Resume(c.code, m);
      && Standing(r.after) && AllStanding(r.spawned)
      && (!r.progress ==> r.after == c && r.mem == m && r.spawned == [])
  {
    if Guarded(c.code, false) {
      GuardedMarks(c.code, m, false);
    } else if c.code.ready(m) {
      GuardedMarks(c.code.next, m, false);
    }
  }

  // ------------------------------------------------------------------
  // One pass, and passes to a fixpoint
  // ------------------------------------------------------------------

  datatype Sched<!M> = Sched(cs: seq<Coroutine<M>>, mem: M, progress: bool, stopped: bool)

  /** The list after coroutine `i` has run; the ones it started join at the end. */
  function Visit<M>(cs: seq<Coroutine<M>>, i: nat, r: Ran<M>): seq<Coroutine<M>>
    requires i < |cs|
  {
    cs[i := r.after] + r.spawned
  }

  lemma VisitShrinks<M>(cs: seq<Coroutine<M>>, i: nat, m: M)
    requires i < |cs| && !cs[i].done
    ensures
      var r := Resume(cs[i].code, m);
      Total(Visit(cs, i, r)) + (if r.progress then 1 else 0) <= Total(cs) && (!r.progress ==> |Visit(cs, i, r)| == |cs|)
  {
    var r := Resume(cs[i].code, m);
    TotalPut(cs, i, r.after);
    TotalConcat(cs[i := r.after], r.spawned);
    assert cs[i] == Newborn(cs[i].code);
  }

  lemma VisitStands<M(!new)>(cs: seq<Coroutine<M>>, i: nat, m: M)
    requires AllStanding(cs) && i < |cs| && !cs[i].done
    ensures
      var r := Resume(cs[i].code, m);
      AllStanding(Visit(cs, i, r)) && (!r.progress ==> Visit(cs, i, r) == cs && r.mem == m)
  {
    hide Standing, Resume;
    assert Standing(cs[i]);
    ChangesAreMarked(cs[i], m);
  }

  /** One pass from coroutine `i` on, in creation order; newcomers run in the same pass. */
  function PassFrom<M>(cs: seq<Coroutine<M>>, i: nat, m: M, progress: bool, stop: M -> bool): (s: Sched<M>)
    ensures Total(s.cs) + (if s.progress && !progress then 1 else 0) <= Total(cs)
    ensures progress ==> s.progress
    decreases Total(cs), |cs| - i
  {
    if i >= |cs| then Sched(cs, m, progress, false)
    else if stop(m) then Sched(cs, m, progress, true)
    else if cs[i].done then PassFrom(cs, i + 1, m, progress, stop)
    else
      var r := Resume(cs[i].code, m);
      VisitShrinks(cs, i, m);
      PassFrom(Visit(cs, i, r), i + 1, r.mem, progress || r.progress, stop)
  }

  /** Passes until one makes no progress. It ends because every pass with progress uses up a step of some program. */
  function Fixpoint<M>(cs: seq<Coroutine<M>>, m: M, stop: M -> bool): Sched<M>
    decreases Total(cs)
  {
    var pass := PassFrom(cs, 0, m, false, stop);
    if pass.stopped || !pass.progress then pass else Fixpoint(pass.cs, pass.mem, stop)
  }

  lemma {:induction false} PassStands<M(!new)>(cs: seq<Coroutine<M>>, i: nat, m: M, progress: bool, stop: M -> bool)
    requires AllStanding(cs)
    ensures AllStanding(PassFrom(cs, i, m, progress, stop).cs)
    decreases Total(cs), |cs| - i
  {
    hide Standing, Resume, Visit, AllStanding;
    if i < |cs| && !stop(m) {
      if cs[i].done {
        PassStands(cs, i + 1, m, progress, stop);
      } else {
        var r := Resume(cs[i].code, m);
        VisitShrinks(cs, i, m);
        VisitStands(cs, i, m);
        PassStands(Visit(cs, i, r), i + 1, r.mem, progress || r.progress, stop);
      }
    }
  }

  /** A pass over guarded code without progress has changed nothing, so every condition it tested is false still. */
  lemma {:induction false} QuietPassBlocks<M(!new)>(cs: seq<Coroutine<M>>, i: nat, m: M, stop: M -> bool)
    requires AllStanding(cs)
    requires i <= |cs| && (forall j :: 0 <= j < i ==> Blocked(cs[j], m))
    requires !PassFrom(cs, i, m, false, stop).progress && !PassFrom(cs, i, m, false, stop).stopped
    ensures
      var s := PassFrom(cs, i, m, false, stop);
      s.cs == cs && s.mem == m && forall j :: 0 <= j < |cs| ==> Blocked(cs[j], m)
    decreases Total(cs), |cs| - i
  {
    hide Standing, AllStanding;
    if i < |cs| {
      if cs[i].done {
        QuietPassBlocks(cs, i + 1, m, stop);
      } else {
        var r := Resume(cs[i].code, m);
        VisitShrinks(cs, i, m);
        VisitStands(cs, i, m);
        assert !r.progress;
        assert Visit(cs, i, r)[i] == r.after;
        QuietPassBlocks(cs, i + 1, m, stop);
      }
    }
  }

  /** Unless the stop condition cut it short, the dispatcher returns with every coroutine finished or waiting for a condition
      that is false in the memory it leaves, provided every blocking call marks progress when it is entered. */
  lemma {:induction false} FixpointBlocksAll<M(!new)>(cs: seq<Coroutine<M>>, m: M, stop: M -> bool)
    requires AllStanding(cs)
    ensures
      var s := Fixpoint(cs, m, stop);
      AllStanding(s.cs) && (!s.stopped ==> forall j :: 0 <= j < |s.cs| ==> Blocked(s.cs[j], s.mem))
    decreases Total(cs)
  {
    hide AllStanding;
    var pass := PassFrom(cs, 0, m, false, stop);
    PassStands(cs, 0, m, false, stop);
    if !pass.stopped {
      if pass.progress {
        FixpointBlocksAll(pass.cs, pass.mem, stop);
      } else {
        QuietPassBlocks(cs, 0, m, stop);
      }
    }
  }

  /** A blocking call that does not mark progress when it is entered can lose a wake-up: the second coroutine makes the first
      one's condition true, enters such a call, and the dispatcher stops with the first one ready. */
  lemma UnmarkedCallLosesWakeUp()
    ensures
      var waiter := Newborn(Yield((m: bool) => m, End));
      var silent := Newborn(Act((m: bool) => true, (m: bool) => false, Yield((m: bool) => false, End)));
      var s := Fixpoint([waiter, silent], false, (m: bool) => false);
      !s.stopped && |s.cs| == 2 && !Blocked(s.cs[0], s.mem)
  {
    var waiter := Newborn(Yield((m: bool) => m, End));
    var stuck := Yield((m: bool) => false, End);
    var silent := Newborn(Act((m: bool) => true, (m: bool) => false, stuck));
    var stop := (m: bool) => false;
    var cs := [waiter, silent];
    assert Resume(waiter.code, false) == Ran(waiter, false, false, []);
    assert Visit(cs, 0, Resume(waiter.code, false)) == cs;
    var r := Resume(silent.code, false);
    assert Resume(stuck, true) == Ran(Newborn(stuck), true, false, []);
    assert r == Ran(Newborn(stuck), true, false, []);
    var after := Visit(cs, 1, r);
    assert after == [waiter, Newborn(stuck)];
    assert PassFrom(after, 2, true, false, stop) == Sched(after, true, false, false);
    assert PassFrom(cs, 1, false, false, stop) == PassFrom(after, 2, true, false, stop);
    assert PassFrom(cs, 0, false, false, stop) == PassFrom(cs, 1, false, false, stop);
  }

  // ------------------------------------------------------------------
  // The object
  // ------------------------------------------------------------------

  datatype Verdict = AllBlocked | Stopped | Deadlock

  class Dispatcher<M(!new)> {
    var coroutines: seq<Coroutine<M>>
    var memory: M
    var progress: bool

    constructor (memory: M)
      ensures coroutines == [] && this.memory == memory
    {
      this.memory := memory;
      coroutines, progress := [], false;
    }

    method NewCoroutine(p: Code<M>)
      modifies this
      ensures coroutines == old(coroutines) + [Newborn(p)] && progress && memory == old(memory)
    {
      coroutines := coroutines + [Newborn(p)];
      progress := true;
    }

    /** One pass over a list that may grow under the loop. */
    method RunPass(stop: M -> bool) returns (stopped: bool)
      modifies this
      ensures Sched(coroutines, memory, progress, stopped) == PassFrom(old(coroutines), 0, old(memory), false, stop)
    {
      progress := false;
      var i := 0;
      while i < |coroutines|
        invariant i <= |coroutines|
        invariant PassFrom(coroutines, i, memory, progress, stop) == PassFrom(old(coroutines), 0, old(memory), false, stop)
        decreases Total(coroutines), |coroutines| - i
      {
        if stop(memory) { return true; }
        if !coroutines[i].done {
          VisitShrinks(coroutines, i, memory);
          var r := Resume(coroutines[i].code, memory);
          coroutines, memory, progress := Visit(coroutines, i, r), r.mem, progress || r.progress;
        }
        i := i + 1;
      }
      return false;
    }

    /** Passes until nothing moves; `limit` stands for the deadline, checked between passes, and None for no deadline. */
    method ExecuteUntilAllBlocked(stop: M -> bool, limit: Option<nat>) returns (r: Verdict)
      modifies this
      ensures r.AllBlocked? && AllStanding(old(coroutines)) ==> forall i :: 0 <= i < |coroutines| ==> Blocked(coroutines[i], memory)
      ensures !r.Deadlock? ==> coroutines == Fixpoint(old(coroutines), old(memory), stop).cs
                               && memory == Fixpoint(old(coroutines), old(memory), stop).mem
      ensures limit.None? ==> !r.Deadlock?
    {
      ghost var target := Fixpoint(coroutines, memory, stop);
      if AllStanding(coroutines) { FixpointBlocksAll(coroutines, memory, stop); }
      var pass := 1;
      while true
        invariant Fixpoint(coroutines, memory, stop) == target
        decreases Total(coroutines)
      {
        var stopped := RunPass(stop);
        if stopped { return Stopped; }
        if !progress { return AllBlocked; }
        if limit.Some? && pass >= limit.value { return Deadlock; }
        pass := pass + 1;
      }
    }

    /** The strict form: everything must also have finished. */
    method RunUntilDone(stop: M -> bool, limit: Option<nat>) returns (ok: bool)
      modifies this
      ensures ok ==> forall i :: 0 <= i < |coroutines| ==> coroutines[i].done
    {
      var r := ExecuteUntilAllBlocked(stop, limit);
      if r.Deadlock? { return false; }
      for i := 0 to |coroutines|
        invariant forall j :: 0 <= j < i ==> coroutines[j].done
      {
        if !coroutines[i].done { return false; }
      }
      return true;
    }
  }
}
