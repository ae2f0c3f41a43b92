/** Replaying a run from its markers reproduces it: the determinism of workflow code over its environment. */
module Determinism {
  import opened Prelude
  import opened History
  import opened Sdk

  // ------------------------------------------------------------------
  // Marker keys never collide
  // ------------------------------------------------------------------

  lemma NoColon(n: nat)
    ensures ':' !in Itoa(n)
  {
    ItoaDigits(n);
  }

  lemma PlainNotMutable(n: nat, id: string, k: nat)
    ensures SideKey(n) != MutableKey(id, k)
  {
    NoColon(n);
    assert (id + ":" + Itoa(k))[|id|] == ':';
  }

  lemma LastColon(id: string, n: nat)
    ensures
      var s := id + ":" + Itoa(n);
      s[|id|] == ':' && forall j :: |id| < j < |s| ==> s[j] != ':'
  {
    NoColon(n);
    var s := id + ":" + Itoa(n);
    forall j | |id| < j < |s| ensures s[j] != ':' {
      assert s[j] == Itoa(n)[j - |id| - 1];
    }
  }

  /** The last colon separates the id from the call number. */
  lemma MutableKeyInjective(id: string, n: nat, id': string, n': nat)
    requires MutableKey(id, n) == MutableKey(id', n')
    ensures id == id' && n == n'
  {
    var s := id + ":" + Itoa(n);
    var s' := id' + ":" + Itoa(n');
    LastColon(id, n);
    LastColon(id', n');
    assert s == s';
    assert |id| == |id'|;
    assert id == s[..|id|] == s'[..|id'|] == id';
    assert Itoa(n) == s[|id| + 1..] == s'[|id'| + 1..] == Itoa(n');
    ItoaInjective(n, n');
  }

  // ------------------------------------------------------------------
  // The log
  // ------------------------------------------------------------------

  type Log = map<MarkerKey, Option<Recorded>>

  /** No key a later call could consult has been consulted yet. */
  ghost predicate KeysAhead(b: Book) {
    && (forall n: nat :: n > b.sideSeq ==> SideKey(n) !in b.log)
    && (forall n: nat :: n > b.localSeq ==> LocalKey(n) !in b.log)
    && (forall id: string, n: nat :: n > CallsOf(b.mutableSeq, id) ==> MutableKey(id, n) !in b.log)
    && (forall id: string :: id !in b.versions ==> VersionKey(id) !in b.log)
  }

  predicate LogGrows(a: Log, b: Log) {
    forall k :: k in a ==> k in b && b[k] == a[k]
  }

  /** The marker index agrees with every consultation the run has made. */
  predicate Covers(m: Markers, log: Log) {
    forall k :: k in log ==> (k in m <==> log[k].Some?) && (k in m ==> m[k] == log[k].value)
  }

  lemma CoversLess(m: Markers, a: Log, b: Log)
    requires LogGrows(a, b) && Covers(m, b)
    ensures Covers(m, a)
  {
  }

  lemma LogGrowsTransitive(a: Log, b: Log, c: Log)
    requires LogGrows(a, b) && LogGrows(b, c)
    ensures LogGrows(a, c)
  {
  }

  /** Exactly the answers a replay can reproduce. */
  predicate Stable(kind: EffectKind, a: Answer) {
    match kind
    case Plain => a.problem.Some? ==> a.problem.value.App? && a.value == NoPayload
    case Local => a.problem.Some? ==> a.problem.value.App?
    case Mutable => a.problem.None?
  }

  ghost predicate StableWorld(world: World) {
    forall kind, key :: Stable(kind, world(kind, key))
  }

  // ------------------------------------------------------------------
  // One call
  // ------------------------------------------------------------------

  /** A call that consults `key` notes what it came to, and queues a marker exactly when it recorded one. */
  predicate Consults(e: Env, a: Env, key: MarkerKey) {
    && key.name != ""
    && key in a.book.log
    && a.book.log == e.book.log[key := a.book.log[key]]
    && a.desk == match a.book.log[key] {
         case Some(r) => Enqueue(e.desk, RecordMarker(key, r.details, r.failure), None)
         case None => e.desk
       }
  }

  lemma OnceConsults(e: Env, kind: EffectKind, key: MarkerKey, m: Markers, r: bool, world: World)
    requires !e.desk.closed && key.name != "" && DoOnce(e, kind, key, m, r, world).Ok?
    ensures
      var a := DoOnce(e, kind, key, m, r, world).value.env;
      Consults(e, a, key) && a.book == e.book.(log := a.book.log)
  {
  }

  lemma OnceReplays(e: Env, kind: EffectKind, key: MarkerKey, m: Markers, r: bool, world: World, m': Markers, world': World)
    requires !e.desk.closed && !kind.Mutable? && DoOnce(e, kind, key, m, r, world).Ok?
    requires r || Stable(kind, world(kind, key))
    requires Covers(m', DoOnce(e, kind, key, m, r, world).value.env.book.log)
    ensures DoOnce(e, kind, key, m', true, world') == DoOnce(e, kind, key, m, r, world)
  {
    var a := DoOnce(e, kind, key, m, r, world).value;
    assert key in a.env.book.log && a.env.book.log[key].Some?;
  }

  lemma MutableConsults(e: Env, id: string, same: (Payload, Payload) -> bool, m: Markers, r: bool, world: World)
    requires !e.desk.closed && DoMutable(e, id, same, m, r, world).Ok?
    ensures
      var n := CallsOf(e.book.mutableSeq, id) + 1;
      var a := DoMutable(e, id, same, m, r, world).value.env;
      && Consults(e, a, MutableKey(id, n))
      && a.book == e.book.(log := a.book.log, mutables := a.book.mutables, mutableSeq := e.book.mutableSeq[id := n])
  {
    hide MutableKey;
  }

  lemma MutableReplays(e: Env, id: string, same: (Payload, Payload) -> bool, m: Markers, r: bool, world: World,
                       m': Markers, world': World)
    requires !e.desk.closed && DoMutable(e, id, same, m, r, world).Ok?
    requires r || Stable(Mutable, world(Mutable, MutableKey(id, CallsOf(e.book.mutableSeq, id) + 1)))
    requires Covers(m', DoMutable(e, id, same, m, r, world).value.env.book.log)
    ensures DoMutable(e, id, same, m', true, world') == DoMutable(e, id, same, m, r, world)
  {
    hide MutableKey;
    assert MutableKey(id, CallsOf(e.book.mutableSeq, id) + 1) in DoMutable(e, id, same, m, r, world).value.env.book.log;
  }

  lemma VersionConsults(e: Env, id: string, lo: int, hi: int, m: Markers, r: bool)
    requires !e.desk.closed && DoGetVersion(e, id, lo, hi, m, r).Ok?
    ensures
      var a := DoGetVersion(e, id, lo, hi, m, r).value.env;
      if id in e.book.versions then a == e
      else Consults(e, a, VersionKey(id)) && id in a.book.versions
           && a.book == e.book.(log := a.book.log, versions := e.book.versions[id := a.book.versions[id]])
  {
    hide VersionKey;
  }

  /** A version gate replays to what it answered exactly when its range is not empty or the answer itself came from a
      replay: with an empty range a live call picks a version that its own replay refuses. */
  lemma VersionReplaysExactly(e: Env, id: string, lo: int, hi: int, m: Markers, r: bool, m': Markers)
    requires !e.desk.closed && DoGetVersion(e, id, lo, hi, m, r).Ok?
    requires Covers(m', DoGetVersion(e, id, lo, hi, m, r).value.env.book.log)
    ensures DoGetVersion(e, id, lo, hi, m', true) == DoGetVersion(e, id, lo, hi, m, r) <==> lo <= hi || r
  {
    hide VersionKey;
    if id !in e.book.versions {
      var log := DoGetVersion(e, id, lo, hi, m, r).value.env.book.log;
      assert VersionKey(id) in log;
      if !r && VersionKey(id) !in m {
        assert log[VersionKey(id)] == Some(Recorded(Number(hi), None));
        assert VersionKey(id) in m' && m'[VersionKey(id)].details == Number(hi);
      }
    }
  }

  /** A failing input, whatever the environment: the first live call of any gate with an empty range. */
  lemma EmptyRangeBreaksReplay(e: Env, id: string, lo: int, hi: int, m: Markers, m': Markers)
    requires !e.desk.closed && id !in e.book.versions && VersionKey(id) !in m && hi < lo
    requires Covers(m', e.book.log[VersionKey(id) := Some(Recorded(Number(hi), None))])
    ensures DoGetVersion(e, id, lo, hi, m, false).Ok?
    ensures DoGetVersion(e, id, lo, hi, m', true) == Err(ErrNonDeterminism)
  {
    hide VersionKey;
    assert VersionKey(id) in e.book.log[VersionKey(id) := Some(Recorded(Number(hi), None))];
  }

  // ----- keys stay ahead -----

  lemma SideAhead(e: Env, a: Env)
    requires KeysAhead(e.book) && Consults(e, a, SideKey(e.book.sideSeq + 1))
    requires a.book == e.book.(log := a.book.log, sideSeq := e.book.sideSeq + 1)
    ensures KeysAhead(a.book) && LogGrows(e.book.log, a.book.log)
  {
    var k := e.book.sideSeq + 1;
    forall n: nat | n > k ensures SideKey(n) != SideKey(k) {
      if SideKey(n) == SideKey(k) { ItoaInjective(n, k); }
    }
    forall id: string, n: nat ensures MutableKey(id, n) != SideKey(k) {
      PlainNotMutable(k, id, n);
    }
  }

  lemma LocalAhead(e: Env, a: Env)
    requires KeysAhead(e.book) && Consults(e, a, LocalKey(e.book.localSeq + 1))
    requires a.book == e.book.(log := a.book.log, localSeq := e.book.localSeq + 1)
    ensures KeysAhead(a.book) && LogGrows(e.book.log, a.book.log)
  {
    var k := e.book.localSeq + 1;
    forall n: nat | n > k ensures LocalKey(n) != LocalKey(k) {
      if LocalKey(n) == LocalKey(k) { ItoaInjective(n, k); }
    }
  }

  lemma MutableAhead(e: Env, a: Env, id: string)
    requires
      var n := CallsOf(e.book.mutableSeq, id) + 1;
      && KeysAhead(e.book) && Consults(e, a, MutableKey(id, n))
      && a.book == e.book.(log := a.book.log, mutables := a.book.mutables, mutableSeq := e.book.mutableSeq[id := n])
    ensures KeysAhead(a.book) && LogGrows(e.book.log, a.book.log)
  {
    var k := CallsOf(e.book.mutableSeq, id) + 1;
    forall n: nat ensures SideKey(n) != MutableKey(id, k) {
      PlainNotMutable(n, id, k);
    }
    forall id': string, n: nat | n > CallsOf(a.book.mutableSeq, id')
      ensures MutableKey(id', n) != MutableKey(id, k) && MutableKey(id', n) !in e.book.log
    {
      if MutableKey(id', n) == MutableKey(id, k) { MutableKeyInjective(id', n, id, k); }
    }
  }

  lemma VersionAhead(e: Env, a: Env, id: string)
    requires KeysAhead(e.book) && Consults(e, a, VersionKey(id)) && id !in e.book.versions && id in a.book.versions
    requires a.book == e.book.(log := a.book.log, versions := e.book.versions[id := a.book.versions[id]])
    ensures KeysAhead(a.book) && LogGrows(e.book.log, a.book.log)
  {
  }

  // ----- what never touches the book, or the closed flag -----

  lemma {:induction false} HandlesKeepClosed(d: Desk, i: nat, k: nat, applying: bool)
    ensures CancelHandles(d, i, k, applying).closed == d.closed
    decreases |d.handles| - k
  {
    if k < |d.handles| {
      HandlesKeepClosed(if d.handles[k].scope == Some(i) then CancelHandle(d, k, applying) else d, i, k + 1, applying);
    }
  }

  lemma {:induction false} ChildrenKeepClosed(d: Desk, i: nat, j: nat, applying: bool)
    requires i < j
    ensures CancelChildren(d, i, j, applying).closed == d.closed
    decreases if i < |d.scopes| then |d.scopes| - i else 0, 0, if j < |d.scopes| then |d.scopes| - j else 0
  {
    if j < |d.scopes| {
      if d.scopes[j].parent == Some(i) {
        TreeKeepsClosed(d, j, applying);
        ChildrenKeepClosed(CancelTree(d, j, applying), i, j + 1, applying);
      } else {
        ChildrenKeepClosed(d, i, j + 1, applying);
      }
    }
  }

  lemma {:induction false} TreeKeepsClosed(d: Desk, i: nat, applying: bool)
    ensures CancelTree(d, i, applying).closed == d.closed
    decreases if i < |d.scopes| then |d.scopes| - i else 0, 1, 0
  {
    if i < |d.scopes| && !d.scopes[i].canceled {
      var d1 := d.(scopes := d.scopes[i := d.scopes[i].(canceled := true)]);
      ChildrenKeepClosed(d1, i, i + 1, applying);
      HandlesKeepClosed(CancelChildren(d1, i, i + 1, applying), i, 0, applying);
    }
  }

  lemma PlainKeeps(e: Env, call: Call)
    requires !MarkerCall(call)
    ensures DoPlain(e, call).env.book == e.book && DoPlain(e, call).env.desk.closed == e.desk.closed
  {
    hide CancelTree;
    if call.CancelScope? {
      TreeKeepsClosed(e.desk, call.scope, false);
    }
  }

  lemma EventKeepsBook(e: Env, ev: Event)
    requires ApplyEvent(e, ev).Ok?
    ensures ApplyEvent(e, ev).value.book == e.book
  {
    hide ApplyToDesk;
  }

  // ------------------------------------------------------------------
  // Every call, every run of the code
  // ------------------------------------------------------------------

  predicate SaneCall(call: Call) { call.GetVersion? ==> call.minSupported <= call.maxSupported }

  /** A version gate never asks for an empty range. */
  ghost predicate Sane<P(!new)>(w: Workflow<P>) {
    forall p :: w.next(p).Ask? ==> SaneCall(w.next(p).call)
  }

  /** The marker a call asks about. */
  function KeyOf(b: Book, call: Call): MarkerKey
    requires MarkerCall(call)
  {
    match call
    case SideEffect => SideKey(b.sideSeq + 1)
    case LocalActivity => LocalKey(b.localSeq + 1)
    case MutableSideEffect(id, _) => MutableKey(id, CallsOf(b.mutableSeq, id) + 1)
    case GetVersion(id, _, _) => VersionKey(id)
  }

  /** A marker call consults its own key, which nothing has consulted before, unless a version is pinned already. */
  lemma PerformConsults(e: Env, call: Call, m: Markers, r: bool, world: World)
    requires KeysAhead(e.book) && !e.desk.closed && MarkerCall(call) && Perform(e, call, m, r, world).Ok?
    ensures
      var a := Perform(e, call, m, r, world).value.env;
      if call.GetVersion? && call.changeId in e.book.versions then a == e
      else KeyOf(e.book, call) !in e.book.log && Consults(e, a, KeyOf(e.book, call))
  {
    hide DoOnce, DoMutable, DoGetVersion;
    match call
    case SideEffect => OnceConsults(NextSide(e), Plain, SideKey(e.book.sideSeq + 1), m, r, world);
    case LocalActivity => OnceConsults(NextLocal(e), Local, LocalKey(e.book.localSeq + 1), m, r, world);
    case MutableSideEffect(id, same) => MutableConsults(e, id, same, m, r, world);
    case GetVersion(id, lo, hi) => VersionConsults(e, id, lo, hi, m, r);
  }

  /** A call grows the log by at most its own key. */
  lemma PerformGrows(e: Env, call: Call, m: Markers, r: bool, world: World)
    requires KeysAhead(e.book) && !e.desk.closed && Perform(e, call, m, r, world).Ok?
    ensures
      var a := Perform(e, call, m, r, world).value.env;
      KeysAhead(a.book) && LogGrows(e.book.log, a.book.log) && !a.desk.closed
  {
    hide KeysAhead, LogGrows, DoOnce, DoMutable, DoGetVersion, DoPlain, SideKey, LocalKey, MutableKey, VersionKey;
    var a := Perform(e, call, m, r, world).value.env;
    match call
    case SideEffect =>
      OnceConsults(NextSide(e), Plain, SideKey(e.book.sideSeq + 1), m, r, world);
      SideAhead(e, a);
    case LocalActivity =>
      OnceConsults(NextLocal(e), Local, LocalKey(e.book.localSeq + 1), m, r, world);
      LocalAhead(e, a);
    case MutableSideEffect(id, same) =>
      MutableConsults(e, id, same, m, r, world);
      MutableAhead(e, a, id);
    case GetVersion(id, lo, hi) =>
      VersionConsults(e, id, lo, hi, m, r);
      if id in e.book.versions { GrowsSelf(e.book); } else { VersionAhead(e, a, id); }
    case _ =>
      PlainKeeps(e, call);
      GrowsSelf(e.book);
  }

  lemma GrowsSelf(b: Book)
    ensures LogGrows(b.log, b.log)
  {
  }

  /** Replaying one call from an index that covers its log gives the same environment and the same reply. */
  lemma PerformReplays(e: Env, call: Call, m: Markers, r: bool, world: World, m': Markers, world': World)
    requires !e.desk.closed && SaneCall(call) && Perform(e, call, m, r, world).Ok?
    requires r || StableWorld(world)
    requires Covers(m', Perform(e, call, m, r, world).value.env.book.log)
    ensures Perform(e, call, m', true, world') == Perform(e, call, m, r, world)
  {
    hide Covers, DoOnce, DoMutable, DoGetVersion, DoPlain, SideKey, LocalKey, MutableKey, Stable;
    match call
    case SideEffect => OnceReplays(NextSide(e), Plain, SideKey(e.book.sideSeq + 1), m, r, world, m', world');
    case LocalActivity => OnceReplays(NextLocal(e), Local, LocalKey(e.book.localSeq + 1), m, r, world, m', world');
    case MutableSideEffect(id, same) => MutableReplays(e, id, same, m, r, world, m', world');
    case GetVersion(id, lo, hi) => VersionReplaysExactly(e, id, lo, hi, m, r, m');
    case _ =>
  }

  lemma {:induction false} StepsGrow<P(!new)>(w: Workflow<P>, e: Env, p: P, m: Markers, r: bool, world: World, fuel: nat)
    requires KeysAhead(e.book) && !e.desk.closed && Steps(w, e, p, m, r, world, fuel).Ok?
    ensures
      var a := Steps(w, e, p, m, r, world, fuel).value.env;
      KeysAhead(a.book) && LogGrows(e.book.log, a.book.log)
    decreases fuel
  {
    hide KeysAhead, LogGrows, Perform;
    GrowsSelf(e.book);
    if w.next(p).Ask? {
      var a := Perform(e, w.next(p).call, m, r, world).value;
      PerformGrows(e, w.next(p).call, m, r, world);
      StepsGrow(w, a.env, w.resume(p, a.reply), m, r, world, fuel - 1);
      LogGrowsTransitive(e.book.log, a.env.book.log, Steps(w, e, p, m, r, world, fuel).value.env.book.log);
    }
  }

  lemma {:induction false} StepsReplay<P(!new)>(w: Workflow<P>, e: Env, p: P, m: Markers, r: bool, world: World, fuel: nat,
                                                m': Markers, world': World)
    requires Sane(w) && KeysAhead(e.book) && !e.desk.closed && Steps(w, e, p, m, r, world, fuel).Ok?
    requires r || StableWorld(world)
    requires Covers(m', Steps(w, e, p, m, r, world, fuel).value.env.book.log)
    ensures Steps(w, e, p, m', true, world', fuel) == Steps(w, e, p, m, r, world, fuel)
    decreases fuel
  {
    hide KeysAhead, LogGrows, Perform, Covers, StableWorld;
    if w.next(p).Ask? {
      var call := w.next(p).call;
      var a := Perform(e, call, m, r, world).value;
      PerformGrows(e, call, m, r, world);
      StepsGrow(w, a.env, w.resume(p, a.reply), m, r, world, fuel - 1);
      CoversLess(m', a.env.book.log, Steps(w, e, p, m, r, world, fuel).value.env.book.log);
      PerformReplays(e, call, m, r, world, m', world');
      StepsReplay(w, a.env, w.resume(p, a.reply), m, r, world, fuel - 1, m', world');
    }
  }

  lemma RunGrows<P(!new)>(w: Workflow<P>, c: Core<P>, m: Markers, r: bool, world: World, fuel: nat)
    requires KeysAhead(c.env.book) && RunCode(w, c, m, r, world, fuel).Ok?
    ensures
      var a := RunCode(w, c, m, r, world, fuel).value.env;
      KeysAhead(a.book) && LogGrows(c.env.book.log, a.book.log)
  {
    hide KeysAhead, LogGrows, Steps, FlushCancels;
    GrowsSelf(c.env.book);
    var e := c.env.(desk := FlushCancels(c.env.desk));
    if !e.desk.closed {
      StepsGrow(w, e, if c.code.Some? then c.code.value else w.begin(e.start, e.startedAt), m, r, world, fuel);
    }
  }

  /** Running code live and replaying it later from the markers it left give the same environment, provided every live
      answer is one a marker can reproduce. */
  lemma RunReplays<P(!new)>(w: Workflow<P>, c: Core<P>, m: Markers, r: bool, world: World, fuel: nat, m': Markers, world': World)
    requires Sane(w) && KeysAhead(c.env.book) && RunCode(w, c, m, r, world, fuel).Ok?
    requires r || StableWorld(world)
    requires Covers(m', RunCode(w, c, m, r, world, fuel).value.env.book.log)
    ensures RunCode(w, c, m', true, world', fuel) == RunCode(w, c, m, r, world, fuel)
  {
    hide KeysAhead, Steps, Covers, StableWorld, FlushCancels;
    var e := c.env.(desk := FlushCancels(c.env.desk));
    if !e.desk.closed {
      StepsReplay(w, e, if c.code.Some? then c.code.value else w.begin(e.start, e.startedAt), m, r, world, fuel, m', world');
    }
  }

  // ------------------------------------------------------------------
  // Which answers replay: the exact condition, call by call
  // ------------------------------------------------------------------

  /** A side effect or local activity run live replays to the same environment and reply exactly when its answer is
      stable: a raw error comes back as an application error, and a value returned beside an error is lost. */
  lemma OnceReplaysExactlyWhenStable(e: Env, kind: EffectKind, key: MarkerKey, m: Markers, world: World, world': World)
    requires !e.desk.closed && !kind.Mutable? && key !in m
    ensures
      var live := DoOnce(e, kind, key, m, false, world);
      && live.Ok? && key in live.value.env.book.log && live.value.env.book.log[key].Some?
      && (DoOnce(e, kind, key, m[key := live.value.env.book.log[key].value], true, world') == live
          <==> Stable(kind, world(kind, key)))
  {
    var live := DoOnce(e, kind, key, m, false, world);
    var r := RecordAnswer(world(kind, key));
    assert live.value.env == Mark(e, key, r);
    assert DoOnce(e, kind, key, m[key := r], true, world') == Ok(Answered(Mark(e, key, r), Value(ReadBack(r))));
  }

  /** A failing mutable side effect replays only if the value cached for it was nil already. */
  lemma MutableReplaysExactly(e: Env, id: string, same: (Payload, Payload) -> bool, m: Markers, world: World, world': World)
    requires !e.desk.closed
    requires MutableKey(id, CallsOf(e.book.mutableSeq, id) + 1) !in m
    ensures
      var key := MutableKey(id, CallsOf(e.book.mutableSeq, id) + 1);
      var a := world(Mutable, key);
      var live := DoMutable(e, id, same, m, false, world);
      && live.Ok? && key in live.value.env.book.log
      && var left := live.value.env.book.log[key];
         (DoMutable(e, id, same, if left.Some? then m[key := left.value] else m, true, world') == live
          <==> a.problem.None? || (a.problem.value.App? && id in e.book.mutables && e.book.mutables[id] == NoPayload))
  {
    hide MutableKey, CallsOf;
    var n := CallsOf(e.book.mutableSeq, id) + 1;
    var key := MutableKey(id, n);
    var a := world(Mutable, key);
    var live := DoMutable(e, id, same, m, false, world);
    if a.problem.Some? {
      var r := Recorded(NoPayload, Some(AsApplication(a.problem.value)));
      assert live.value.env.book.log[key] == Some(r);
      var back := DoMutable(e, id, same, m[key := r], true, world').value;
      assert back.env.book.mutables == e.book.mutables[id := NoPayload];
      assert back.reply == Value(ReadBack(r));
      if id in e.book.mutables && e.book.mutables[id] == NoPayload {
        assert e.book.mutables[id := NoPayload] == e.book.mutables;
      }
      assert live.value.env.book.mutables == e.book.mutables;
    }
  }

  // ------------------------------------------------------------------
  // Feeding a history
  // ------------------------------------------------------------------

  lemma EventReplays<P(!new)>(w: Workflow<P>, c: Core<P>, m: Markers, h: seq<Event>, i: nat, world: World, fuel: nat,
                              m': Markers, world': World)
    requires i < |h| && Sane(w) && KeysAhead(c.env.book) && ReplayEvent(w, c, m, h, i, world, fuel).Ok?
    ensures
      var a := ReplayEvent(w, c, m, h, i, world, fuel).value;
      && KeysAhead(a.env.book) && LogGrows(c.env.book.log, a.env.book.log)
      && (Covers(m', a.env.book.log) ==> ReplayEvent(w, c, m', h, i, world', fuel) == Ok(a))
  {
    hide KeysAhead, LogGrows, Covers, RunCode, ApplyEvent;
    GrowsSelf(c.env.book);
    if h[i].attrs.TaskStarted? {
      var c1 := c.(env := Advance(c.env, h[i].time));
      if CompletedNext(h, i) {
        RunGrows(w, c1, m, true, world, fuel);
        if Covers(m', RunCode(w, c1, m, true, world, fuel).value.env.book.log) {
          RunReplays(w, c1, m, true, world, fuel, m', world');
        }
      }
    } else {
      EventKeepsBook(c.env, h[i]);
    }
  }

  /** Replaying a range needs nothing from the marker index but what the range itself left in its log. */
  lemma {:induction false} RangeReplays<P(!new)>(w: Workflow<P>, c: Core<P>, m: Markers, h: seq<Event>, i: nat, n: nat,
                                                 world: World, fuel: nat, m': Markers, world': World)
    requires i <= n <= |h| && Sane(w) && KeysAhead(c.env.book) && ReplayRange(w, c, m, h, i, n, world, fuel).Ok?
    ensures
      var a := ReplayRange(w, c, m, h, i, n, world, fuel).value;
      && KeysAhead(a.env.book) && LogGrows(c.env.book.log, a.env.book.log)
      && (Covers(m', a.env.book.log) ==> ReplayRange(w, c, m', h, i, n, world', fuel) == Ok(a))
    decreases n - i
  {
    hide KeysAhead, LogGrows, Covers, ReplayEvent;
    GrowsSelf(c.env.book);
    if i < n {
      RangeReplays(w, c, m, h, i, n - 1, world, fuel, m', world');
      var c1 := ReplayRange(w, c, m, h, i, n - 1, world, fuel).value;
      EventReplays(w, c1, m, h, n - 1, world, fuel, m', world');
      var a := ReplayEvent(w, c1, m, h, n - 1, world, fuel).value;
      LogGrowsTransitive(c.env.book.log, c1.env.book.log, a.env.book.log);
      if Covers(m', a.env.book.log) {
        CoversLess(m', c1.env.book.log, a.env.book.log);
      }
    }
  }

  /** Two histories that agree on the range, and on what follows it when it ends in a started event, replay alike. */
  lemma {:induction false} RangeExtends<P>(w: Workflow<P>, c: Core<P>, m: Markers, h: seq<Event>, h': seq<Event>, i: nat, n: nat,
                                           world: World, fuel: nat)
    requires i <= n <= |h| && n <= |h'| && h[..n] == h'[..n]
    requires n > 0 ==> CompletedNext(h, n - 1) == CompletedNext(h', n - 1)
    ensures ReplayRange(w, c, m, h, i, n, world, fuel) == ReplayRange(w, c, m, h', i, n, world, fuel)
    decreases n - i
  {
    hide RunCode, ApplyEvent;
    if i < n {
      assert h[n - 1] == h[..n][n - 1] == h'[n - 1];
      assert h[..n - 1] == h[..n][..n - 1] == h'[..n - 1];
      RangeExtends(w, c, m, h, h', i, n - 1, world, fuel);
    }
  }

  /** Replaying up to `k` and on from there is replaying the whole range. */
  lemma {:induction false} RangeSplits<P>(w: Workflow<P>, c: Core<P>, m: Markers, h: seq<Event>, i: nat, k: nat, n: nat,
                                          world: World, fuel: nat)
    requires i <= k <= n <= |h|
    ensures
      ReplayRange(w, c, m, h, i, n, world, fuel) ==
      match ReplayRange(w, c, m, h, i, k, world, fuel)
      case Ok(c1) => ReplayRange(w, c1, m, h, k, n, world, fuel)
      case Err(x) => Err(x)
    decreases n - k
  {
    hide ReplayEvent;
    if k < n {
      RangeSplits(w, c, m, h, i, k, n - 1, world, fuel);
    }
  }

  lemma RangeOne<P>(w: Workflow<P>, c: Core<P>, m: Markers, h: seq<Event>, i: nat, world: World, fuel: nat)
    requires i < |h|
    ensures ReplayRange(w, c, m, h, i, i + 1, world, fuel) == ReplayEvent(w, c, m, h, i, world, fuel)
  {
    hide ReplayEvent;
    assert ReplayRange(w, c, m, h, i, i, world, fuel) == Ok(c);
  }

  /** The feeding loop replays up to the started event its task names and runs that one live. */
  lemma {:induction false} FeedReaches<P>(w: Workflow<P>, c: Core<P>, m: Markers, h: seq<Event>, i: nat, s: nat,
                                          replayOnly: bool, world: World, fuel: nat)
    requires i <= s < |h| && h[s].attrs.TaskStarted? && h[s].id != 0
    requires forall j :: i <= j < s ==> h[j].id != h[s].id
    requires ReplayRange(w, c, m, h, i, s, world, fuel).Ok?
    ensures
      var c1 := ReplayRange(w, c, m, h, i, s, world, fuel).value;
      var r := RunCode(w, c1.(env := Advance(c1.env, h[s].time)), m, replayOnly, world, fuel);
      && (r.Ok? ==> Feed(w, c, m, h, i, h[s].id, replayOnly, world, fuel) == Ok(Fed(r.value, s + 1, true)))
      && (r.Err? ==> Feed(w, c, m, h, i, h[s].id, replayOnly, world, fuel) == Err(r.error))
    decreases s - i
  {
    hide ReplayEvent, RunCode;
    if i == s {
      assert ReplayRange(w, c, m, h, i, i, world, fuel) == Ok(c);
    } else {
      RangeSplits(w, c, m, h, i, i + 1, s, world, fuel);
      RangeOne(w, c, m, h, i, world, fuel);
      FeedReaches(w, ReplayEvent(w, c, m, h, i, world, fuel).value, m, h, i + 1, s, replayOnly, world, fuel);
    }
  }

  // ----- the marker index -----

  lemma {:induction false} PreloadCompletes(h: seq<Event>, k: nat)
    requires k <= |h|
    ensures Preload(MarkersIn(h, k), h, k) == MarkersIn(h, |h|)
    decreases |h| - k
  {
    if k < |h| {
      PreloadCompletes(h, k + 1);
    }
  }

  lemma {:induction false} MarkersExtend(h: seq<Event>, h': seq<Event>, n: nat)
    requires n <= |h| && n <= |h'| && h[..n] == h'[..n]
    ensures MarkersIn(h, n) == MarkersIn(h', n)
  {
    if n > 0 {
      assert h[n - 1] == h[..n][n - 1] == h'[n - 1];
      assert h[..n - 1] == h[..n][..n - 1] == h'[..n - 1];
      MarkersExtend(h, h', n - 1);
    }
  }
}
