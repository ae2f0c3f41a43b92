/** Cancelling a scope cancels its whole subtree, once: which scopes, which handles, which commands, and in what order. */
module Cancellation {
  import opened Prelude
  import opened History
  import opened Sdk

  // ------------------------------------------------------------------
  // The tree of scopes
  // ------------------------------------------------------------------

  /** Scope `x` lies in the subtree of scope `i`, by the parents alone. */
  ghost predicate Under(scopes: seq<Scope>, x: nat, i: nat)
    decreases x
  {
    && x < |scopes|
    && (x == i || (scopes[x].parent.Some? && scopes[x].parent.value < x && Under(scopes, scopes[x].parent.value, i)))
  }

  /** Parents come before their children. */
  ghost predicate Rooted(scopes: seq<Scope>) {
    forall x :: 0 <= x < |scopes| && scopes[x].parent.Some? ==> scopes[x].parent.value < x
  }

  /** A child of a canceled scope is canceled, below `i`. */
  ghost predicate ClosedBelow(scopes: seq<Scope>, i: nat)
    requires Rooted(scopes)
  {
    forall x :: 0 <= x < |scopes| && x != i && Under(scopes, x, i) && scopes[x].parent.Some? && scopes[scopes[x].parent.value].canceled
      ==> scopes[x].canceled
  }

  predicate SameParents(a: seq<Scope>, b: seq<Scope>) {
    |a| == |b| && forall x :: 0 <= x < |a| ==> a[x].parent == b[x].parent
  }

  lemma {:induction false} UnderSame(a: seq<Scope>, b: seq<Scope>, x: nat, i: nat)
    requires SameParents(a, b)
    ensures Under(a, x, i) == Under(b, x, i)
    decreases x
  {
    if x < |a| && a[x].parent.Some? && a[x].parent.value < x {
      UnderSame(a, b, a[x].parent.value, i);
    }
  }

  lemma {:induction false} UnderLater(scopes: seq<Scope>, x: nat, i: nat)
    requires Under(scopes, x, i)
    ensures i <= x
    decreases x
  {
    if x != i { UnderLater(scopes, scopes[x].parent.value, i); }
  }

  lemma {:induction false} UnderTransitive(scopes: seq<Scope>, x: nat, j: nat, i: nat)
    requires Under(scopes, x, j) && Under(scopes, j, i)
    ensures Under(scopes, x, i)
    decreases x
  {
    if x != j { UnderTransitive(scopes, scopes[x].parent.value, j, i); }
  }

  /** What lies below a scope lies below exactly one of its children. */
  lemma {:induction false} UnderChild(scopes: seq<Scope>, x: nat, i: nat) returns (c: nat)
    requires Under(scopes, x, i) && x != i
    ensures i < c <= x < |scopes| && scopes[c].parent == Some(i) && Under(scopes, x, c)
    decreases x
  {
    var p := scopes[x].parent.value;
    if p == i {
      c := x;
    } else {
      c := UnderChild(scopes, p, i);
    }
    UnderLater(scopes, x, i);
  }

  lemma {:induction false} OneChild(scopes: seq<Scope>, x: nat, i: nat, c: nat, c': nat)
    requires Under(scopes, x, c) && Under(scopes, x, c') && c < |scopes| && c' < |scopes| && i < c && i < c'
    requires scopes[c].parent == Some(i) && scopes[c'].parent == Some(i)
    ensures c == c'
    decreases x
  {
    UnderLater(scopes, x, c);
    UnderLater(scopes, x, c');
    if x == c && c' < c {
      UnderLater(scopes, i, c');
    } else if x == c' && c < c' {
      UnderLater(scopes, i, c);
    } else if x != c && x != c' {
      OneChild(scopes, scopes[x].parent.value, i, c, c');
    }
  }

  /** Below a canceled scope everything is canceled. */
  lemma {:induction false} CanceledBelow(scopes: seq<Scope>, x: nat, i: nat)
    requires Rooted(scopes) && ClosedBelow(scopes, i) && Under(scopes, x, i) && i < |scopes| && scopes[i].canceled
    ensures scopes[x].canceled
    decreases x
  {
    if x != i {
      UnderLater(scopes, x, i);
      CanceledBelow(scopes, scopes[x].parent.value, i);
    }
  }

  // ------------------------------------------------------------------
  // Cancelling handles
  // ------------------------------------------------------------------

  /** A handle once canceled: flagged, out of its scope, and settled as canceled unless it had an outcome. */
  function Withdrawn(h: Handle): Handle {
    Handle(h.kind, h.name, h.eventId, h.closedByServer, true, None,
           if h.outcome.Some? then h.outcome else Some(Answer(NoPayload, Some(CanceledProblem(NoPayload)))))
  }

  /** The cancel has to wait: history is being applied, or the server knows nothing to cancel yet. */
  predicate Waits(h: Handle, applying: bool) { applying || h.eventId == 0 }

  predicate AllIn(ks: seq<nat>, hs: seq<Handle>) { forall x :: 0 <= x < |ks| ==> ks[x] < |hs| }

  /** The cancels that wait, in order. */
  function Waiting(hs: seq<Handle>, ks: seq<nat>, applying: bool): seq<nat>
    requires AllIn(ks, hs)
    decreases |ks|
  {
    if ks == [] then []
    else Waiting(hs, ks[..|ks| - 1], applying) + (if Waits(hs[ks[|ks| - 1]], applying) then [ks[|ks| - 1]] else [])
  }

  /** The command that cancels what the server knows under the handle's event. */
  function CancelOf(h: Handle): Outstanding {
    Outstanding(if h.kind.ActivityHandle? then RequestCancelActivity(h.eventId) else CancelTimer(h.eventId), None)
  }

  /** The cancel commands queued at once: one for each that neither waits nor is resolved already, in order. */
  function Queued(hs: seq<Handle>, ks: seq<nat>, applying: bool): seq<Outstanding>
    requires AllIn(ks, hs)
    decreases |ks|
  {
    if ks == [] then []
    else
      var h := hs[ks[|ks| - 1]];
      Queued(hs, ks[..|ks| - 1], applying) + (if !Waits(h, applying) && !h.closedByServer then [CancelOf(h)] else [])
  }

  ghost predicate Distinct(ks: seq<nat>) { forall x, y :: 0 <= x < y < |ks| ==> ks[x] != ks[y] }

  /** `d'` is `d` after the handles `ks` were canceled in that order, each once. */
  ghost predicate Cancels(d: Desk, d': Desk, ks: seq<nat>, applying: bool) {
    && AllIn(ks, d.handles) && Distinct(ks)
    && |d'.handles| == |d.handles|
    && (forall k :: 0 <= k < |d.handles| ==> d'.handles[k] == if k in ks then Withdrawn(d.handles[k]) else d.handles[k])
    && d'.pendingCancels == d.pendingCancels + Waiting(d.handles, ks, applying)
    && d'.outstanding == d.outstanding + (if d.closed then [] else Queued(d.handles, ks, applying))
    && d' == d.(scopes := d'.scopes, handles := d'.handles, pendingCancels := d'.pendingCancels, outstanding := d'.outstanding)
  }

  /** Everything that decides how a handle is canceled, except whether it already is. */
  predicate AlikeToCancel(a: seq<Handle>, b: seq<Handle>) {
    && |a| == |b|
    && forall k :: 0 <= k < |a| ==> a[k].kind == b[k].kind && a[k].eventId == b[k].eventId && a[k].closedByServer == b[k].closedByServer
  }

  lemma {:induction false} QueuesAlike(a: seq<Handle>, b: seq<Handle>, ks: seq<nat>, applying: bool)
    requires AlikeToCancel(a, b) && AllIn(ks, a)
    ensures Waiting(a, ks, applying) == Waiting(b, ks, applying) && Queued(a, ks, applying) == Queued(b, ks, applying)
    decreases |ks|
  {
    if ks != [] {
      QueuesAlike(a, b, ks[..|ks| - 1], applying);
    }
  }

  lemma {:induction false} QueuesConcat(hs: seq<Handle>, ks: seq<nat>, ls: seq<nat>, applying: bool)
    requires AllIn(ks, hs) && AllIn(ls, hs)
    ensures Waiting(hs, ks + ls, applying) == Waiting(hs, ks, applying) + Waiting(hs, ls, applying)
    ensures Queued(hs, ks + ls, applying) == Queued(hs, ks, applying) + Queued(hs, ls, applying)
    decreases |ls|
  {
    if ls == [] {
      assert ks + ls == ks;
    } else {
      assert (ks + ls)[..|ks + ls| - 1] == ks + ls[..|ls| - 1];
      QueuesConcat(hs, ks, ls[..|ls| - 1], applying);
    }
  }

  lemma CancelsThen(d: Desk, d1: Desk, d2: Desk, ks: seq<nat>, ls: seq<nat>, applying: bool)
    requires Cancels(d, d1, ks, applying) && Cancels(d1, d2, ls, applying)
    requires forall k :: k in ks ==> k !in ls
    ensures Cancels(d, d2, ks + ls, applying)
  {
    hide Queued, Waiting, Distinct;
    assert AlikeToCancel(d.handles, d1.handles);
    QueuesAlike(d.handles, d1.handles, ls, applying);
    QueuesConcat(d.handles, ks, ls, applying);
    DistinctConcat(ks, ls);
  }

  lemma DistinctConcat(ks: seq<nat>, ls: seq<nat>)
    requires Distinct(ks) && Distinct(ls) && forall k :: k in ks ==> k !in ls
    ensures Distinct(ks + ls)
  {
    forall x, y | 0 <= x < y < |ks + ls| ensures (ks + ls)[x] != (ks + ls)[y] {
      if x < |ks| <= y {
        assert ks[x] in ks && ls[y - |ks|] in ls;
      }
    }
  }

  lemma CancelsNone(d: Desk, scopes: seq<Scope>, applying: bool)
    ensures Cancels(d, d.(scopes := scopes), [], applying)
  {
  }

  lemma CancelsOne(d: Desk, k: nat, applying: bool)
    requires k < |d.handles| && !d.handles[k].canceled
    ensures Cancels(d, CancelHandle(d, k, applying), [k], applying)
    ensures CancelHandle(d, k, applying).scopes == d.scopes
  {
    assert [k][..0] == [];
    assert Waiting(d.handles, [k], applying) == [] + (if Waits(d.handles[k], applying) then [k] else []);
  }

  // ------------------------------------------------------------------
  // Cancelling a tree of scopes
  // ------------------------------------------------------------------

  /** A handle that would still hear of a cancellation is not canceled yet. */
  predicate Registered(hs: seq<Handle>) { forall k :: 0 <= k < |hs| && hs[k].scope.Some? ==> !hs[k].canceled }

  /** Scope `x` lies below a child of `i` created at `j` or later. */
  ghost predicate InBranch(scopes: seq<Scope>, x: nat, i: nat, j: nat) {
    exists c :: j <= c < |scopes| && scopes[c].parent == Some(i) && Under(scopes, x, c)
  }

  /** Exactly the subtree is canceled, and what was canceled stays so. */
  ghost predicate TreeMarked(a: seq<Scope>, b: seq<Scope>, i: nat) {
    |b| == |a| && forall x :: 0 <= x < |a| ==> b[x] == Scope(a[x].parent, a[x].canceled || Under(a, x, i))
  }

  ghost predicate BranchMarked(a: seq<Scope>, b: seq<Scope>, i: nat, j: nat) {
    |b| == |a| && forall x :: 0 <= x < |a| ==> b[x] == Scope(a[x].parent, a[x].canceled || InBranch(a, x, i, j))
  }

  /** The handle is registered with a live scope of the subtree. */
  ghost predicate InTree(d: Desk, k: nat, i: nat)
    requires k < |d.handles|
  {
    var s := d.handles[k].scope;
    s.Some? && s.value < |d.scopes| && Under(d.scopes, s.value, i) && !d.scopes[s.value].canceled
  }

  ghost predicate OnBranch(d: Desk, k: nat, i: nat, j: nat)
    requires k < |d.handles|
  {
    var s := d.handles[k].scope;
    s.Some? && s.value < |d.scopes| && InBranch(d.scopes, s.value, i, j) && !d.scopes[s.value].canceled
  }

  ghost predicate ListsTree(d: Desk, ks: seq<nat>, i: nat) {
    forall k: nat :: k in ks <==> k < |d.handles| && InTree(d, k, i)
  }

  ghost predicate ListsBranch(d: Desk, ks: seq<nat>, i: nat, j: nat) {
    forall k: nat :: k in ks <==> k < |d.handles| && OnBranch(d, k, i, j)
  }

  ghost predicate ListsScope(d: Desk, ks: seq<nat>, i: nat, from: nat) {
    forall k: nat :: k in ks <==> from <= k < |d.handles| && d.handles[k].scope == Some(i)
  }

  lemma CancelsRegistered(d: Desk, d': Desk, ks: seq<nat>, applying: bool)
    requires Registered(d.handles) && Cancels(d, d', ks, applying)
    ensures Registered(d'.handles)
  {
    hide Waiting, Queued;
  }

  /** The handles of one scope, in registration order. */
  lemma {:induction false} HandlesCanceled(d: Desk, i: nat, k: nat, applying: bool) returns (ks: seq<nat>)
    requires Registered(d.handles)
    ensures Cancels(d, CancelHandles(d, i, k, applying), ks, applying)
    ensures CancelHandles(d, i, k, applying).scopes == d.scopes
    ensures ListsScope(d, ks, i, k)
    ensures forall x, y :: 0 <= x < y < |ks| ==> ks[x] < ks[y]
    decreases |d.handles| - k
  {
    hide Cancels, CancelHandle;
    if k >= |d.handles| {
      ks := [];
      CancelsNone(d, d.scopes, applying);
    } else if d.handles[k].scope == Some(i) {
      CancelsOne(d, k, applying);
      var d1 := CancelHandle(d, k, applying);
      CancelsRegistered(d, d1, [k], applying);
      var rest := HandlesCanceled(d1, i, k + 1, applying);
      OthersKept(d, d1, k, applying);
      CancelsThen(d, d1, CancelHandles(d1, i, k + 1, applying), [k], rest, applying);
      ks := [k] + rest;
      assert forall y :: 0 <= y < |rest| ==> rest[y] in rest;
    } else {
      ks := HandlesCanceled(d, i, k + 1, applying);
    }
  }

  lemma OthersKept(d: Desk, d': Desk, k: nat, applying: bool)
    requires Cancels(d, d', [k], applying)
    ensures |d'.handles| == |d.handles| && forall l :: 0 <= l < |d.handles| && l != k ==> d'.handles[l] == d.handles[l]
  {
    hide Waiting, Queued;
  }

  // ----- in which order -----

  /** Two scopes on different branches, the first on the branch created first. */
  ghost predicate Branches(scopes: seq<Scope>, a: nat, b: nat, c: nat, c': nat) {
    && c < c' < |scopes| && scopes[c].parent.Some? && scopes[c].parent == scopes[c'].parent
    && Under(scopes, a, c) && Under(scopes, b, c')
  }

  /** A subtree comes before its root, and a branch before the branches created later. */
  ghost predicate Before(scopes: seq<Scope>, a: nat, b: nat) {
    (a != b && Under(scopes, a, b)) || exists c, c' :: Branches(scopes, a, b, c, c')
  }

  ghost predicate Precedes(scopes: seq<Scope>, hs: seq<Handle>, k: nat, l: nat)
    requires k < |hs| && l < |hs|
  {
    && hs[k].scope.Some? && hs[l].scope.Some?
    && ((hs[k].scope == hs[l].scope && k < l) || Before(scopes, hs[k].scope.value, hs[l].scope.value))
  }

  /** Handles of one scope in registration order, scopes in the order of `Before`. */
  ghost predicate InOrder(scopes: seq<Scope>, hs: seq<Handle>, ks: seq<nat>)
    requires AllIn(ks, hs)
  {
    forall x, y :: 0 <= x < y < |ks| ==> Precedes(scopes, hs, ks[x], ks[y])
  }

  lemma BeforeSame(a: seq<Scope>, b: seq<Scope>, x: nat, y: nat)
    requires SameParents(a, b) && Before(a, x, y)
    ensures Before(b, x, y)
  {
    if x != y && Under(a, x, y) {
      UnderSame(a, b, x, y);
    } else {
      var c, c' :| Branches(a, x, y, c, c');
      UnderSame(a, b, x, c);
      UnderSame(a, b, y, c');
      assert Branches(b, x, y, c, c');
    }
  }

  lemma OrderSame(a: seq<Scope>, b: seq<Scope>, hs: seq<Handle>, hs': seq<Handle>, ks: seq<nat>)
    requires SameParents(a, b) && |hs| == |hs'| && AllIn(ks, hs) && InOrder(a, hs, ks)
    requires forall k :: k in ks ==> hs'[k].scope == hs[k].scope
    ensures AllIn(ks, hs') && InOrder(b, hs', ks)
  {
    hide Before;
    forall x, y | 0 <= x < y < |ks| ensures Precedes(b, hs', ks[x], ks[y]) {
      assert Precedes(a, hs, ks[x], ks[y]);
      assert ks[x] in ks && ks[y] in ks;
      if Before(a, hs[ks[x]].scope.value, hs[ks[y]].scope.value) {
        BeforeSame(a, b, hs[ks[x]].scope.value, hs[ks[y]].scope.value);
      }
    }
  }

  lemma OrderConcat(scopes: seq<Scope>, hs: seq<Handle>, ks: seq<nat>, ls: seq<nat>)
    requires AllIn(ks, hs) && AllIn(ls, hs) && InOrder(scopes, hs, ks) && InOrder(scopes, hs, ls)
    requires forall k, l :: k in ks && l in ls ==> Precedes(scopes, hs, k, l)
    ensures AllIn(ks + ls, hs) && InOrder(scopes, hs, ks + ls)
  {
    hide Precedes;
    forall x, y | 0 <= x < y < |ks + ls| ensures Precedes(scopes, hs, (ks + ls)[x], (ks + ls)[y]) {
      if x < |ks| <= y {
        assert ks[x] in ks && ls[y - |ks|] in ls;
      } else if |ks| <= x {
        assert Precedes(scopes, hs, ls[x - |ks|], ls[y - |ks|]);
      } else {
        assert Precedes(scopes, hs, ks[x], ks[y]);
      }
    }
  }

  // ----- the subtree, then the scope's own handles -----

  /** What cancelling the tree of `i` does: its scopes, its handles in order, their commands, and nothing else. */
  ghost predicate CancelsTree(d: Desk, d': Desk, i: nat, ks: seq<nat>, applying: bool) {
    && Cancels(d, d', ks, applying)
    && TreeMarked(d.scopes, d'.scopes, i)
    && ListsTree(d, ks, i)
    && InOrder(d.scopes, d.handles, ks)
  }

  ghost predicate CancelsBranch(d: Desk, d': Desk, i: nat, j: nat, ks: seq<nat>, applying: bool) {
    && Cancels(d, d', ks, applying)
    && BranchMarked(d.scopes, d'.scopes, i, j)
    && ListsBranch(d, ks, i, j)
    && InOrder(d.scopes, d.handles, ks)
  }

  /** Every later branch of `i` is closed under cancellation. */
  ghost predicate BranchesClosed(scopes: seq<Scope>, i: nat, j: nat)
    requires Rooted(scopes)
  {
    forall c :: j <= c < |scopes| && scopes[c].parent == Some(i) ==> ClosedBelow(scopes, c)
  }

  lemma MarkedParents(a: seq<Scope>, b: seq<Scope>, i: nat)
    requires TreeMarked(a, b, i)
    ensures SameParents(a, b)
    ensures Rooted(a) ==> Rooted(b)
  {
  }

  /** Cancelling one branch leaves the later ones as they were. */
  lemma LaterUntouched(a: seq<Scope>, b: seq<Scope>, i: nat, j: nat, c: nat)
    requires Rooted(a) && Rooted(b) && i < j < c < |a| && a[j].parent == Some(i) && a[c].parent == Some(i) && TreeMarked(a, b, j)
    requires ClosedBelow(a, c)
    ensures ClosedBelow(b, c)
    ensures forall x: nat :: Under(a, x, c) ==> b[x] == a[x]
  {
    MarkedParents(a, b, j);
    forall x: nat | Under(a, x, c) ensures b[x] == a[x] {
      if Under(a, x, j) { OneChild(a, x, i, j, c); }
    }
    forall x | 0 <= x < |b| && x != c && Under(b, x, c) && b[x].parent.Some? && b[b[x].parent.value].canceled ensures b[x].canceled {
      UnderSame(a, b, x, c);
      assert Under(a, a[x].parent.value, c);
    }
  }

  lemma NoBranchLeft(scopes: seq<Scope>, i: nat, j: nat)
    requires j >= |scopes|
    ensures forall x :: !InBranch(scopes, x, i, j)
  {
  }

  /** A branch that is not there adds nothing. */
  lemma SkipBranch(scopes: seq<Scope>, i: nat, j: nat, x: nat)
    requires j < |scopes|
    ensures InBranch(scopes, x, i, j) <==> (scopes[j].parent == Some(i) && Under(scopes, x, j)) || InBranch(scopes, x, i, j + 1)
  {
    if InBranch(scopes, x, i, j) {
      var c :| j <= c < |scopes| && scopes[c].parent == Some(i) && Under(scopes, x, c);
      assert c == j || InBranch(scopes, x, i, j + 1);
    }
  }

  /** Below `i` is `i` itself and what lies on its branches. */
  lemma TreeIsBranches(scopes: seq<Scope>, i: nat, x: nat)
    requires i < |scopes|
    ensures Under(scopes, x, i) <==> x == i || InBranch(scopes, x, i, i + 1)
  {
    if Under(scopes, x, i) && x != i {
      var c := UnderChild(scopes, x, i);
    }
    if InBranch(scopes, x, i, i + 1) {
      var c :| i + 1 <= c < |scopes| && scopes[c].parent == Some(i) && Under(scopes, x, c);
      UnderTransitive(scopes, x, c, i);
    }
  }

  /** The first branch, then the later ones. */
  lemma BranchThen(d: Desk, d1: Desk, d2: Desk, i: nat, j: nat, ks: seq<nat>, ls: seq<nat>, applying: bool)
    requires Rooted(d.scopes) && i < j < |d.scopes| && d.scopes[j].parent == Some(i)
    requires CancelsTree(d, d1, j, ks, applying) && CancelsBranch(d1, d2, i, j + 1, ls, applying)
    ensures CancelsBranch(d, d2, i, j, ks + ls, applying)
  {
    hide Cancels, ListsTree, ListsBranch, InOrder, Rooted;
    MarkedParents(d.scopes, d1.scopes, j);
    BranchMarks(d.scopes, d1.scopes, d2.scopes, i, j);
    CancelsShape(d, d1, ks, applying);
    CancelsShape(d1, d2, ls, applying);
    BranchLists(d, d1, i, j, ks, ls);
    CancelsThen(d, d1, d2, ks, ls, applying);
    OrderSame(d1.scopes, d.scopes, d1.handles, d.handles, ls);
    forall k, l | k in ks && l in ls ensures Precedes(d.scopes, d.handles, k, l) {
      BranchPrecedes(d, d1, i, j, ks, ls, k, l);
    }
    OrderConcat(d.scopes, d.handles, ks, ls);
  }

  lemma CancelsShape(d: Desk, d': Desk, ks: seq<nat>, applying: bool)
    requires Cancels(d, d', ks, applying)
    ensures |d'.handles| == |d.handles| && AllIn(ks, d.handles)
    ensures forall k :: 0 <= k < |d.handles| && k !in ks ==> d'.handles[k] == d.handles[k]
    ensures forall k :: k in ks ==> k < |d.handles| && d'.handles[k].scope == None
  {
    hide Waiting, Queued;
  }

  lemma BranchMarks(a: seq<Scope>, b: seq<Scope>, c: seq<Scope>, i: nat, j: nat)
    requires i < j < |a| && a[j].parent == Some(i) && TreeMarked(a, b, j) && BranchMarked(b, c, i, j + 1)
    ensures BranchMarked(a, c, i, j)
  {
    hide InBranch;
    MarkedParents(a, b, j);
    forall x | 0 <= x < |a| ensures c[x] == Scope(a[x].parent, a[x].canceled || InBranch(a, x, i, j)) {
      SkipBranch(a, i, j, x);
      InBranchSame(a, b, x, i, j + 1);
    }
  }

  lemma InBranchSame(a: seq<Scope>, b: seq<Scope>, x: nat, i: nat, j: nat)
    requires SameParents(a, b)
    ensures InBranch(a, x, i, j) <==> InBranch(b, x, i, j)
  {
    forall c: nat ensures Under(a, x, c) == Under(b, x, c) {
      UnderSame(a, b, x, c);
    }
  }

  /** No scope lies on two branches. */
  lemma OneBranch(scopes: seq<Scope>, x: nat, i: nat, j: nat)
    requires i < j < |scopes| && scopes[j].parent == Some(i) && Under(scopes, x, j)
    ensures !InBranch(scopes, x, i, j + 1)
  {
    if InBranch(scopes, x, i, j + 1) {
      var c :| j + 1 <= c < |scopes| && scopes[c].parent == Some(i) && Under(scopes, x, c);
      OneChild(scopes, x, i, j, c);
    }
  }

  lemma BranchLists(d: Desk, d1: Desk, i: nat, j: nat, ks: seq<nat>, ls: seq<nat>)
    requires i < j < |d.scopes| && d.scopes[j].parent == Some(i)
    requires TreeMarked(d.scopes, d1.scopes, j) && ListsTree(d, ks, j) && ListsBranch(d1, ls, i, j + 1)
    requires |d1.handles| == |d.handles|
    requires forall k :: 0 <= k < |d.handles| && k !in ks ==> d1.handles[k] == d.handles[k]
    requires forall k :: k in ks ==> k < |d.handles| && d1.handles[k].scope == None
    ensures ListsBranch(d, ks + ls, i, j)
    ensures forall k :: k in ks ==> k !in ls
    ensures forall k :: k in ls ==> k < |d.handles| && d1.handles[k].scope == d.handles[k].scope
  {
    MarkedParents(d.scopes, d1.scopes, j);
    forall k: nat ensures k in ks + ls <==> k < |d.handles| && OnBranch(d, k, i, j) {
      BranchListsAt(d, d1, i, j, ks, ls, k);
    }
    forall k | k in ls ensures k < |d.handles| && d1.handles[k].scope == d.handles[k].scope {
      assert OnBranch(d1, k, i, j + 1);
    }
  }

  lemma BranchListsAt(d: Desk, d1: Desk, i: nat, j: nat, ks: seq<nat>, ls: seq<nat>, k: nat)
    requires i < j < |d.scopes| && d.scopes[j].parent == Some(i) && SameParents(d.scopes, d1.scopes)
    requires TreeMarked(d.scopes, d1.scopes, j) && ListsTree(d, ks, j) && ListsBranch(d1, ls, i, j + 1)
    requires |d1.handles| == |d.handles|
    requires k < |d.handles| && k !in ks ==> d1.handles[k] == d.handles[k]
    requires k in ks ==> k < |d.handles| && d1.handles[k].scope == None
    ensures k in ks + ls <==> k < |d.handles| && OnBranch(d, k, i, j)
  {
    hide InBranch;
    if k < |d.handles| && d.handles[k].scope.Some? {
      var s := d.handles[k].scope.value;
      assert k in ks <==> InTree(d, k, j);
      assert k in ls <==> OnBranch(d1, k, i, j + 1);
      SkipBranch(d.scopes, i, j, s);
      InBranchSame(d.scopes, d1.scopes, s, i, j + 1);
      if s < |d.scopes| && Under(d.scopes, s, j) { OneBranch(d.scopes, s, i, j); }
    } else if k < |d.handles| {
      assert !OnBranch(d, k, i, j) && !InTree(d, k, j) && !OnBranch(d1, k, i, j + 1);
    }
  }

  lemma BranchPrecedes(d: Desk, d1: Desk, i: nat, j: nat, ks: seq<nat>, ls: seq<nat>, k: nat, l: nat)
    requires i < j < |d.scopes| && d.scopes[j].parent == Some(i) && SameParents(d.scopes, d1.scopes)
    requires ListsTree(d, ks, j) && ListsBranch(d1, ls, i, j + 1) && |d1.handles| == |d.handles|
    requires k in ks && l in ls && k < |d.handles| && l < |d.handles| && d1.handles[l].scope == d.handles[l].scope
    ensures Precedes(d.scopes, d.handles, k, l)
  {
    assert InTree(d, k, j) && OnBranch(d1, l, i, j + 1);
    var a, b := d.handles[k].scope.value, d.handles[l].scope.value;
    InBranchSame(d.scopes, d1.scopes, b, i, j + 1);
    var c :| j + 1 <= c < |d.scopes| && d.scopes[c].parent == Some(i) && Under(d.scopes, b, c);
    assert Branches(d.scopes, a, b, j, c);
  }

  lemma CancelsRescoped(d: Desk, d1: Desk, d2: Desk, ks: seq<nat>, applying: bool)
    requires d1 == d.(scopes := d1.scopes) && Cancels(d1, d2, ks, applying)
    ensures Cancels(d, d2, ks, applying)
  {
    hide Waiting, Queued;
  }

  lemma TreeMarks(a: seq<Scope>, b: seq<Scope>, c: seq<Scope>, i: nat)
    requires i < |a| && b == a[i := a[i].(canceled := true)] && BranchMarked(b, c, i, i + 1)
    ensures TreeMarked(a, c, i)
  {
    hide InBranch;
    forall x | 0 <= x < |a| ensures c[x] == Scope(a[x].parent, a[x].canceled || Under(a, x, i)) {
      TreeIsBranches(a, i, x);
      InBranchSame(a, b, x, i, i + 1);
    }
  }

  lemma TreeLists(d: Desk, d1: Desk, d2: Desk, i: nat, ks: seq<nat>, ls: seq<nat>)
    requires i < |d.scopes| && !d.scopes[i].canceled && d1 == d.(scopes := d.scopes[i := d.scopes[i].(canceled := true)])
    requires ListsBranch(d1, ks, i, i + 1) && ListsScope(d2, ls, i, 0) && |d2.handles| == |d.handles|
    requires forall k :: 0 <= k < |d.handles| && k !in ks ==> d2.handles[k] == d.handles[k]
    requires forall k :: k in ks ==> k < |d.handles| && d2.handles[k].scope == None
    ensures ListsTree(d, ks + ls, i)
    ensures forall k :: k in ks ==> k !in ls
    ensures forall k :: k in ls ==> k < |d.handles| && d.handles[k].scope == Some(i)
    ensures forall k :: k in ks ==> k < |d.handles| && d.handles[k].scope.Some? && d.handles[k].scope.value != i
                                    && Under(d.scopes, d.handles[k].scope.value, i)
  {
    hide InBranch;
    forall k: nat
      ensures k in ks + ls <==> k < |d.handles| && InTree(d, k, i)
      ensures k in ks ==> k < |d.handles| && d.handles[k].scope.Some? && d.handles[k].scope.value != i
                          && Under(d.scopes, d.handles[k].scope.value, i)
    {
      if k < |d.handles| && d.handles[k].scope.Some? {
        var s := d.handles[k].scope.value;
        assert k in ks <==> OnBranch(d1, k, i, i + 1);
        TreeIsBranches(d.scopes, i, s);
        InBranchSame(d.scopes, d1.scopes, s, i, i + 1);
        SelfNotOnBranch(d.scopes, i, i + 1);
      } else if k < |d.handles| {
        assert !OnBranch(d1, k, i, i + 1);
      }
    }
  }

  lemma SelfNotOnBranch(scopes: seq<Scope>, i: nat, j: nat)
    requires i < j
    ensures !InBranch(scopes, i, i, j)
  {
    if InBranch(scopes, i, i, j) {
      var c :| j <= c < |scopes| && scopes[c].parent == Some(i) && Under(scopes, i, c);
      UnderLater(scopes, i, c);
    }
  }

  lemma ScopeInOrder(scopes: seq<Scope>, hs: seq<Handle>, ls: seq<nat>, i: nat)
    requires forall x, y :: 0 <= x < y < |ls| ==> ls[x] < ls[y]
    requires forall l :: l in ls ==> l < |hs| && hs[l].scope == Some(i)
    ensures AllIn(ls, hs) && InOrder(scopes, hs, ls)
  {
    forall x | 0 <= x < |ls| ensures ls[x] < |hs| && hs[ls[x]].scope == Some(i) {
      assert ls[x] in ls;
    }
  }

  /** The branches, then the scope's own handles. */
  lemma TreeThen(d: Desk, d1: Desk, d2: Desk, d3: Desk, i: nat, ks: seq<nat>, ls: seq<nat>, applying: bool)
    requires i < |d.scopes| && !d.scopes[i].canceled && d1 == d.(scopes := d.scopes[i := d.scopes[i].(canceled := true)])
    requires CancelsBranch(d1, d2, i, i + 1, ks, applying)
    requires Cancels(d2, d3, ls, applying) && d3.scopes == d2.scopes && ListsScope(d2, ls, i, 0)
    requires forall x, y :: 0 <= x < y < |ls| ==> ls[x] < ls[y]
    ensures CancelsTree(d, d3, i, ks + ls, applying)
  {
    hide Cancels, ListsTree, ListsBranch, ListsScope, InOrder, BranchMarked, TreeMarked;
    CancelsShape(d1, d2, ks, applying);
    TreeMarks(d.scopes, d1.scopes, d2.scopes, i);
    TreeLists(d, d1, d2, i, ks, ls);
    CancelsRescoped(d, d1, d2, ks, applying);
    CancelsThen(d, d2, d3, ks, ls, applying);
    OrderSame(d1.scopes, d.scopes, d1.handles, d.handles, ks);
    ScopeInOrder(d.scopes, d.handles, ls, i);
    forall k, l | k in ks && l in ls ensures Precedes(d.scopes, d.handles, k, l) {
    }
    OrderConcat(d.scopes, d.handles, ks, ls);
  }

  lemma NoBranches(d: Desk, i: nat, j: nat, applying: bool)
    requires j >= |d.scopes|
    ensures CancelsBranch(d, d, i, j, [], applying)
  {
    hide InBranch;
    NoBranchLeft(d.scopes, i, j);
    CancelsNone(d, d.scopes, applying);
  }

  lemma NotABranch(d: Desk, d': Desk, i: nat, j: nat, ks: seq<nat>, applying: bool)
    requires j < |d.scopes| && d.scopes[j].parent != Some(i) && CancelsBranch(d, d', i, j + 1, ks, applying)
    ensures CancelsBranch(d, d', i, j, ks, applying)
  {
    hide InBranch, Cancels, InOrder;
    forall x: nat ensures InBranch(d.scopes, x, i, j) <==> InBranch(d.scopes, x, i, j + 1) {
      SkipBranch(d.scopes, i, j, x);
    }
    forall k: nat | k < |d.handles| ensures OnBranch(d, k, i, j) <==> OnBranch(d, k, i, j + 1) {
    }
  }

  /** A scope that is canceled already, or not there, has nothing left to cancel below it. */
  lemma NothingBelow(d: Desk, i: nat, applying: bool)
    requires Rooted(d.scopes) && ClosedBelow(d.scopes, i) && (i >= |d.scopes| || d.scopes[i].canceled)
    ensures CancelsTree(d, d, i, [], applying)
  {
    hide Cancels;
    CancelsNone(d, d.scopes, applying);
    forall x: nat | Under(d.scopes, x, i) ensures d.scopes[x].canceled {
      UnderLater(d.scopes, x, i);
      CanceledBelow(d.scopes, x, i);
    }
    assert forall k: nat :: k < |d.handles| ==> !InTree(d, k, i);
  }

  lemma MarkedBranchesClosed(scopes: seq<Scope>, i: nat)
    requires i < |scopes| && Rooted(scopes) && ClosedBelow(scopes, i)
    ensures
      var marked := scopes[i := scopes[i].(canceled := true)];
      Rooted(marked) && BranchesClosed(marked, i, i + 1)
  {
    var marked := scopes[i := scopes[i].(canceled := true)];
    assert Rooted(marked);
    forall c, x | i + 1 <= c < |marked| && marked[c].parent == Some(i) && 0 <= x < |marked| && x != c && Under(marked, x, c)
                  && marked[x].parent.Some? && marked[marked[x].parent.value].canceled
      ensures marked[x].canceled
    {
      UnderSame(scopes, marked, x, c);
      UnderTransitive(scopes, x, c, i);
      UnderLater(scopes, x, c);
      UnderLater(scopes, scopes[x].parent.value, c);
    }
  }

  lemma LaterClosed(a: seq<Scope>, b: seq<Scope>, i: nat, j: nat)
    requires Rooted(a) && i < j < |a| && a[j].parent == Some(i) && TreeMarked(a, b, j) && BranchesClosed(a, i, j)
    ensures Rooted(b) && BranchesClosed(b, i, j + 1)
  {
    hide ClosedBelow;
    MarkedParents(a, b, j);
    forall c | j + 1 <= c < |b| && b[c].parent == Some(i) ensures ClosedBelow(b, c) {
      LaterUntouched(a, b, i, j, c);
    }
  }

  lemma {:induction false} BranchesCanceled(d: Desk, i: nat, j: nat, applying: bool) returns (ks: seq<nat>)
    requires i < j && Rooted(d.scopes) && BranchesClosed(d.scopes, i, j) && Registered(d.handles)
    ensures CancelsBranch(d, CancelChildren(d, i, j, applying), i, j, ks, applying)
    ensures Registered(CancelChildren(d, i, j, applying).handles)
    decreases if i < |d.scopes| then |d.scopes| - i else 0, 0, if j < |d.scopes| then |d.scopes| - j else 0
  {
    hide CancelsBranch, CancelsTree, ClosedBelow, CancelTree, TreeMarked, Registered;
    if j >= |d.scopes| {
      ks := [];
      NoBranches(d, i, j, applying);
    } else if d.scopes[j].parent == Some(i) {
      var d1 := CancelTree(d, j, applying);
      var first := TreeCanceled(d, j, applying);
      assert TreeMarked(d.scopes, d1.scopes, j) by { TreeParts(d, d1, j, first, applying); }
      LaterClosed(d.scopes, d1.scopes, i, j);
      var rest := BranchesCanceled(d1, i, j + 1, applying);
      BranchThen(d, d1, CancelChildren(d1, i, j + 1, applying), i, j, first, rest, applying);
      ks := first + rest;
    } else {
      ks := BranchesCanceled(d, i, j + 1, applying);
      NotABranch(d, CancelChildren(d, i, j + 1, applying), i, j, ks, applying);
    }
  }

  lemma TreeParts(d: Desk, d': Desk, i: nat, ks: seq<nat>, applying: bool)
    requires CancelsTree(d, d', i, ks, applying)
    ensures Cancels(d, d', ks, applying) && TreeMarked(d.scopes, d'.scopes, i)
  {
  }

  lemma BranchParts(d: Desk, d': Desk, i: nat, j: nat, ks: seq<nat>, applying: bool)
    requires CancelsBranch(d, d', i, j, ks, applying)
    ensures Cancels(d, d', ks, applying)
  {
  }

  lemma {:induction false} TreeCanceled(d: Desk, i: nat, applying: bool) returns (ks: seq<nat>)
    requires Rooted(d.scopes) && ClosedBelow(d.scopes, i) && Registered(d.handles)
    ensures CancelsTree(d, CancelTree(d, i, applying), i, ks, applying)
    ensures Registered(CancelTree(d, i, applying).handles)
    decreases if i < |d.scopes| then |d.scopes| - i else 0, 1, 0
  {
    hide CancelsBranch, CancelsTree, ClosedBelow, BranchesClosed, CancelChildren, CancelHandles, Registered, Cancels;
    if i >= |d.scopes| || d.scopes[i].canceled {
      ks := [];
      NothingBelow(d, i, applying);
    } else {
      var d1 := d.(scopes := d.scopes[i := d.scopes[i].(canceled := true)]);
      MarkedBranchesClosed(d.scopes, i);
      var below := BranchesCanceled(d1, i, i + 1, applying);
      var d2 := CancelChildren(d1, i, i + 1, applying);
      var own := HandlesCanceled(d2, i, 0, applying);
      var d3 := CancelHandles(d2, i, 0, applying);
      TreeThen(d, d1, d2, d3, i, below, own, applying);
      CancelsRegistered(d2, d3, own, applying);
      ks := below + own;
    }
  }

  // ------------------------------------------------------------------
  // What every environment keeps
  // ------------------------------------------------------------------

  /** Below a canceled scope everything is canceled, and only live handles of live scopes are still registered. */
  ghost predicate Tended(d: Desk) {
    && Rooted(d.scopes)
    && (forall x :: 0 <= x < |d.scopes| && d.scopes[x].parent.Some? && d.scopes[d.scopes[x].parent.value].canceled
          ==> d.scopes[x].canceled)
    && (forall k :: 0 <= k < |d.handles| && d.handles[k].scope.Some? ==> Live(d, d.handles[k]))
    && AllIn(d.pendingCancels, d.handles)
  }

  predicate Live(d: Desk, h: Handle)
    requires h.scope.Some?
  {
    !h.canceled && h.scope.value < |d.scopes| && !d.scopes[h.scope.value].canceled
  }

  /** Cancelling scope `i` cancels exactly its subtree and exactly the handles registered in it: each is flagged, leaves its
      scope, keeps the outcome it had or settles as canceled, and has its cancel raised once, in subtree-first order; it waits
      while history is applied or the server has no event for it, is queued otherwise, and is left out if the server has
      resolved the thing already or nothing is queued any more. Nothing else changes. */
  lemma CancelTreeCancels(d: Desk, i: nat, applying: bool)
    requires Tended(d)
    ensures
      var d' := CancelTree(d, i, applying);
      && Tended(d')
      && |d'.scopes| == |d.scopes| && |d'.handles| == |d.handles|
      && (forall x :: 0 <= x < |d.scopes| ==> d'.scopes[x] == Scope(d.scopes[x].parent, d.scopes[x].canceled || Under(d.scopes, x, i)))
      && (forall k :: 0 <= k < |d.handles| ==>
            d'.handles[k] == if d.handles[k].scope.Some? && Under(d.scopes, d.handles[k].scope.value, i)
                             then Withdrawn(d.handles[k]) else d.handles[k])
      && exists ks :: CancelsTree(d, d', i, ks, applying)
  {
    hide CancelsTree, CancelTree, Queued, Waiting;
    var d' := CancelTree(d, i, applying);
    var ks := TreeCanceled(d, i, applying);
    TreeHandles(d, d', i, ks, applying);
    TreeTended(d, d', i);
  }

  lemma TreeHandles(d: Desk, d': Desk, i: nat, ks: seq<nat>, applying: bool)
    requires Tended(d) && CancelsTree(d, d', i, ks, applying)
    ensures |d'.handles| == |d.handles| && TreeMarked(d.scopes, d'.scopes, i) && AllIn(d'.pendingCancels, d'.handles)
    ensures forall k :: 0 <= k < |d.handles| ==>
      d'.handles[k] == if d.handles[k].scope.Some? && Under(d.scopes, d.handles[k].scope.value, i)
                       then Withdrawn(d.handles[k]) else d.handles[k]
  {
    hide Queued, Waiting, InOrder;
    WaitingIn(d.handles, ks, applying);
    forall k: nat | k < |d.handles| ensures k in ks <==> d.handles[k].scope.Some? && Under(d.scopes, d.handles[k].scope.value, i) {
      assert k in ks <==> InTree(d, k, i);
    }
  }

  lemma {:induction false} WaitingIn(hs: seq<Handle>, ks: seq<nat>, applying: bool)
    requires AllIn(ks, hs)
    ensures AllIn(Waiting(hs, ks, applying), hs)
    decreases |ks|
  {
    if ks != [] {
      WaitingIn(hs, ks[..|ks| - 1], applying);
    }
  }

  lemma TreeTended(d: Desk, d': Desk, i: nat)
    requires Tended(d) && TreeMarked(d.scopes, d'.scopes, i) && |d'.handles| == |d.handles| && AllIn(d'.pendingCancels, d'.handles)
    requires forall k :: 0 <= k < |d.handles| ==>
      d'.handles[k] == if d.handles[k].scope.Some? && Under(d.scopes, d.handles[k].scope.value, i)
                       then Withdrawn(d.handles[k]) else d.handles[k]
    ensures Tended(d')
  {
    MarkedParents(d.scopes, d'.scopes, i);
  }

  /** Scopes alike, and a handle at most leaves its scope. */
  predicate KeepsScopes(d: Desk, d': Desk) {
    && d'.scopes == d.scopes && |d'.handles| >= |d.handles|
    && (forall k :: 0 <= k < |d.handles| && d'.handles[k].scope.Some?
          ==> d'.handles[k].scope == d.handles[k].scope && d'.handles[k].canceled == d.handles[k].canceled)
    && (forall k :: |d.handles| <= k < |d'.handles| && d'.handles[k].scope.Some? ==> Live(d', d'.handles[k]))
    && (d'.pendingCancels == d.pendingCancels || d'.pendingCancels == [])
  }

  lemma TendedKept(d: Desk, d': Desk)
    requires Tended(d) && KeepsScopes(d, d')
    ensures Tended(d')
  {
  }

  lemma OpenTended(d: Desk, p: nat)
    requires Tended(d)
    ensures Tended(DoOpenScope(d, p))
  {
  }

  /** A new scope hears of every cancellation its parent hears of: it lies below whatever the parent lies below, and is canceled
      from the start if the parent is. One without a parent on the desk hears of nothing. */
  lemma OpenScopeListens(e: Env, p: nat, i: nat)
    requires Tended(e.desk)
    ensures
      var a := DoPlain(e, OpenScope(p));
      var x := |e.desk.scopes|;
      var scopes := a.env.desk.scopes;
      && a.reply == Scoped(x) && |scopes| == x + 1 && scopes[..x] == e.desk.scopes
      && a.env == e.(desk := e.desk.(scopes := scopes))
      && (scopes[x].canceled <==> p < x && e.desk.scopes[p].canceled)
      && (p < x && !e.desk.scopes[p].canceled && i < x ==> (Under(scopes, x, i) <==> Under(e.desk.scopes, p, i)))
      && (p >= x ==> !scopes[x].canceled && (Under(scopes, x, i) <==> i == x))
  {
    var scopes := DoPlain(e, OpenScope(p)).env.desk.scopes;
    assert scopes[..|e.desk.scopes|] == e.desk.scopes;
    UnderPrefix(e.desk.scopes, scopes, p, i);
  }

  lemma {:induction false} UnderPrefix(a: seq<Scope>, b: seq<Scope>, x: nat, i: nat)
    requires a <= b
    ensures x < |a| ==> (Under(a, x, i) <==> Under(b, x, i))
    decreases x
  {
    if x < |a| && a[x].parent.Some? && a[x].parent.value < x {
      UnderPrefix(a, b, a[x].parent.value, i);
    }
  }

  lemma PlainTended(e: Env, call: Call)
    requires Tended(e.desk) && !MarkerCall(call)
    ensures Tended(DoPlain(e, call).env.desk)
  {
    hide Tended, CancelTree, DoOpenScope, DoExecuteActivity, DoNewTimer;
    match call
    case OpenScope(p) => OpenTended(e.desk, p);
    case CancelScope(i) => CancelTreeCancels(e.desk, i, false);
    case ExecuteActivity(scope, aid, o) => CreateTended(e, scope, aid, o, 0);
    case NewTimer(scope, d) => CreateTended(e, scope, "", NO_OPTIONS, d);
    case _ =>
  }

  const NO_OPTIONS := ActivityOptions("", "", NoPayload, None, 0, 0, 0, 0)

  lemma CreateTended(e: Env, scope: nat, aid: string, o: ActivityOptions, d: Duration)
    requires Tended(e.desk)
    ensures Tended(DoExecuteActivity(e, scope, aid, o).env.desk) && Tended(DoNewTimer(e, scope, d).env.desk)
  {
    hide Tended, ActivityName, TimerName, Bounded;
    TendedKept(e.desk, DoExecuteActivity(e, scope, aid, o).env.desk);
    TendedKept(e.desk, DoNewTimer(e, scope, d).env.desk);
  }

  lemma PerformTended(e: Env, call: Call, m: Markers, r: bool, world: World)
    requires Tended(e.desk) && Perform(e, call, m, r, world).Ok?
    ensures Tended(Perform(e, call, m, r, world).value.env.desk)
  {
    hide Tended, DoPlain, DoOnce, DoMutable, DoGetVersion;
    if MarkerCall(call) {
      MarkerScopes(e, call, m, r, world);
      TendedKept(e.desk, Perform(e, call, m, r, world).value.env.desk);
    } else {
      PlainTended(e, call);
    }
  }

  lemma MarkerScopes(e: Env, call: Call, m: Markers, r: bool, world: World)
    requires MarkerCall(call) && Perform(e, call, m, r, world).Ok?
    ensures KeepsScopes(e.desk, Perform(e, call, m, r, world).value.env.desk)
  {
    hide SideKey, LocalKey, MutableKey, VersionKey;
  }

  // ----- deferred cancels -----

  lemma {:induction false} EmitAllQueues(d: Desk, ks: seq<nat>)
    requires AllIn(ks, d.handles)
    ensures EmitAll(d, ks) == d.(outstanding := d.outstanding + (if d.closed then [] else Queued(d.handles, ks, false)))
    decreases |ks|
  {
    if ks != [] {
      hide Emit, Queued;
      OneQueued(d, ks[0]);
      EmitAllQueues(Emit(d, ks[0]), ks[1..]);
      assert ks == [ks[0]] + ks[1..];
      QueuesConcat(d.handles, [ks[0]], ks[1..], false);
    }
  }

  lemma OneQueued(d: Desk, k: nat)
    requires k < |d.handles|
    ensures Emit(d, k) == d.(outstanding := d.outstanding + (if d.closed then [] else Queued(d.handles, [k], false)))
  {
    assert [k][..0] == [];
    assert Queued(d.handles, [], false) == [];
  }

  /** Every deferred cancel is raised once, in the order it was deferred, unless the server has resolved the thing, knows
      nothing of it, or nothing is queued any more. */
  lemma FlushQueues(d: Desk)
    requires Tended(d)
    ensures
      FlushCancels(d) == d.(pendingCancels := [],
                            outstanding := d.outstanding + (if d.closed then [] else Queued(d.handles, d.pendingCancels, false)))
    ensures Tended(FlushCancels(d))
  {
    hide Queued, EmitAll;
    EmitAllQueues(d.(pendingCancels := []), d.pendingCancels);
    TendedKept(d, FlushCancels(d));
  }

  // ----- events -----

  lemma MatchTended(d: Desk, ev: Event)
    requires Tended(d) && MatchCommand(d, ev).Ok?
    ensures Tended(MatchCommand(d, ev).value)
  {
    hide Tended, Matches;
    TendedKept(d, MatchCommand(d, ev).value);
  }

  lemma CloseTended(d: Desk, known: map<int, nat>, id: int, a: Option<Answer>)
    requires Tended(d)
    ensures Tended(CloseHandle(d, known, id, a))
  {
    hide Tended;
    TendedKept(d, CloseHandle(d, known, id, a));
  }

  lemma EventTended(e: Env, ev: Event)
    requires Tended(e.desk) && ApplyEvent(e, ev).Ok?
    ensures Tended(ApplyEvent(e, ev).value.desk)
  {
    hide Tended, MatchCommand, CloseHandle, CancelTree;
    var a := ev.attrs;
    if a.TimerFired? {
      CloseTended(e.desk, e.desk.timers, a.startedId, Some(Answer(NoPayload, None)));
    } else if a.TimerCanceled? {
      MatchTended(e.desk, ev);
      var d1 := MatchCommand(e.desk, ev).value;
      CloseTended(d1, d1.timers, a.startedId, None);
    } else if a.CancelRequested? {
      CancelTreeCancels(e.desk, 0, true);
    } else if a.ActivityCompleted? || a.ActivityFailed? || a.ActivityTimedOut? || a.ActivityCanceled? {
      CloseTended(e.desk, e.desk.activities, a.scheduledId, ActivityAnswer(a));
    } else if CommandDerived(a) {
      MatchTended(e.desk, ev);
    }
  }

  // ----- runs -----

  /** The environment and the code after `j` answered calls. */
  function Asked<P>(w: Workflow<P>, e: Env, p: P, m: Markers, replaying: bool, world: World, j: nat): Result<(Env, P)>
    decreases j
  {
    if j == 0 then Ok((e, p))
    else
      match w.next(p)
      case Ask(call) =>
        (match Perform(e, call, m, replaying, world)
         case Ok(a) => Asked(w, a.env, w.resume(p, a.reply), m, replaying, world, j - 1)
         case Err(x) => Err(x))
      case _ => Err(ErrPanic)
  }

  lemma {:induction false} AskedTended<P>(w: Workflow<P>, e: Env, p: P, m: Markers, r: bool, world: World, j: nat)
    requires Tended(e.desk) && Asked(w, e, p, m, r, world, j).Ok?
    ensures Tended(Asked(w, e, p, m, r, world, j).value.0.desk)
    decreases j
  {
    hide Tended, Perform;
    if j > 0 {
      var call := w.next(p).call;
      PerformTended(e, call, m, r, world);
      var a := Perform(e, call, m, r, world).value;
      AskedTended(w, a.env, w.resume(p, a.reply), m, r, world, j - 1);
    }
  }

  lemma {:induction false} StepsTended<P>(w: Workflow<P>, e: Env, p: P, m: Markers, r: bool, world: World, fuel: nat)
    requires Tended(e.desk) && Steps(w, e, p, m, r, world, fuel).Ok?
    ensures Tended(Steps(w, e, p, m, r, world, fuel).value.env.desk)
    decreases fuel
  {
    hide Tended, Perform;
    match w.next(p)
    case Return(ret) => TendedKept(e.desk, Complete(e.desk, ret));
    case Ask(call) =>
      PerformTended(e, call, m, r, world);
      var a := Perform(e, call, m, r, world).value;
      StepsTended(w, a.env, w.resume(p, a.reply), m, r, world, fuel - 1);
    case _ =>
  }

  lemma RunTended<P>(w: Workflow<P>, c: Core<P>, m: Markers, r: bool, world: World, fuel: nat)
    requires Tended(c.env.desk) && RunCode(w, c, m, r, world, fuel).Ok?
    ensures Tended(RunCode(w, c, m, r, world, fuel).value.env.desk)
  {
    hide Tended, Steps, FlushCancels;
    FlushQueues(c.env.desk);
    var e := c.env.(desk := FlushCancels(c.env.desk));
    if !e.desk.closed {
      StepsTended(w, e, if c.code.Some? then c.code.value else w.begin(e.start, e.startedAt), m, r, world, fuel);
    }
  }

  lemma {:induction false} RangeTended<P>(w: Workflow<P>, c: Core<P>, m: Markers, h: seq<Event>, i: nat, n: nat, world: World, fuel: nat)
    requires i <= n <= |h| && Tended(c.env.desk) && ReplayRange(w, c, m, h, i, n, world, fuel).Ok?
    ensures Tended(ReplayRange(w, c, m, h, i, n, world, fuel).value.env.desk)
    decreases n - i
  {
    hide Tended, RunCode, ApplyEvent;
    if i < n {
      RangeTended(w, c, m, h, i, n - 1, world, fuel);
      var c1 := ReplayRange(w, c, m, h, i, n - 1, world, fuel).value;
      if h[n - 1].attrs.TaskStarted? {
        if CompletedNext(h, n - 1) { RunTended(w, c1.(env := Advance(c1.env, h[n - 1].time)), m, true, world, fuel); }
      } else {
        EventTended(c1.env, h[n - 1]);
      }
    }
  }

  lemma FreshTended<P>()
    ensures Tended(Fresh<P>().env.desk)
  {
  }

  /** The environment in which code runs after `n` events of a history, from a cold start. */
  function Resumed<P>(w: Workflow<P>, m: Markers, h: seq<Event>, n: nat, world: World, fuel: nat): Result<Core<P>>
    requires n <= |h|
  {
    match ReplayRange(w, Fresh<P>(), m, h, 0, n, world, fuel)
    case Ok(c) => Ok(c.(env := c.env.(desk := FlushCancels(c.env.desk))))
    case Err(x) => Err(x)
  }

  /** Wherever workflow code stands, after any history and any number of calls, cancelling a scope means just that: the subtree,
      all of it and nothing else. */
  lemma CancelAlwaysReaches<P>(w: Workflow<P>, m: Markers, h: seq<Event>, n: nat, fuel: nat, p: P, m': Markers, r: bool, world: World,
                               j: nat, i: nat, applying: bool)
    requires n <= |h| && Resumed(w, m, h, n, world, fuel).Ok?
    requires Asked(w, Resumed(w, m, h, n, world, fuel).value.env, p, m', r, world, j).Ok?
    ensures
      var d := Asked(w, Resumed(w, m, h, n, world, fuel).value.env, p, m', r, world, j).value.0.desk;
      Tended(d) && exists ks :: CancelsTree(d, CancelTree(d, i, applying), i, ks, applying)
  {
    hide Tended, CancelsTree, CancelTree, ReplayRange, FlushCancels, Asked;
    FreshTended<P>();
    RangeTended(w, Fresh<P>(), m, h, 0, n, world, fuel);
    FlushQueues(ReplayRange(w, Fresh<P>(), m, h, 0, n, world, fuel).value.env.desk);
    AskedTended(w, Resumed(w, m, h, n, world, fuel).value.env, p, m', r, world, j);
    CancelTreeCancels(Asked(w, Resumed(w, m, h, n, world, fuel).value.env, p, m', r, world, j).value.0.desk, i, applying);
  }
}
