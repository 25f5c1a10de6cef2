/**
 The deletion cascade: in every fair history a deleted suite goes away with all its runs, Tests and Pods.

 A history is a sequence of growing logs, so anything may happen between two of its worlds: users, the
 kubelet, other controllers, reconciliations that fail half-way. It is fair if every object's reconciler is
 run without failure again and again.
 */
module Cascades {
  import opened Prelude
  import opened Store
  import opened Invariants
  import opened Histories
  import opened Clusters
  import opened Helpers
  import TestControllers
  import TestRunControllers
  import TestSuiteControllers

  type History = nat -> seq<Event>

  ghost predicate Growing(h: History) {
    && (forall i: nat :: Legal(h(i)))
    && (forall i: nat, j: nat :: i <= j ==> h(i) <= h(j))
  }

  ghost function At(h: History, i: nat): World { if Legal(h(i)) then After(h(i)) else EMPTY }

  /** What a reconciliation without failures does to a deleted object, as the reconcilers' contracts have it. */
  ghost predicate Reconciled(w: World, w': World, k: Key) {
    Deleting(w, k) ==>
      match k.kind
      case SuiteKind => TestSuiteControllers.Dismantled(w, w', k)
      case RunKind => TestRunControllers.Dismantled(w, w', k)
      case TestKind => TestControllers.Dismantled(w, w', k)
      case PodKind => true
  }

  /** Running an object's reconciler against a server that does not fail reconciles it in this sense. */
  method ReconcileOnce(api: Cluster, k: Key)
    requires api.Valid() && api.reliable
    requires k in api.w.suites ==> api.w.suites[k].account.awaiting == None
    modifies api
    ensures api.Valid() && old(api.log) <= api.log
    ensures Reconciled(old(api.w), api.w, k)
  {
    match k.kind {
      case SuiteKind =>
        var r := new TestSuiteControllers.TestSuiteReconciler(api);
        var out := r.Reconcile(k);
      case RunKind =>
        var r := new TestRunControllers.TestRunReconciler(api);
        var out := r.Reconcile(k);
      case TestKind =>
        var r := new TestControllers.TestReconciler(api);
        var ok := r.Reconcile(k);
      case PodKind =>
    }
  }

  ghost predicate ReconciledAt(h: History, i: nat, k: Key) { Reconciled(At(h, i), At(h, i + 1), k) }

  ghost predicate ReconciledSince(h: History, i: nat, k: Key) { exists j: nat :: i <= j && ReconciledAt(h, j, k) }

  ghost predicate Fair(h: History) { forall i: nat, k: Key :: ReconciledSince(h, i, k) }

  // ----- the tree under a suite

  /** `k` is the suite, one of its runs, a Test of one of those, or a Pod of one of those. */
  ghost predicate InTree(w: World, s: Key, k: Key) {
    k == s || IsRun(w, s, k) || IsTest(w, s, k) || IsPod(w, s, k)
  }

  ghost predicate IsRun(w: World, s: Key, r: Key) { ChildOf(w, r, s) }

  ghost predicate IsTest(w: World, s: Key, t: Key) { exists r :: ChildOf(w, t, r) && IsRun(w, s, r) }

  ghost predicate IsPod(w: World, s: Key, p: Key) { exists t :: ChildOf(w, p, t) && IsTest(w, s, t) }

  ghost predicate NothingForeign(w: World, k: Key) {
    k in w.meta ==> forall g :: g in w.meta[k].finalizers ==> !g.Foreign?
  }

  /** Nothing in the tree carries a finalizer of some other program. */
  ghost predicate OwnFinalizersOnly(w: World, s: Key) { forall k :: InTree(w, s, k) ==> NothingForeign(w, k) }

  // ----- eventually

  /** From `n` on, each of these keys satisfies `p`. */
  ghost predicate FromOn(p: (nat, Key) -> bool, n: nat, ks: set<Key>) {
    forall i: nat, k :: n <= i && k in ks ==> p(i, k)
  }

  ghost predicate Stable(p: (nat, Key) -> bool, ks: set<Key>) {
    forall i: nat, j: nat, k :: i <= j && k in ks && p(i, k) ==> p(j, k)
  }

  /** What each of finitely many keys comes to satisfy for good, all of them come to satisfy. */
  lemma {:induction false} EventuallyAll(p: (nat, Key) -> bool, n: nat, ks: set<Key>) returns (m: nat)
    requires Stable(p, ks)
    requires forall k :: k in ks ==> exists i: nat :: n <= i && p(i, k)
    ensures n <= m && FromOn(p, m, ks)
  {
    m := n;
    if ks != {} {
      var k :| k in ks;
      var i: nat :| n <= i && p(i, k);
      var m' := EventuallyAll(p, n, ks - {k});
      m := if m' < i then i else m';
    }
  }

  // ----- what stays

  lemma Later(h: History, i: nat, j: nat)
    requires Growing(h) && i <= j
    ensures Advances(At(h, i), At(h, j)) && WellFormed(At(h, i)) && WellFormed(At(h, j))
  {
    assert h(i) <= h(j);
    HistoryAdvances(h(i), h(j));
    Reachable(h(i));
    Reachable(h(j));
  }

  lemma AnyTime(h: History, i: nat)
    requires Growing(h)
    ensures WellFormed(At(h, i)) && FinalizersExpected(At(h, i)) && NoneLingers(At(h, i)) && Owned(At(h, i))
  {
    Reachable(h(i));
  }

  /** What is not live stays so, and gets no more children or finalizers. */
  lemma NoLongerLive(w: World, w': World, p: Key)
    requires WellFormed(w) && Advances(w, w') && p in w.birth && !Live(w, p)
    ensures p in w'.birth && !Live(w', p) && (p !in w.meta ==> p !in w'.meta)
    ensures forall c :: ChildOf(w', c, p) <==> ChildOf(w, c, p)
    ensures forall f :: Holds(w', p, f) ==> Holds(w, p, f)
  {
    forall c | ChildOf(w', c, p) ensures ChildOf(w, c, p) {}
  }

  /** On its way out, and free of the suite controller. */
  ghost predicate Doomed(h: History, i: nat, r: Key) {
    r in At(h, i).birth && !Live(At(h, i), r) && !Holds(At(h, i), r, TestSuiteController)
  }

  ghost predicate NoLiveTests(h: History, i: nat, r: Key) {
    r in At(h, i).birth && !Live(At(h, i), r) && forall t :: ChildOf(At(h, i), t, r) ==> !Live(At(h, i), t)
  }

  /** The object and its children are gone. */
  ghost predicate GoneWithChildren(h: History, i: nat, t: Key) {
    t in At(h, i).birth && t !in At(h, i).meta && forall c :: ChildOf(At(h, i), c, t) ==> c !in At(h, i).meta
  }

  lemma StaysDoomed(h: History, i: nat, j: nat, r: Key)
    requires Growing(h) && i <= j && Doomed(h, i, r)
    ensures Doomed(h, j, r)
  {
    Later(h, i, j);
    NoLongerLive(At(h, i), At(h, j), r);
  }

  lemma StaysWithoutLiveTests(h: History, i: nat, j: nat, r: Key)
    requires Growing(h) && i <= j && NoLiveTests(h, i, r)
    ensures NoLiveTests(h, j, r)
  {
    Later(h, i, j);
    NoLongerLive(At(h, i), At(h, j), r);
    forall t | ChildOf(At(h, j), t, r) ensures !Live(At(h, j), t) {
      assert ChildOf(At(h, i), t, r);
      NoLongerLive(At(h, i), At(h, j), t);
    }
  }

  lemma StaysGone(h: History, i: nat, j: nat, t: Key)
    requires Growing(h) && i <= j && GoneWithChildren(h, i, t)
    ensures GoneWithChildren(h, j, t)
  {
    Later(h, i, j);
    NoLongerLive(At(h, i), At(h, j), t);
    forall c | ChildOf(At(h, j), c, t) ensures c !in At(h, j).meta {
      assert ChildOf(At(h, i), c, t);
      NoLongerLive(At(h, i), At(h, j), c);
    }
  }

  // ----- one reconciliation

  /** A sweep of an object that carries nothing else leaves nothing of it. */
  lemma SweptAway(w: World, w': World, k: Key, f: Finalizer)
    requires Swept(w, w', k, f) && forall g :: g in w.meta[k].finalizers ==> g == f
    ensures k !in w'.meta
  {
    AllRemoved(w.meta[k].finalizers, f);
  }

  lemma SweptIsNotLive(w: World, w': World, k: Key, f: Finalizer)
    requires Swept(w, w', k, f)
    ensures !Live(w', k) && !Holds(w', k, f)
  {
  }

  /** The suite's reconciliation dooms its runs. */
  lemma SuiteDooms(h: History, j: nat, s: Key, r: Key)
    requires Growing(h) && s.kind == SuiteKind && s in At(h, j).birth && !Live(At(h, j), s) && ReconciledAt(h, j, s)
    requires ChildOf(At(h, j), r, s)
    ensures Doomed(h, j + 1, r)
  {
    AnyTime(h, j);
    Later(h, j, j + 1);
    var w, w' := At(h, j), At(h, j + 1);
    assert HeldByOwner(w, r, s) && Fits(r.kind, s.kind);
    if r in w.meta {
      assert Swept(w, w', r, TestSuiteController);
      SweptIsNotLive(w, w', r, TestSuiteController);
    } else {
      NoLongerLive(w, w', r);
    }
  }

  /** A doomed run's reconciliation leaves no live Test of it. */
  lemma RunMarksTests(h: History, j: nat, r: Key)
    requires Growing(h) && r.kind == RunKind && r in At(h, j).birth && !Live(At(h, j), r) && ReconciledAt(h, j, r)
    ensures NoLiveTests(h, j + 1, r)
  {
    AnyTime(h, j);
    Later(h, j, j + 1);
    var w, w' := At(h, j), At(h, j + 1);
    NoLongerLive(w, w', r);
    forall t | ChildOf(w', t, r) ensures !Live(w', t) {
      TestIsMarked(w, w', r, t);
    }
  }

  lemma TestIsMarked(w: World, w': World, r: Key, t: Key)
    requires WellFormed(w) && Owned(w) && Advances(w, w') && r.kind == RunKind && !Live(w, r) && ChildOf(w, t, r)
    requires Reconciled(w, w', r)
    ensures !Live(w', t)
  {
    assert HeldByOwner(w, t, r) && Fits(t.kind, r.kind);
    if t in w.meta {
      assert Swept(w, w', t, TestRunController);
    } else {
      NoLongerLive(w, w', t);
    }
  }

  /** A marked Test's reconciliation leaves neither it nor its Pods. */
  lemma TestGoes(h: History, j: nat, t: Key)
    requires Growing(h) && t.kind == TestKind && t in At(h, j).birth && !Live(At(h, j), t) && ReconciledAt(h, j, t)
    requires NothingForeign(At(h, j), t) && forall p :: ChildOf(At(h, j), p, t) ==> NothingForeign(At(h, j), p)
    ensures GoneWithChildren(h, j + 1, t)
  {
    AnyTime(h, j);
    Later(h, j, j + 1);
    var w, w' := At(h, j), At(h, j + 1);
    NoLongerLive(w, w', t);
    if t in w.meta {
      OnlyOwn(w, t);
      SweptAway(w, w', t, TestController);
    }
    forall p | ChildOf(w', p, t) ensures p !in w'.meta {
      assert ChildOf(w, p, t) && Fits(p.kind, t.kind);
      if p in w.meta {
        OnlyOwn(w, p);
        PodHasTest(w, p, t);
        SweptAway(w, w', p, TestController);
      } else {
        NoLongerLive(w, w', p);
      }
    }
  }

  lemma OnlyOwn(w: World, k: Key)
    requires FinalizersExpected(w) && k in w.meta && NothingForeign(w, k) && k.kind != RunKind
    ensures forall g :: g in w.meta[k].finalizers ==> g == OwnFinalizer(k.kind)
  {
    forall g | g in w.meta[k].finalizers ensures g == OwnFinalizer(k.kind) {
      assert Expected(k.kind, g);
    }
  }

  /** A stored Pod that no other program holds has a stored Test. */
  lemma PodHasTest(w: World, p: Key, t: Key)
    requires Owned(w) && NoneLingers(w) && p in w.meta && ChildOf(w, p, t) && t.kind == TestKind
    requires forall g :: g in w.meta[p].finalizers ==> g == TestController
    ensures t in w.meta
  {
    assert HeldByOwner(w, p, t);
    if Deleting(w, p) { assert w.meta[p].finalizers[0] in w.meta[p].finalizers; }
  }

  /** A doomed run without Tests goes. */
  lemma RunGoes(h: History, j: nat, r: Key)
    requires Growing(h) && r.kind == RunKind && Doomed(h, j, r) && ReconciledAt(h, j, r) && NothingForeign(At(h, j), r)
    requires forall t :: ChildOf(At(h, j), t, r) ==> t !in At(h, j).meta
    ensures GoneWithChildren(h, j + 1, r)
  {
    AnyTime(h, j);
    Later(h, j, j + 1);
    var w, w' := At(h, j), At(h, j + 1);
    NoLongerLive(w, w', r);
    if r in w.meta {
      forall g | g in w.meta[r].finalizers ensures g == TestRunController {
          assert Expected(r.kind, g);
      }
      SweptAway(w, w', r, TestRunController);
    }
    forall c | ChildOf(w', c, r) ensures c !in w'.meta { NoLongerLive(w, w', c); }
  }

  /** A deleted suite without runs goes. */
  lemma SuiteGoes(h: History, j: nat, s: Key)
    requires Growing(h) && s.kind == SuiteKind && s in At(h, j).birth && !Live(At(h, j), s) && ReconciledAt(h, j, s)
    requires NothingForeign(At(h, j), s) && forall r :: ChildOf(At(h, j), r, s) ==> r !in At(h, j).meta
    ensures GoneWithChildren(h, j + 1, s)
  {
    AnyTime(h, j);
    Later(h, j, j + 1);
    var w, w' := At(h, j), At(h, j + 1);
    NoLongerLive(w, w', s);
    if s in w.meta {
      OnlyOwn(w, s);
      SweptAway(w, w', s, TestSuiteController);
    }
    forall c | ChildOf(w', c, s) ensures c !in w'.meta { NoLongerLive(w, w', c); }
  }

  // ----- the stages

  function ChildrenOf(w: World, p: Key): set<Key> { set c | c in w.birth && w.birth[c].owner == Some(p) }

  function Grandchildren(w: World, p: Key): set<Key> {
    set c | c in w.birth && w.birth[c].owner.Some? && w.birth[c].owner.value in ChildrenOf(w, p)
  }

  lemma Due(h: History, n: nat, k: Key) returns (j: nat)
    requires Fair(h)
    ensures n <= j && ReconciledAt(h, j, k)
  {
    assert ReconciledSince(h, n, k);
    j :| n <= j && ReconciledAt(h, j, k);
  }

  ghost predicate NotLive(h: History, n: nat, k: Key) { k in At(h, n).birth && !Live(At(h, n), k) }

  lemma StaysNotLive(h: History, i: nat, j: nat, k: Key)
    requires Growing(h) && i <= j && NotLive(h, i, k)
    ensures NotLive(h, j, k) && ChildrenOf(At(h, j), k) == ChildrenOf(At(h, i), k)
  {
    Later(h, i, j);
    NoLongerLive(At(h, i), At(h, j), k);
    assert forall c :: c in ChildrenOf(At(h, j), k) <==> ChildOf(At(h, j), c, k);
    assert forall c :: c in ChildrenOf(At(h, i), k) <==> ChildOf(At(h, i), c, k);
  }

  /** All runs of a deleted suite come to be doomed. */
  lemma RunsDoomed(h: History, n: nat, s: Key) returns (m: nat)
    requires Growing(h) && Fair(h) && s.kind == SuiteKind && NotLive(h, n, s)
    ensures n <= m && NotLive(h, m, s) && forall r :: r in ChildrenOf(At(h, m), s) ==> Doomed(h, m, r)
  {
    var j := Due(h, n, s);
    StaysNotLive(h, n, j, s);
    m := j + 1;
    StaysNotLive(h, j, m, s);
    forall r | r in ChildrenOf(At(h, m), s) ensures Doomed(h, m, r) {
      SuiteDooms(h, j, s, r);
    }
  }

  /** Then none of their Tests stays live. */
  lemma TestsMarked(h: History, n: nat, s: Key) returns (m: nat)
    requires Growing(h) && Fair(h) && s.kind == SuiteKind && NotLive(h, n, s)
    requires forall r :: r in ChildrenOf(At(h, n), s) ==> Doomed(h, n, r)
    ensures n <= m && NotLive(h, m, s)
    ensures forall r :: r in ChildrenOf(At(h, m), s) ==> Doomed(h, m, r) && NoLiveTests(h, m, r)
  {
    var rs := ChildrenOf(At(h, n), s);
    var p := (i: nat, r: Key) => NoLiveTests(h, i, r);
    forall i: nat, j: nat, r | i <= j && r in rs && p(i, r) ensures p(j, r) { StaysWithoutLiveTests(h, i, j, r); }
    forall r | r in rs ensures exists i: nat :: n <= i && p(i, r) {
      var j := Due(h, n, r);
      StaysDoomed(h, n, j, r);
      RunIsRun(h, n, s, r);
      RunMarksTests(h, j, r);
      assert p(j + 1, r);
    }
    m := EventuallyAll(p, n, rs);
    StaysNotLive(h, n, m, s);
    forall r | r in ChildrenOf(At(h, m), s) ensures Doomed(h, m, r) && NoLiveTests(h, m, r) {
      StaysDoomed(h, n, m, r);
      assert p(m, r);
    }
  }

  lemma RunIsRun(h: History, n: nat, s: Key, r: Key)
    requires Growing(h) && s.kind == SuiteKind && r in ChildrenOf(At(h, n), s)
    ensures r.kind == RunKind
  {
    Later(h, n, n);
    assert ChildOf(At(h, n), r, s) && Fits(r.kind, s.kind);
  }

  ghost predicate NothingForeignFrom(h: History, n: nat, s: Key) {
    forall i: nat :: n <= i ==> OwnFinalizersOnly(At(h, i), s)
  }

  lemma TestKept(h: History, i: nat, j: nat, s: Key, r: Key, t: Key)
    requires Growing(h) && i <= j && s.kind == SuiteKind && ChildOf(At(h, i), t, r) && ChildOf(At(h, i), r, s)
    ensures t.kind == TestKind && r.kind == RunKind && IsTest(At(h, j), s, t)
    ensures forall p :: ChildOf(At(h, j), p, t) ==> IsPod(At(h, j), s, p)
  {
    Later(h, i, j);
    assert Fits(r.kind, s.kind) && Fits(t.kind, r.kind);
    assert ChildOf(At(h, j), t, r) && IsRun(At(h, j), s, r);
  }

  /** Each marked Test of a doomed run goes in the end. */
  lemma TestGoesEventually(h: History, n: nat, s: Key, r: Key, t: Key) returns (m: nat)
    requires Growing(h) && Fair(h) && s.kind == SuiteKind && NothingForeignFrom(h, n, s)
    requires ChildOf(At(h, n), t, r) && ChildOf(At(h, n), r, s) && NotLive(h, n, t)
    ensures n <= m && GoneWithChildren(h, m, t)
  {
    var j := Due(h, n, t);
    TestKept(h, n, j, s, r, t);
    StaysNotLive(h, n, j, t);
    assert OwnFinalizersOnly(At(h, j), s) && InTree(At(h, j), s, t);
    forall p | ChildOf(At(h, j), p, t) ensures NothingForeign(At(h, j), p) { assert InTree(At(h, j), s, p); }
    TestGoes(h, j, t);
    m := j + 1;
  }

  /** Then the Tests go, with their Pods. */
  lemma TestsGone(h: History, n: nat, s: Key) returns (m: nat)
    requires Growing(h) && Fair(h) && s.kind == SuiteKind && NotLive(h, n, s) && NothingForeignFrom(h, n, s)
    requires forall r :: r in ChildrenOf(At(h, n), s) ==> Doomed(h, n, r) && NoLiveTests(h, n, r)
    ensures n <= m && NotLive(h, m, s)
    ensures forall r :: r in ChildrenOf(At(h, m), s) ==> Doomed(h, m, r)
    ensures forall t :: t in Grandchildren(At(h, m), s) ==> GoneWithChildren(h, m, t)
  {
    var ts := Grandchildren(At(h, n), s);
    var p := (i: nat, t: Key) => GoneWithChildren(h, i, t);
    forall i: nat, j: nat, t | i <= j && t in ts && p(i, t) ensures p(j, t) { StaysGone(h, i, j, t); }
    forall t | t in ts ensures exists i: nat :: n <= i && p(i, t) {
      var r := At(h, n).birth[t].owner.value;
      assert NoLiveTests(h, n, r) && ChildOf(At(h, n), t, r) && ChildOf(At(h, n), r, s);
      var j := TestGoesEventually(h, n, s, r, t);
      assert p(j, t);
    }
    m := EventuallyAll(p, n, ts);
    StaysNotLive(h, n, m, s);
    forall r | r in ChildrenOf(At(h, m), s) ensures Doomed(h, m, r) { StaysDoomed(h, n, m, r); }
    GrandchildrenKept(h, n, m, s);
    forall t | t in Grandchildren(At(h, m), s) ensures GoneWithChildren(h, m, t) { assert p(m, t); }
  }

  lemma GrandchildrenKept(h: History, n: nat, m: nat, s: Key)
    requires Growing(h) && n <= m && NotLive(h, n, s) && forall r :: r in ChildrenOf(At(h, n), s) ==> Doomed(h, n, r)
    ensures Grandchildren(At(h, m), s) == Grandchildren(At(h, n), s)
  {
    StaysNotLive(h, n, m, s);
    Later(h, n, m);
    forall t | t in Grandchildren(At(h, m), s) ensures t in Grandchildren(At(h, n), s) {
      var r := At(h, m).birth[t].owner.value;
      assert Doomed(h, n, r) && ChildOf(At(h, m), t, r);
      NoLongerLive(At(h, n), At(h, m), r);
      assert ChildOf(At(h, n), t, r);
    }
    forall t | t in Grandchildren(At(h, n), s) ensures t in Grandchildren(At(h, m), s) {}
  }

  lemma WithoutTests(h: History, n: nat, j: nat, s: Key, r: Key)
    requires Growing(h) && n <= j && r in ChildrenOf(At(h, n), s) && Doomed(h, n, r)
    requires forall t :: t in Grandchildren(At(h, n), s) ==> GoneWithChildren(h, n, t)
    ensures IsRun(At(h, j), s, r)
    ensures forall t :: ChildOf(At(h, j), t, r) ==> t !in At(h, j).meta
  {
    Later(h, n, j);
    NoLongerLive(At(h, n), At(h, j), r);
    forall t | ChildOf(At(h, j), t, r) ensures t !in At(h, j).meta {
      assert t in Grandchildren(At(h, n), s);
      StaysGone(h, n, j, t);
    }
  }

  lemma RunGoesEventually(h: History, n: nat, s: Key, r: Key) returns (m: nat)
    requires Growing(h) && Fair(h) && s.kind == SuiteKind && NothingForeignFrom(h, n, s)
    requires r in ChildrenOf(At(h, n), s) && Doomed(h, n, r)
    requires forall t :: t in Grandchildren(At(h, n), s) ==> GoneWithChildren(h, n, t)
    ensures n <= m && GoneWithChildren(h, m, r)
  {
    var j := Due(h, n, r);
    RunIsRun(h, n, s, r);
    StaysDoomed(h, n, j, r);
    WithoutTests(h, n, j, s, r);
    assert OwnFinalizersOnly(At(h, j), s) && InTree(At(h, j), s, r);
    RunGoes(h, j, r);
    m := j + 1;
  }

  /** Then the runs go. */
  lemma RunsGone(h: History, n: nat, s: Key) returns (m: nat)
    requires Growing(h) && Fair(h) && s.kind == SuiteKind && NotLive(h, n, s) && NothingForeignFrom(h, n, s)
    requires forall r :: r in ChildrenOf(At(h, n), s) ==> Doomed(h, n, r)
    requires forall t :: t in Grandchildren(At(h, n), s) ==> GoneWithChildren(h, n, t)
    ensures n <= m && NotLive(h, m, s)
    ensures forall r :: r in ChildrenOf(At(h, m), s) ==> GoneWithChildren(h, m, r)
    ensures forall t :: t in Grandchildren(At(h, m), s) ==> GoneWithChildren(h, m, t)
  {
    var rs := ChildrenOf(At(h, n), s);
    var p := (i: nat, r: Key) => GoneWithChildren(h, i, r);
    forall i: nat, j: nat, r | i <= j && r in rs && p(i, r) ensures p(j, r) { StaysGone(h, i, j, r); }
    forall r | r in rs ensures exists i: nat :: n <= i && p(i, r) {
      var j := RunGoesEventually(h, n, s, r);
      assert p(j, r);
    }
    m := EventuallyAll(p, n, rs);
    StaysNotLive(h, n, m, s);
    forall r | r in ChildrenOf(At(h, m), s) ensures GoneWithChildren(h, m, r) { assert p(m, r); }
    GrandchildrenKept(h, n, m, s);
    forall t | t in Grandchildren(At(h, m), s) ensures GoneWithChildren(h, m, t) { StaysGone(h, n, m, t); }
  }

  lemma SuiteGone(h: History, n: nat, s: Key) returns (m: nat)
    requires Growing(h) && Fair(h) && s.kind == SuiteKind && NotLive(h, n, s) && NothingForeignFrom(h, n, s)
    requires forall r :: r in ChildrenOf(At(h, n), s) ==> GoneWithChildren(h, n, r)
    ensures n <= m && GoneWithChildren(h, m, s)
  {
    var j := Due(h, n, s);
    StaysNotLive(h, n, j, s);
    forall r | ChildOf(At(h, j), r, s) ensures r !in At(h, j).meta {
      assert r in ChildrenOf(At(h, j), s);
      StaysGone(h, n, j, r);
    }
    assert OwnFinalizersOnly(At(h, j), s) && InTree(At(h, j), s, s);
    SuiteGoes(h, j, s);
    m := j + 1;
  }

  lemma TreeIsGone(h: History, n: nat, s: Key, k: Key)
    requires Growing(h) && GoneWithChildren(h, n, s) && InTree(At(h, n), s, k)
    requires forall r :: r in ChildrenOf(At(h, n), s) ==> GoneWithChildren(h, n, r)
    requires forall t :: t in Grandchildren(At(h, n), s) ==> GoneWithChildren(h, n, t)
    ensures k !in At(h, n).meta
  {
    var w := At(h, n);
    if IsTest(w, s, k) {
      var r :| ChildOf(w, k, r) && IsRun(w, s, r);
      assert r in ChildrenOf(w, s);
    } else if IsPod(w, s, k) {
      var t :| ChildOf(w, k, t) && IsTest(w, s, t);
      var r :| ChildOf(w, t, r) && IsRun(w, s, r);
      assert r in ChildrenOf(w, s) && t in Grandchildren(w, s);
    }
  }

  /**
   Once a suite has been deleted, every fair history comes to a world in which nothing of its tree is stored, for good,
   provided that from some time on no other program holds anything in the tree.
   */
  lemma Cascade(h: History, n: nat, free: nat, s: Key) returns (m: nat)
    requires Growing(h) && Fair(h) && s.kind == SuiteKind && Deleting(At(h, n), s) && NothingForeignFrom(h, free, s)
    ensures n <= m && forall i: nat, k :: m <= i && InTree(At(h, i), s, k) ==> k !in At(h, i).meta
  {
    Later(h, n, n);
    var start := if n < free then free else n;
    StaysNotLive(h, n, start, s);
    var a := RunsDoomed(h, start, s);
    var b := TestsMarked(h, a, s);
    var c := TestsGone(h, b, s);
    var d := RunsGone(h, c, s);
    m := SuiteGone(h, d, s);
    forall i: nat, k | m <= i && InTree(At(h, i), s, k) ensures k !in At(h, i).meta {
      StaysGone(h, m, i, s);
      StaysNotLive(h, d, i, s);
      forall r | r in ChildrenOf(At(h, i), s) ensures GoneWithChildren(h, i, r) { StaysGone(h, d, i, r); }
      GrandchildrenGone(h, d, i, s);
      TreeIsGone(h, i, s, k);
    }
  }

  lemma GrandchildrenGone(h: History, n: nat, m: nat, s: Key)
    requires Growing(h) && n <= m && NotLive(h, n, s)
    requires forall r :: r in ChildrenOf(At(h, n), s) ==> GoneWithChildren(h, n, r)
    requires forall t :: t in Grandchildren(At(h, n), s) ==> GoneWithChildren(h, n, t)
    ensures forall t :: t in Grandchildren(At(h, m), s) ==> GoneWithChildren(h, m, t)
  {
    forall r | r in ChildrenOf(At(h, n), s) ensures Doomed(h, n, r) {}
    GrandchildrenKept(h, n, m, s);
    forall t | t in Grandchildren(At(h, m), s) ensures GoneWithChildren(h, m, t) { StaysGone(h, n, m, t); }
  }
}
