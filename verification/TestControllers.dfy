/** The Test reconciler: one Pod for each Test, and the Pod's outcome as the Test's verdict. */
module TestControllers {
  import opened Prelude
  import opened Store
  import opened Effects
  import opened Invariants
  import opened Clusters
  import opened Helpers

  // ----- the choice of a Pod

  predicate Usable(o: Obj<Pod>) { !o.meta.deleting || o.body.phase.IsFinished() }

  /** The Pods that may decide the Test: those not marked, and those that finished before they were. */
  function UsablePods(pods: seq<Obj<Pod>>): seq<Obj<Pod>> {
    if pods == [] then []
    else UsablePods(pods[..|pods| - 1]) + if Usable(pods[|pods| - 1]) then [pods[|pods| - 1]] else []
  }

  /** The position picked among the first `n`: the first Pod that is not marked if there is one, else the first. */
  function PickAmong(pods: seq<Obj<Pod>>, n: nat): (p: nat)
    requires 0 < n <= |pods|
    ensures p < n
    ensures !pods[p].meta.deleting <==> exists i :: 0 <= i < n && !pods[i].meta.deleting
    ensures forall i :: 0 <= i < p ==> pods[i].meta.deleting
    ensures pods[p].meta.deleting ==> p == 0
  {
    if n == 1 then 0
    else
      var before := PickAmong(pods, n - 1);
      if !pods[n - 1].meta.deleting && pods[before].meta.deleting then n - 1 else before
  }

  function Pick(pods: seq<Obj<Pod>>): nat
    requires pods != []
  {
    PickAmong(pods, |pods|)
  }

  lemma {:induction false} UsableMembers(pods: seq<Obj<Pod>>, o: Obj<Pod>)
    ensures o in UsablePods(pods) <==> o in pods && Usable(o)
  {
    if pods != [] {
      UsableMembers(pods[..|pods| - 1], o);
      assert pods == pods[..|pods| - 1] + [pods[|pods| - 1]];
    }
  }

  /** The positions of the usable ones among the first `n` Pods. */
  function UsableAt(pods: seq<Obj<Pod>>, n: nat): (at: seq<nat>)
    requires n <= |pods|
    ensures forall i :: 0 <= i < |at| ==> at[i] < n && Usable(pods[at[i]])
    ensures forall i, j :: 0 <= i < j < |at| ==> at[i] < at[j]
    ensures forall k: nat :: k < n && Usable(pods[k]) ==> k in at
  {
    if n == 0 then [] else UsableAt(pods, n - 1) + if Usable(pods[n - 1]) then [n - 1] else []
  }

  /** The usable Pods are those at these positions, in the order of the list. */
  lemma {:induction false} UsableKeepOrder(pods: seq<Obj<Pod>>, n: nat)
    requires n <= |pods|
    ensures |UsablePods(pods[..n])| == |UsableAt(pods, n)|
    ensures forall i :: 0 <= i < |UsableAt(pods, n)| ==> UsablePods(pods[..n])[i] == pods[UsableAt(pods, n)[i]]
  {
    if n > 0 {
      UsableKeepOrder(pods, n - 1);
      assert pods[..n][..n - 1] == pods[..n - 1];
    }
  }

  // ----- clearing marked Pods

  function Cleared(o: Obj<Pod>): Obj<Pod> {
    if o.meta.deleting then o.(meta := o.meta.(finalizers := Without(o.meta.finalizers, TestController))) else o
  }

  ghost predicate ClearedIfMarked(w: World, w': World, o: Obj<Pod>) {
    if o.meta.deleting then Swept(w, w', o.key, TestController)
    else o.key in w.meta && o.key in w'.meta && w'.meta[o.key] == w.meta[o.key]
  }

  ghost predicate MarkedCleared(w: World, w': World, pods: seq<Obj<Pod>>, n: nat)
    requires n <= |pods|
  {
    OnlyMeta(w, w', KeysOf(pods[..n])) && forall j :: 0 <= j < n ==> ClearedIfMarked(w, w', pods[j])
  }

  ghost predicate Pods(w: World, t: Key, pods: seq<Obj<Pod>>) {
    && KeysDiffer(pods)
    && (forall i :: 0 <= i < |pods| ==> PodOf(w, t, pods[i]))
    && (forall k :: k in w.meta && ChildOf(w, k, t) && k.kind == PodKind ==> k in KeysOf(pods))
  }

  ghost predicate PodOf(w: World, t: Key, o: Obj<Pod>) {
    && o.key in w.meta && o.meta == w.meta[o.key] && o.key.kind == PodKind && ChildOf(w, o.key, t)
    && o.key in w.pods && o.body == w.pods[o.key]
  }

  lemma ClearedNow(w0: World, w1: World, w2: World, o: Obj<Pod>)
    requires ClearedIfMarked(w1, w2, o) && o.key in w0.meta && o.key in w1.meta && w1.meta[o.key] == w0.meta[o.key]
    ensures ClearedIfMarked(w0, w2, o)
  {
  }

  lemma ClearedStays(w0: World, w1: World, w2: World, o: Obj<Pod>, k: Key)
    requires ClearedIfMarked(w0, w1, o) && OnlyMeta(w1, w2, {k}) && o.key != k
    ensures ClearedIfMarked(w0, w2, o)
  {
  }

  /** The marked ones among the first `n` Pods have been attempted: each is cleared, or has failed and is as it was. */
  ghost predicate ClearingTried(w: World, w': World, pods: seq<Obj<Pod>>, n: nat, failed: set<Key>)
    requires n <= |pods|
  {
    && OnlyMeta(w, w', KeysOf(pods[..n])) && failed <= KeysOf(pods[..n])
    && forall j :: 0 <= j < n ==> TriedOne(w, w', pods[j], failed)
  }

  ghost predicate TriedOne(w: World, w': World, o: Obj<Pod>, failed: set<Key>) {
    if o.key in failed then o.meta.deleting && o.key in w.meta && o.key in w'.meta && w'.meta[o.key] == w.meta[o.key]
    else ClearedIfMarked(w, w', o)
  }

  ghost predicate Clearing(w: World, w': World, pods: seq<Obj<Pod>>, n: nat, done: seq<Obj<Pod>>, ok: bool,
      failed: set<Key>)
  {
    && n <= |pods| && ClearingTried(w, w', pods, n, failed) && (ok <==> failed == {})
    && |done| == n && forall i :: 0 <= i < n ==> done[i] == Cleared(pods[i])
  }

  lemma TriedStays(w0: World, w1: World, w2: World, o: Obj<Pod>, failed: set<Key>, k: Key)
    requires TriedOne(w0, w1, o, failed) && OnlyMeta(w1, w2, {k}) && o.key != k
    ensures TriedOne(w0, w2, o, failed) && TriedOne(w0, w2, o, failed + {k})
  {
    if o.key !in failed { ClearedStays(w0, w1, w2, o, k); }
  }

  lemma TriedNow(w0: World, w1: World, w2: World, o: Obj<Pod>, failed: set<Key>, failed': set<Key>)
    requires o.key in w0.meta && o.key in w1.meta && w1.meta[o.key] == w0.meta[o.key] && o.key !in failed
    requires if failed' == failed then ClearedIfMarked(w1, w2, o)
             else failed' == failed + {o.key} && o.meta.deleting && w2 == w1
    ensures TriedOne(w0, w2, o, failed')
  {
    if failed' == failed { ClearedNow(w0, w1, w2, o); }
  }

  lemma TriedEntry(w0: World, w1: World, w2: World, pods: seq<Obj<Pod>>, i: nat, j: nat, failed: set<Key>,
      failed': set<Key>)
    requires j < i < |pods| && KeysDiffer(pods) && TriedOne(w0, w1, pods[j], failed) && OnlyMeta(w1, w2, {pods[i].key})
    requires failed' == failed || failed' == failed + {pods[i].key}
    ensures TriedOne(w0, w2, pods[j], failed')
  {
    TriedStays(w0, w1, w2, pods[j], failed, pods[i].key);
  }

  lemma OneMoreTried(w0: World, w1: World, w2: World, pods: seq<Obj<Pod>>, i: nat, failed: set<Key>, failed': set<Key>)
    requires i < |pods| && KeysDiffer(pods) && ClearingTried(w0, w1, pods, i, failed)
    requires pods[i].key in w0.meta && OnlyMeta(w1, w2, {pods[i].key})
    requires if failed' == failed then ClearedIfMarked(w1, w2, pods[i])
             else failed' == failed + {pods[i].key} && pods[i].meta.deleting && w2 == w1
    ensures ClearingTried(w0, w2, pods, i + 1, failed')
  {
    NotYetSeen(pods, i);
    KeysOfNext(pods, i);
    OnlyMetaGrows(w0, w1, w2, pods, i);
    TriedNow(w0, w1, w2, pods[i], failed, failed');
    forall j | 0 <= j < i ensures TriedOne(w0, w2, pods[j], failed') {
      TriedEntry(w0, w1, w2, pods, i, j, failed, failed');
    }
  }

  lemma MoreDone(pods: seq<Obj<Pod>>, i: nat, done: seq<Obj<Pod>>)
    requires i < |pods| && |done| == i && forall j :: 0 <= j < i ==> done[j] == Cleared(pods[j])
    ensures var done' := done + [Cleared(pods[i])];
            |done'| == i + 1 && forall j :: 0 <= j < i + 1 ==> done'[j] == Cleared(pods[j])
  {
  }

  // ----- reducing the Pods to one

  /** The usable Pods of a Test in progress: the live ones are stored, the marked ones have lost the finalizer. */
  ghost predicate Reducible(w: World, t: Key, pods: seq<Obj<Pod>>) {
    && KeysDiffer(pods) && Stored(w, t) && t.kind == TestKind && TestInProgress(w, t)
    && forall i :: 0 <= i < |pods| ==>
         && pods[i].key.kind == PodKind && ChildOf(w, pods[i].key, t) && InStep(w, pods[i])
         && (pods[i].key in w.meta ==> w.meta[pods[i].key].deleting == pods[i].meta.deleting)
         && (if pods[i].meta.deleting
             then && TestController !in pods[i].meta.finalizers
                  && (pods[i].key in w.meta ==> pods[i].meta.finalizers != [])
             else pods[i].key in w.meta)
  }

  ghost predicate SweptIfStored(w: World, w': World, k: Key) { k in w.meta ==> Swept(w, w', k, TestController) }

  /** Of the first `n` Pods only those other than `kept` have been touched, and none has come to life. */
  ghost predicate Spared(w: World, w': World, pods: seq<Obj<Pod>>, n: nat, kept: Key)
    requires n <= |pods|
  {
    OnlyMeta(w, w', KeysOf(pods[..n]) - {kept}) && forall k :: Live(w', k) ==> Live(w, k)
  }

  /** Of the first `n` Pods all but `kept` are swept or have failed. */
  ghost predicate SweptOrFailed(w: World, w': World, pods: seq<Obj<Pod>>, n: nat, kept: Key, failed: set<Key>)
    requires n <= |pods|
  {
    && failed <= KeysOf(pods[..n])
    && forall j :: 0 <= j < n && pods[j].key != kept && pods[j].key !in failed ==> SweptIfStored(w, w', pods[j].key)
  }

  ghost predicate PodsReduced(w: World, w': World, pods: seq<Obj<Pod>>, n: nat, kept: Key, failed: set<Key>)
    requires n <= |pods|
  {
    Spared(w, w', pods, n, kept) && SweptOrFailed(w, w', pods, n, kept, failed)
  }

  lemma ExtraneousMayGo(w: World, w': World, t: Key, pods: seq<Obj<Pod>>, i: nat, pod: Obj<Pod>, failed: set<Key>)
    requires i < |pods| && Reducible(w, t, pods) && PodsReduced(w, w', pods, i, pod.key, failed) && pod in pods[..i]
    requires pod.meta.deleting ==> pods[i].meta.deleting
    ensures var o := pods[i];
            && InStep(w', o) && Releasable(w', o.key, TestController)
            && (o.key in w'.meta ==> w'.meta[o.key].deleting == o.meta.deleting)
            && (Live(w', o.key) ==> MayDelete(w', o.key))
            && (o.key !in w'.meta ==> TestController !in o.meta.finalizers)
  {
    var o := pods[i];
    NotYetSeen(pods, i);
    if Live(w', o.key) {
      assert pod.key in KeysOf(pods[..i]) && !pod.meta.deleting;
      assert ChildOf(w', pod.key, t) && Live(w', pod.key);
      assert t !in KeysOf(pods[..i]);
      assert ReasonToDelete(w', o.key, t);
    }
  }

  /** Entry `i` is cleaned up, or it takes the place of the Pod picked so far, which is marked. */
  ghost predicate ReduceStep(w1: World, w2: World, pods: seq<Obj<Pod>>, i: nat, was: Key, kept: Key)
    requires i < |pods|
  {
    if kept == was then pods[i].key != kept && OnlyMeta(w1, w2, {pods[i].key}) && forall k :: Live(w2, k) ==> Live(w1, k)
    else && kept == pods[i].key && w2 == w1
         && exists j :: 0 <= j < i && pods[j].key == was && pods[j].meta.deleting
  }

  lemma OneMoreReduced(w0: World, w1: World, w2: World, t: Key, pods: seq<Obj<Pod>>, i: nat, was: Key, kept: Key,
      failed: set<Key>, failed': set<Key>)
    requires i < |pods| && Reducible(w0, t, pods) && PodsReduced(w0, w1, pods, i, was, failed)
    requires failed <= failed' <= failed + {pods[i].key}
    requires ReduceStep(w1, w2, pods, i, was, kept)
    requires kept == was && pods[i].key !in failed' ==> SweptIfStored(w1, w2, pods[i].key)
    ensures PodsReduced(w0, w2, pods, i + 1, kept, failed')
  {
    OneMoreSpared(w0, w1, w2, t, pods, i, was, kept);
    KeysOfNext(pods, i);
    forall j | 0 <= j < i + 1 && pods[j].key != kept && pods[j].key !in failed'
      ensures SweptIfStored(w0, w2, pods[j].key)
    {
      OneReduced(w0, w1, w2, t, pods, i, j, was, kept, failed);
    }
  }

  lemma OneMoreSpared(w0: World, w1: World, w2: World, t: Key, pods: seq<Obj<Pod>>, i: nat, was: Key, kept: Key)
    requires i < |pods| && Reducible(w0, t, pods) && Spared(w0, w1, pods, i, was)
    requires ReduceStep(w1, w2, pods, i, was, kept)
    ensures Spared(w0, w2, pods, i + 1, kept)
  {
    NotYetSeen(pods, i);
    KeysOfNext(pods, i);
  }

  lemma OneReduced(w0: World, w1: World, w2: World, t: Key, pods: seq<Obj<Pod>>, i: nat, j: nat, was: Key, kept: Key,
      failed: set<Key>)
    requires j <= i < |pods| && Reducible(w0, t, pods) && PodsReduced(w0, w1, pods, i, was, failed)
    requires ReduceStep(w1, w2, pods, i, was, kept)
    requires kept == was && j == i ==> SweptIfStored(w1, w2, pods[i].key)
    requires pods[j].key != kept && pods[j].key !in failed
    ensures SweptIfStored(w0, w2, pods[j].key)
  {
    var k := pods[j].key;
    NotYetSeen(pods, i);
    if j < i && k != was {
      assert SweptIfStored(w0, w1, k) && k != pods[i].key;
    } else if j < i {
      assert k !in KeysOf(pods[..i]) - {was} && pods[j].meta.deleting;
      WithoutAbsent(pods[j].meta.finalizers, TestController);
    }
  }

  // ----- what a pass over a Test in progress does

  predicate Follows(was: TestPhase, pod: PodPhase, now: TestPhase) {
    match pod
    case PodPending => now == TestStarting
    case PodRunning => now == TestRunning
    case PodSucceeded => now == TestPassed
    case PodFailed => now == TestFailed
    case PodUnknown => now == was
  }

  /** A Test without a phase becomes Pending before anything else. */
  function Started(phase: TestPhase): TestPhase { if phase == TestUnset then TestPending else phase }

  ghost predicate NoLivePod(w: World, t: Key) {
    forall q :: q in w.meta && ChildOf(w, q, t) ==> w.meta[q].deleting
  }

  ghost predicate FinishedPod(w: World, q: Key, t: Key) {
    Deleting(w, q) && ChildOf(w, q, t) && q in w.pods && w.pods[q].phase.IsFinished()
  }

  ghost predicate NoFinishedPod(w: World, t: Key) { forall q :: !FinishedPod(w, q, t) }

  ghost predicate OthersSwept(w: World, w': World, t: Key, p: Key) {
    forall c :: c in w.meta && ChildOf(w, c, t) && (c != p || Deleting(w, c)) ==> Swept(w, w', c, TestController)
  }

  /**
   The Pod that decides: one that was live, which is left as it is, or one that had finished before it was marked if
   none was live, or else a new one. The marked Pods and all others are swept, so that no other Pod of the Test is live.
   */
  ghost predicate Picked(w: World, w': World, t: Key, p: Key) {
    && p.kind == PodKind && ChildOf(w', p, t) && p in w'.pods
    && (Live(w, p) ==> Live(w', p) && w'.meta[p] == w.meta[p])
    && OthersSwept(w, w', t, p)
    && (|| Live(w, p)
        || (NoLivePod(w, t) && FinishedPod(w, p, t))
        || (NoLivePod(w, t) && NoFinishedPod(w, t) && p !in w.birth && Live(w', p)))
    && forall q :: Live(w', q) && ChildOf(w', q, t) ==> q == p
  }

  /** A failure-free pass leaves one live Pod, or a verdict, and a phase that follows the deciding Pod. */
  ghost predicate Stepped(w: World, w': World, t: Key) {
    exists p :: Picked(w, w', t, p) && t in w.tests && t in w'.tests
                && Follows(Started(w.tests[t].phase), w'.pods[p].phase, w'.tests[t].phase)
  }

  /** What the phase of a Test says of its deciding Pod after such a pass. */
  lemma PhaseTellsPod(w: World, w': World, t: Key) returns (p: Key)
    requires Stepped(w, w', t)
    ensures Picked(w, w', t, p) && t in w'.tests
    ensures var now, pod := w'.tests[t].phase, w'.pods[p].phase;
            && (pod == PodPending ==> now == TestStarting) && (pod == PodRunning ==> now == TestRunning)
            && (pod == PodSucceeded ==> now == TestPassed) && (pod == PodFailed ==> now == TestFailed)
  {
    p :| Picked(w, w', t, p) && Follows(Started(w.tests[t].phase), w'.pods[p].phase, w'.tests[t].phase);
  }

  lemma {:induction false} UsableDiffer(pods: seq<Obj<Pod>>)
    requires KeysDiffer(pods)
    ensures KeysDiffer(UsablePods(pods))
  {
    if pods != [] {
      var last := pods[|pods| - 1];
      var init := pods[..|pods| - 1];
      UsableDiffer(init);
      forall i | 0 <= i < |UsablePods(init)| ensures UsablePods(init)[i].key != last.key {
        UsableMembers(init, UsablePods(init)[i]);
        var j :| 0 <= j < |init| && init[j] == UsablePods(init)[i];
      }
    }
  }

  ghost predicate AllCleared(pods: seq<Obj<Pod>>, cleared: seq<Obj<Pod>>) {
    |cleared| == |pods| && forall i :: 0 <= i < |pods| ==> cleared[i] == Cleared(pods[i])
  }

  lemma KeptReducible(w: World, w': World, t: Key, pods: seq<Obj<Pod>>, cleared: seq<Obj<Pod>>)
    requires Pods(w, t, pods) && MarkedCleared(w, w', pods, |pods|) && AllCleared(pods, cleared)
    requires Stored(w, t) && t.kind == TestKind && TestInProgress(w, t)
    ensures Reducible(w', t, UsablePods(cleared))
  {
    assert pods[..|pods|] == pods;
    assert forall i :: 0 <= i < |pods| ==> PodOf(w, t, pods[i]);
    assert KeysDiffer(cleared);
    UsableDiffer(cleared);
    var kept := UsablePods(cleared);
    assert t !in KeysOf(pods);
    forall i | 0 <= i < |kept| ensures ReducibleOne(w', t, kept[i]) {
      UsableMembers(cleared, kept[i]);
      var j :| 0 <= j < |cleared| && cleared[j] == kept[i];
      ClearedReducible(w, w', t, pods[j]);
    }
  }

  ghost predicate ReducibleOne(w: World, t: Key, o: Obj<Pod>) {
    && o.key.kind == PodKind && ChildOf(w, o.key, t) && InStep(w, o)
    && (o.key in w.meta ==> w.meta[o.key].deleting == o.meta.deleting)
    && (if o.meta.deleting
        then TestController !in o.meta.finalizers && (o.key in w.meta ==> o.meta.finalizers != [])
        else o.key in w.meta)
  }

  lemma ClearedReducible(w: World, w': World, t: Key, o: Obj<Pod>)
    requires PodOf(w, t, o) && ClearedIfMarked(w, w', o) && w'.birth == w.birth
    ensures ReducibleOne(w', t, Cleared(o))
  {
  }

  /** A Pod that is live after the clearing was live before it, and is in the list that is left. */
  lemma LivePodIsKept(w: World, w': World, t: Key, pods: seq<Obj<Pod>>, cleared: seq<Obj<Pod>>, q: Key)
    requires Pods(w, t, pods) && MarkedCleared(w, w', pods, |pods|) && AllCleared(pods, cleared)
    requires t.kind == TestKind && WellBorn(w) && ChildOf(w', q, t)
    ensures Live(w', q) <==> Live(w, q)
    ensures Live(w, q) ==>
              var kept := UsablePods(cleared);
              exists i :: 0 <= i < |kept| && kept[i].key == q && !kept[i].meta.deleting
    ensures FinishedPod(w, q, t) ==> exists i :: 0 <= i < |UsablePods(cleared)| && UsablePods(cleared)[i].key == q
  {
    assert pods[..|pods|] == pods;
    if q in w.meta {
      assert ChildOf(w, q, t) && q.kind == PodKind;
      var j :| 0 <= j < |pods| && pods[j].key == q;
      assert PodOf(w, t, pods[j]) && ClearedIfMarked(w, w', pods[j]);
      assert cleared[j] in cleared;
      UsableMembers(cleared, cleared[j]);
    }
  }

  /** A Pod that was cleared if marked, and then swept or left alone, is swept if it was marked or swept then. */
  lemma SweptInAll(w: World, w1: World, w2: World, o: Obj<Pod>)
    requires o.key in w.meta && o.meta == w.meta[o.key] && ClearedIfMarked(w, w1, o)
    requires forall q :: q in w2.meta ==> q in w1.meta
    requires || SweptIfStored(w1, w2, o.key)
             || (o.meta.deleting && (o.key in w1.meta ==> o.key in w2.meta && w2.meta[o.key] == w1.meta[o.key]))
    ensures Swept(w, w2, o.key, TestController)
  {
    WithoutTwice(o.meta.finalizers, TestController);
  }

  lemma PodIsListed(w: World, t: Key, pods: seq<Obj<Pod>>, c: Key) returns (j: nat)
    requires Pods(w, t, pods) && t.kind == TestKind && WellBorn(w) && c in w.meta && ChildOf(w, c, t)
    ensures j < |pods| && pods[j].key == c && PodOf(w, t, pods[j])
  {
    assert c.kind == PodKind;
    j :| 0 <= j < |pods| && pods[j].key == c;
  }

  lemma OthersAreSwept(w: World, w1: World, w2: World, t: Key, pods: seq<Obj<Pod>>, cleared: seq<Obj<Pod>>, p: Key)
    requires Pods(w, t, pods) && MarkedCleared(w, w1, pods, |pods|) && AllCleared(pods, cleared)
    requires t.kind == TestKind && WellBorn(w)
    requires var kept := UsablePods(cleared); PodsReduced(w1, w2, kept, |kept|, p, {})
    ensures OthersSwept(w, w2, t, p)
  {
    forall c | c in w.meta && ChildOf(w, c, t) && (c != p || Deleting(w, c)) ensures Swept(w, w2, c, TestController) {
      var j := PodIsListed(w, t, pods, c);
      OtherIsSwept(w, w1, w2, pods, cleared, p, j);
    }
  }

  lemma OtherIsSwept(w: World, w1: World, w2: World, pods: seq<Obj<Pod>>, cleared: seq<Obj<Pod>>, p: Key, j: nat)
    requires MarkedCleared(w, w1, pods, |pods|) && AllCleared(pods, cleared) && j < |pods| && KeysDiffer(pods)
    requires pods[j].key in w.meta && pods[j].meta == w.meta[pods[j].key]
    requires pods[j].key != p || pods[j].meta.deleting
    requires var kept := UsablePods(cleared); PodsReduced(w1, w2, kept, |kept|, p, {})
    ensures Swept(w, w2, pods[j].key, TestController)
  {
    assert ClearedIfMarked(w, w1, pods[j]);
    ReducedIfKept(w1, w2, pods, cleared, p, j);
    SweptInAll(w, w1, w2, pods[j]);
  }

  lemma ReducedIfKept(w1: World, w2: World, pods: seq<Obj<Pod>>, cleared: seq<Obj<Pod>>, p: Key, j: nat)
    requires AllCleared(pods, cleared) && j < |pods| && KeysDiffer(pods) && (pods[j].key != p || pods[j].meta.deleting)
    requires var kept := UsablePods(cleared); PodsReduced(w1, w2, kept, |kept|, p, {})
    ensures var k := pods[j].key;
            || SweptIfStored(w1, w2, k)
            || (pods[j].meta.deleting && (k in w1.meta ==> k in w2.meta && w2.meta[k] == w1.meta[k]))
  {
    var kept, k := UsablePods(cleared), pods[j].key;
    assert kept[..|kept|] == kept && cleared[j].key == k;
    UsableMembers(cleared, cleared[j]);
    if k != p && cleared[j] in kept {
      var i :| 0 <= i < |kept| && kept[i] == cleared[j];
      assert SweptIfStored(w1, w2, kept[i].key);
    } else if k != p {
      assert cleared[j] in cleared && pods[j].meta.deleting;
      forall i | 0 <= i < |kept| ensures kept[i].key != k {
        UsableMembers(cleared, kept[i]);
        var i' :| 0 <= i' < |cleared| && cleared[i'] == kept[i];
        assert kept[i].key == k ==> i' == j;
      }
    }
  }

  lemma PickedIsOnly(w: World, w1: World, w2: World, t: Key, pods: seq<Obj<Pod>>, cleared: seq<Obj<Pod>>)
    requires Pods(w, t, pods) && MarkedCleared(w, w1, pods, |pods|) && AllCleared(pods, cleared)
    requires t.kind == TestKind && WellBorn(w)
    requires var kept := UsablePods(cleared);
             kept != [] && PodsReduced(w1, w2, kept, |kept|, kept[Pick(kept)].key, {})
    ensures Picked(w, w2, t, UsablePods(cleared)[Pick(UsablePods(cleared))].key)
    ensures var o := UsablePods(cleared)[Pick(UsablePods(cleared))]; o.key in w2.pods && o.body == w2.pods[o.key]
  {
    var kept := UsablePods(cleared);
    var o := kept[Pick(kept)];
    OthersAreSwept(w, w1, w2, t, pods, cleared, o.key);
    PickedIsUntouched(w, w1, w2, t, pods, cleared);
    if o.meta.deleting { NoneLiveIfMarked(w, w1, t, pods, cleared); }
  }

  /** The Pod picked is as it was read, and marked only if it had finished. */
  lemma PickedIsUntouched(w: World, w1: World, w2: World, t: Key, pods: seq<Obj<Pod>>, cleared: seq<Obj<Pod>>)
    requires Pods(w, t, pods) && MarkedCleared(w, w1, pods, |pods|) && AllCleared(pods, cleared)
    requires t.kind == TestKind && WellBorn(w)
    requires var kept := UsablePods(cleared); kept != [] && Spared(w1, w2, kept, |kept|, kept[Pick(kept)].key)
    ensures var o := UsablePods(cleared)[Pick(UsablePods(cleared))];
            && o.key.kind == PodKind && ChildOf(w2, o.key, t) && o.key in w2.pods && o.body == w2.pods[o.key]
            && if o.meta.deleting then FinishedPod(w, o.key, t)
               else Live(w, o.key) && Live(w2, o.key) && w2.meta[o.key] == w.meta[o.key]
  {
    var kept := UsablePods(cleared);
    var o := kept[Pick(kept)];
    assert o in kept;
    UsableMembers(cleared, o);
    var j :| 0 <= j < |cleared| && cleared[j] == o;
    assert PodOf(w, t, pods[j]) && ClearedIfMarked(w, w1, pods[j]);
  }

  /** The Pod picked is marked only if the Test has no live one. */
  lemma NoneLiveIfMarked(w: World, w1: World, t: Key, pods: seq<Obj<Pod>>, cleared: seq<Obj<Pod>>)
    requires Pods(w, t, pods) && MarkedCleared(w, w1, pods, |pods|) && AllCleared(pods, cleared)
    requires t.kind == TestKind && WellBorn(w)
    requires var kept := UsablePods(cleared); kept != [] && kept[Pick(kept)].meta.deleting
    ensures NoLivePod(w, t)
  {
    forall q | q in w.meta && ChildOf(w, q, t) ensures w.meta[q].deleting {
      LivePodIsKept(w, w1, t, pods, cleared, q);
    }
  }

  lemma NoneUsable(w: World, w1: World, t: Key, pods: seq<Obj<Pod>>, cleared: seq<Obj<Pod>>)
    requires Pods(w, t, pods) && MarkedCleared(w, w1, pods, |pods|) && AllCleared(pods, cleared)
    requires t.kind == TestKind && WellBorn(w) && UsablePods(cleared) == []
    ensures NoLivePod(w, t) && NoLivePod(w1, t) && NoFinishedPod(w, t)
    ensures forall c :: c in w.meta && ChildOf(w, c, t) ==> Swept(w, w1, c, TestController)
  {
    forall c | c in w.meta && ChildOf(w, c, t) ensures Swept(w, w1, c, TestController) {
      var j := PodIsListed(w, t, pods, c);
      assert ClearedIfMarked(w, w1, pods[j]);
      LivePodIsKept(w, w1, t, pods, cleared, c);
    }
    forall q | q in w.birth && ChildOf(w, q, t) ensures !Live(w, q) && !Live(w1, q) && !FinishedPod(w, q, t) {
      LivePodIsKept(w, w1, t, pods, cleared, q);
    }
  }

  ghost predicate Settled(w: World, w': World, t: Key, pod: Option<Obj<Pod>>) {
    if pod.Some?
    then Picked(w, w', t, pod.value.key) && pod.value.key in w'.pods && pod.value.body == w'.pods[pod.value.key]
    else && NoLivePod(w, t) && NoLivePod(w', t) && NoFinishedPod(w, t)
         && forall c :: c in w.meta && ChildOf(w, c, t) ==> Swept(w, w', c, TestController)
  }

  ghost predicate NewPod(w: World, w': World, t: Key, o: Obj<Pod>) {
    && o.key.kind == PodKind && o.key !in w.birth && ChildOf(w', o.key, t) && o.key in w'.pods
    && o.body == w'.pods[o.key] && Live(w', o.key) && w'.meta == w.meta[o.key := w'.meta[o.key]]
    && forall q :: Live(w', q) && ChildOf(w', q, t) ==> q == o.key
  }

  lemma NewIsPicked(w: World, w1: World, w2: World, t: Key, o: Obj<Pod>)
    requires Settled(w, w1, t, None) && w1.birth == w.birth && NewPod(w1, w2, t, o) && w.meta.Keys <= w.birth.Keys
    ensures Picked(w, w2, t, o.key)
  {
  }

  lemma SteppedBy(w: World, w1: World, w2: World, t: Key, p: Key)
    requires Picked(w, w1, t, p) && w2 == w1.(tests := w2.tests) && t in w.tests && t in w2.tests
    requires Follows(Started(w.tests[t].phase), w1.pods[p].phase, w2.tests[t].phase)
    ensures Stepped(w, w2, t)
  {
    assert w2.meta == w1.meta && w2.birth == w1.birth;
    forall q | Live(w2, q) && ChildOf(w2, q, t) ensures q == p {
      assert Live(w1, q) && ChildOf(w1, q, t);
    }
    assert Picked(w, w2, t, p);
  }

  // ----- what a pass over a final Test does

  /** A Test that keeps nothing, or only what failed and has passed itself. */
  predicate DropsPods(x: Test) { x.retention == Never || (x.retention == OnFailure && x.phase == TestPassed) }

  /** Marked Pods are cleared; the others are removed exactly if the policy says so. */
  ghost predicate PodsRetained(w: World, w': World, t: Key) {
    t in w.tests && forall c :: c in w.meta && ChildOf(w, c, t) && c.kind == PodKind ==>
      if w.meta[c].deleting || DropsPods(w.tests[t]) then Swept(w, w', c, TestController)
      else c in w'.meta && w'.meta[c] == w.meta[c]
  }

  lemma ClearedIsRetained(w: World, w': World, t: Key, pods: seq<Obj<Pod>>)
    requires Pods(w, t, pods) && MarkedCleared(w, w', pods, |pods|) && t in w.tests && !DropsPods(w.tests[t])
    ensures PodsRetained(w, w', t)
  {
    forall c | c in w.meta && ChildOf(w, c, t) && c.kind == PodKind
      ensures if w.meta[c].deleting then Swept(w, w', c, TestController) else c in w'.meta && w'.meta[c] == w.meta[c]
    {
      var j :| 0 <= j < |pods| && pods[j].key == c;
      assert PodOf(w, t, pods[j]) && ClearedIfMarked(w, w', pods[j]);
    }
  }

  /** The first `n` Pods are swept or have failed, the others only cleared so far. */
  ghost predicate SweptSoFar(w: World, w': World, pods: seq<Obj<Pod>>, n: nat, failed: set<Key>) {
    && (forall k :: k in failed ==> exists j :: 0 <= j < n && j < |pods| && pods[j].key == k)
    && forall j :: 0 <= j < |pods| && pods[j].key !in failed ==>
         if j < n then Swept(w, w', pods[j].key, TestController) else ClearedIfMarked(w, w', pods[j])
  }

  lemma OneMoreSwept(w0: World, w1: World, w2: World, pods: seq<Obj<Pod>>, i: nat, failed: set<Key>,
      failed': set<Key>)
    requires i < |pods| && KeysDiffer(pods) && SweptSoFar(w0, w1, pods, i, failed)
    requires pods[i].key in w0.meta && pods[i].meta == w0.meta[pods[i].key]
    requires OnlyMeta(w1, w2, {pods[i].key})
    requires failed <= failed' <= failed + {pods[i].key}
    requires pods[i].key in w1.meta && pods[i].key !in failed' ==> Swept(w1, w2, pods[i].key, TestController)
    ensures SweptSoFar(w0, w2, pods, i + 1, failed')
  {
    var k := pods[i].key;
    assert k !in failed;
    assert ClearedIfMarked(w0, w1, pods[i]);
    WithoutTwice(w0.meta[k].finalizers, TestController);
    forall j | 0 <= j < |pods| && j != i ensures pods[j].key != k {}
    forall j | 0 <= j < |pods| && j != i && pods[j].key !in failed'
      ensures if j < i then Swept(w0, w2, pods[j].key, TestController) else ClearedIfMarked(w0, w2, pods[j])
    {
      assert pods[j].key != k;
      assert if j < i then Swept(w0, w1, pods[j].key, TestController) else ClearedIfMarked(w0, w1, pods[j]);
    }
  }

  lemma AllSwept(w: World, w': World, t: Key, pods: seq<Obj<Pod>>)
    requires Pods(w, t, pods) && SweptSoFar(w, w', pods, |pods|, {})
    ensures forall c :: c in w.meta && ChildOf(w, c, t) && c.kind == PodKind ==> Swept(w, w', c, TestController)
  {
    forall c | c in w.meta && ChildOf(w, c, t) && c.kind == PodKind ensures Swept(w, w', c, TestController) {
      var j :| 0 <= j < |pods| && pods[j].key == c;
    }
  }

  /** Nothing but the Pods of the list has changed, and a Pod not yet attempted is as its copy says. */
  ghost predicate PurgeUnderway(w: World, w': World, t: Key, pods: seq<Obj<Pod>>, n: nat)
    requires n <= |pods|
  {
    && OnlyMeta(w, w', KeysOf(pods))
    && forall j :: n <= j < |pods| ==> ReducibleOne(w', t, Cleared(pods[j]))
  }

  lemma MayPurge(w0: World, w: World, t: Key, pods: seq<Obj<Pod>>, i: nat)
    requires i < |pods| && t.kind == TestKind && Stored(w0, t) && Purges(w0, t) && t !in KeysOf(pods)
    requires PurgeUnderway(w0, w, t, pods, i)
    ensures ReducibleOne(w, t, Cleared(pods[i])) && Releasable(w, pods[i].key, TestController)
    ensures Live(w, pods[i].key) ==> MayDelete(w, pods[i].key)
  {
    assert ReducibleOne(w, t, Cleared(pods[i]));
    assert Purges(w, t) && Stored(w, t);
    assert ReasonToDelete(w, pods[i].key, t);
  }

  lemma NextPurged(w0: World, w1: World, w2: World, t: Key, pods: seq<Obj<Pod>>, i: nat)
    requires i < |pods| && KeysDiffer(pods) && PurgeUnderway(w0, w1, t, pods, i) && OnlyMeta(w1, w2, {pods[i].key})
    ensures PurgeUnderway(w0, w2, t, pods, i + 1)
  {
    assert pods[i].key in KeysOf(pods);
    forall j | i + 1 <= j < |pods| ensures ReducibleOne(w2, t, Cleared(pods[j])) {
      assert pods[j].key != pods[i].key && ReducibleOne(w1, t, Cleared(pods[j]));
    }
  }

  // ----- what a pass over a deleted Test does

  /** The Pods are swept, and then the Test itself. */
  ghost predicate Dismantled(w: World, w': World, t: Key) {
    && w' == w.(meta := w'.meta)
    && (forall c :: c in w.meta && ChildOf(w, c, t) ==> Swept(w, w', c, TestController))
    && Swept(w, w', t, TestController)
    && (forall q :: q != t && !ChildOf(w, q, t) ==>
          (q in w'.meta <==> q in w.meta) && (q in w.meta ==> w'.meta[q] == w.meta[q]))
  }

  lemma PodsSweptReleasable(w: World, w': World, t: Key, pods: seq<Obj<Pod>>)
    requires WellBorn(w) && t.kind == TestKind && Deleting(w, t) && Pods(w, t, pods)
    requires Attempted(w, w', pods, |pods|, TestController, {})
    ensures forall c :: c in w.meta && ChildOf(w, c, t) ==> Swept(w, w', c, TestController)
    ensures MayRelease(w', t, TestController) && w'.meta[t] == w.meta[t]
    ensures forall q :: q !in KeysOf(pods) ==>
               (q in w'.meta <==> q in w.meta) && (q in w.meta ==> w'.meta[q] == w.meta[q])
  {
    assert pods[..|pods|] == pods;
    forall c | c in w.meta && ChildOf(w, c, t) ensures Swept(w, w', c, TestController) {
      assert c.kind == PodKind;
      var j :| 0 <= j < |pods| && pods[j].key == c;
    }
    assert t !in KeysOf(pods);
    forall c | c in w'.meta && ChildOf(w', c, t) ensures MayOutlive(w', c) {
      assert c in w.meta && ChildOf(w, c, t);
    }
  }

  lemma DismantledInTwo(w: World, w1: World, w2: World, t: Key, pods: seq<Obj<Pod>>)
    requires w1 == w.(meta := w1.meta) && t in w.meta && Pods(w, t, pods) && t.kind == TestKind
    requires forall c :: c in w.meta && ChildOf(w, c, t) ==> Swept(w, w1, c, TestController)
    requires forall q :: q !in KeysOf(pods) ==>
               (q in w1.meta <==> q in w.meta) && (q in w.meta ==> w1.meta[q] == w.meta[q])
    requires OnlyMeta(w1, w2, {t}) && Swept(w1, w2, t, TestController) && WellBorn(w)
    ensures Dismantled(w, w2, t)
  {
    assert t !in KeysOf(pods);
    assert !ChildOf(w, t, t);
    forall q | q !in KeysOf(pods) && q != t
      ensures (q in w2.meta <==> q in w.meta) && (q in w.meta ==> w2.meta[q] == w.meta[q])
    {
    }
    forall q | q in KeysOf(pods) ensures ChildOf(w, q, t) {
      var j :| 0 <= j < |pods| && pods[j].key == q;
      assert PodOf(w, t, pods[j]);
    }
  }

  lemma LetGo(w: World, w1: World, w2: World, t: Key, pods: seq<Obj<Pod>>)
    requires w1 == w.(meta := w1.meta) && Pods(w, t, pods) && t.kind == TestKind && WellBorn(w) && NoneLingers(w)
    requires Deleting(w, t) && t in w1.meta && w1.meta[t] == w.meta[t]
    requires forall c :: c in w.meta && ChildOf(w, c, t) ==> Swept(w, w1, c, TestController)
    requires forall q :: q !in KeysOf(pods) ==>
               (q in w1.meta <==> q in w.meta) && (q in w.meta ==> w1.meta[q] == w.meta[q])
    requires w2 == if TestController !in w.meta[t].finalizers then w1
                   else w1.(meta := TakeOff(w1.meta, t, TestController))
    ensures Dismantled(w, w2, t)
  {
    if TestController !in w.meta[t].finalizers { WithoutAbsent(w.meta[t].finalizers, TestController); }
    DismantledInTwo(w, w1, w2, t, pods);
  }

  // ----- the writes that precede a pass leave the Pods alone

  /** Only the Test's own metadata and phase differ. */
  ghost predicate Prepared(w: World, w': World, t: Key) {
    && w' == w.(meta := w'.meta, tests := w'.tests)
    && w'.meta.Keys == w.meta.Keys && (forall q :: q in w.meta && q != t ==> w'.meta[q] == w.meta[q])
    && t in w.tests && t in w'.tests
    && w'.tests[t] == w.tests[t].(phase := Started(w.tests[t].phase))
  }

  lemma PodsUnmoved(w: World, w': World, t: Key, pods: seq<Obj<Pod>>)
    requires Prepared(w, w', t) && Pods(w, t, pods) && t.kind == TestKind
    ensures Pods(w', t, pods)
  {
    forall i | 0 <= i < |pods| ensures PodOf(w', t, pods[i]) {
      assert PodOf(w, t, pods[i]);
    }
  }

  lemma RetainedSince(w: World, w1: World, w2: World, t: Key)
    requires Prepared(w, w1, t) && w.tests[t].phase.IsFinal() && t.kind == TestKind && PodsRetained(w1, w2, t)
    ensures PodsRetained(w, w2, t)
  {
  }

  lemma SteppedSince(w: World, w1: World, w2: World, t: Key)
    requires Prepared(w, w1, t) && t.kind == TestKind && WellBorn(w) && Stepped(w1, w2, t)
    ensures Stepped(w, w2, t)
  {
    var p :| Picked(w1, w2, t, p) && t in w2.tests
             && Follows(Started(w1.tests[t].phase), w2.pods[p].phase, w2.tests[t].phase);
    forall q ensures FinishedPod(w, q, t) <==> FinishedPod(w1, q, t) {
      assert ChildOf(w, q, t) ==> q != t;
    }
    forall q | ChildOf(w, q, t) ensures q in w.meta <==> q in w1.meta {}
    assert Picked(w, w2, t, p) by {
      if NoLivePod(w1, t) {
        forall q | q in w.meta && ChildOf(w, q, t) ensures w.meta[q].deleting {
          assert q != t && q in w1.meta && ChildOf(w1, q, t);
        }
      }
      assert ChildOf(w, p, t) ==> p != t;
    }
  }

  class TestReconciler {
    const api: Cluster

    constructor (api: Cluster)
      ensures this.api == api
    {
      this.api := api;
    }

    /** The Pods of a Test, read from the store. */
    method ListPods(t: Key) returns (pods: seq<Obj<Pod>>)
      requires api.Valid()
      ensures Pods(api.w, t, pods)
    {
      var ks := api.List(t, PodKind);
      api.IsReachable();
      var w := api.w;
      forall i | 0 <= i < |ks| ensures HasPodBody(w, ks[i]) {
        assert ks[i] in ks;
      }
      pods := seq(|ks|, i requires 0 <= i < |ks| && HasPodBody(w, ks[i]) => Obj(ks[i], w.meta[ks[i]], w.pods[ks[i]]));
      forall k | k in w.meta && ChildOf(w, k, t) && k.kind == PodKind ensures k in KeysOf(pods) {
        assert k in ks;
        var i :| 0 <= i < |ks| && ks[i] == k;
        assert pods[i].key == k;
      }
    }

    /** Takes the finalizer off one Pod, if it is marked. */
    method ClearOne(o: Obj<Pod>) returns (o': Obj<Pod>, ok: bool)
      requires api.Valid() && o.key in api.w.meta && o.meta == api.w.meta[o.key] && o.key.kind == PodKind
      modifies api
      ensures api.Valid() && old(api.log) <= api.log && o' == Cleared(o)
      ensures OnlyMeta(old(api.w), api.w, {o.key})
      ensures if ok then ClearedIfMarked(old(api.w), api.w, o) else o.meta.deleting && api.w == old(api.w)
      ensures api.faults == old(api.faults) + if ok then 0 else 1
      ensures api.reliable ==> ok
    {
      o', ok := o, true;
      if o.meta.deleting {
        assert NoneLingers(api.w) by { api.IsReachable(); }
        var patched, err, p := RemoveFinalizer(api, TestController, o);
        o', ok := p, IgnoreNotFound(err) == Ok;
        if ok { TakeOffSweeps(old(api.w), api.w, o.key, TestController); }
      }
    }

    /** Takes the finalizer off every marked Pod, going on past failures. */
    method ClearMarked(t: Key, pods: seq<Obj<Pod>>) returns (pods': seq<Obj<Pod>>, ok: bool, ghost failed: set<Key>)
      requires api.Valid() && Pods(api.w, t, pods)
      modifies api
      ensures api.Valid() && old(api.log) <= api.log
      ensures ClearingTried(old(api.w), api.w, pods, |pods|, failed) && (ok <==> failed == {})
      ensures api.faults == old(api.faults) + |failed|
      ensures |pods'| == |pods| && forall i :: 0 <= i < |pods| ==> pods'[i] == Cleared(pods[i])
      ensures api.reliable ==> ok
    {
      pods', ok, failed := [], true, {};
      for i := 0 to |pods|
        invariant api.Valid() && old(api.log) <= api.log
        invariant Clearing(old(api.w), api.w, pods, i, pods', ok, failed)
        invariant api.faults == old(api.faults) + |failed|
        invariant api.reliable ==> ok
      {
        pods', ok, failed := ClearNext(t, pods, i, pods', ok, old(api.w), failed);
      }
    }

    /** One turn of that loop. */
    method ClearNext(t: Key, pods: seq<Obj<Pod>>, i: nat, done: seq<Obj<Pod>>, soFar: bool, ghost w0: World,
        ghost failed: set<Key>)
      returns (done': seq<Obj<Pod>>, ok: bool, ghost failed': set<Key>)
      requires api.Valid() && Pods(w0, t, pods) && i < |pods| && Clearing(w0, api.w, pods, i, done, soFar, failed)
      modifies api
      ensures api.Valid() && old(api.log) <= api.log && Clearing(w0, api.w, pods, i + 1, done', ok, failed')
      ensures api.faults - old(api.faults) == |failed'| - |failed|
      ensures api.reliable && soFar ==> ok
    {
      NotYetSeen(pods, i);
      assert PodOf(w0, t, pods[i]);
      var o, fine := ClearOne(pods[i]);
      done', ok, failed' := done + [o], soFar && fine, if fine then failed else failed + {pods[i].key};
      OneMoreTried(w0, old(api.w), api.w, pods, i, failed, failed');
      MoreDone(pods, i, done);
    }

    /** Keeps the usable Pods of the list. */
    method KeepUsable(pods: seq<Obj<Pod>>) returns (kept: seq<Obj<Pod>>)
      ensures kept == UsablePods(pods)
    {
      kept := [];
      for i := 0 to |pods|
        invariant kept == UsablePods(pods[..i])
      {
        assert pods[..i + 1][..i] == pods[..i];
        if Usable(pods[i]) { kept := kept + [pods[i]]; }
      }
      assert pods[..|pods|] == pods;
    }

    method RemoveExtraneous(o: Obj<Pod>) returns (ok: bool)
      requires api.Valid() && InStep(api.w, o) && Releasable(api.w, o.key, TestController)
      requires o.key in api.w.meta ==> api.w.meta[o.key].deleting == o.meta.deleting
      requires Live(api.w, o.key) ==> MayDelete(api.w, o.key)
      requires o.key !in api.w.meta ==> TestController !in o.meta.finalizers
      modifies api
      ensures api.Valid() && old(api.log) <= api.log
      ensures OnlyMeta(old(api.w), api.w, {o.key}) && forall k :: Live(api.w, k) ==> Live(old(api.w), k)
      ensures ok ==> SweptIfStored(old(api.w), api.w, o.key)
      ensures api.faults == old(api.faults) + if ok then 0 else 1
      ensures api.reliable ==> ok
    {
      var m, err := CleanUp(api, TestController, o);
      ok := IgnoreNotFound(err) == Ok;
    }

    /** Picks one Pod and cleans up the others, going on past failures. The Pod it picks is never among those. */
    method Reduce(t: Key, pods: seq<Obj<Pod>>) returns (pod: Obj<Pod>, ok: bool, ghost failed: set<Key>)
      requires api.Valid() && pods != [] && Reducible(api.w, t, pods)
      modifies api
      ensures api.Valid() && old(api.log) <= api.log
      ensures pod == pods[Pick(pods)]
      ensures PodsReduced(old(api.w), api.w, pods, |pods|, pod.key, failed) && (ok <==> failed == {})
      ensures api.faults == old(api.faults) + |failed|
      ensures api.reliable ==> ok
    {
      pod, ok, failed := pods[0], true, {};
      assert pods[..1] == [pods[0]];
      for i := 1 to |pods|
        invariant api.Valid() && old(api.log) <= api.log
        invariant pod == pods[PickAmong(pods, i)]
        invariant PodsReduced(old(api.w), api.w, pods, i, pod.key, failed) && (ok <==> failed == {})
        invariant api.faults == old(api.faults) + |failed|
        invariant api.reliable ==> ok
      {
        pod, ok, failed := ReduceNext(t, pods, i, pod, ok, old(api.w), failed);
      }
    }

    /** One turn of that loop: the next Pod takes the place of the one picked, or goes. */
    method ReduceNext(t: Key, pods: seq<Obj<Pod>>, i: nat, pod: Obj<Pod>, soFar: bool, ghost w0: World,
        ghost failed: set<Key>)
      returns (pod': Obj<Pod>, ok: bool, ghost failed': set<Key>)
      requires api.Valid() && Reducible(w0, t, pods) && 0 < i < |pods| && pod == pods[PickAmong(pods, i)]
      requires PodsReduced(w0, api.w, pods, i, pod.key, failed) && (soFar <==> failed == {})
      modifies api
      ensures api.Valid() && old(api.log) <= api.log
      ensures pod' == if !pods[i].meta.deleting && pod.meta.deleting then pods[i] else pod
      ensures PodsReduced(w0, api.w, pods, i + 1, pod'.key, failed') && (ok <==> failed' == {})
      ensures api.faults - old(api.faults) == |failed'| - |failed|
      ensures api.reliable && soFar ==> ok
    {
      pod', ok, failed' := pod, soFar, failed;
      NotYetSeen(pods, i);
      if !pods[i].meta.deleting && pod.meta.deleting {
        pod' := pods[i];
      } else {
        ExtraneousMayGo(w0, api.w, t, pods, i, pod, failed);
        var fine := RemoveExtraneous(pods[i]);
        if !fine { ok, failed' := false, failed + {pods[i].key}; }
      }
      OneMoreReduced(w0, old(api.w), api.w, t, pods, i, pod.key, pod'.key, failed, failed');
    }

    /** Records what the picked Pod is doing. */
    method Decide(test: Obj<Test>, pod: Obj<Pod>) returns (ok: bool)
      requires api.Valid() && test.key.kind == TestKind && Live(api.w, test.key)
      requires test.key in api.w.tests && test.body == api.w.tests[test.key]
      requires !test.body.phase.IsFinal() && test.body.phase != TestUnset
      requires ChildOf(api.w, pod.key, test.key) && pod.key in api.w.pods && pod.body == api.w.pods[pod.key]
      modifies api
      ensures api.Valid() && old(api.log) <= api.log
      ensures api.w == old(api.w).(tests := api.w.tests) && test.key in api.w.tests
      ensures ok ==> Follows(test.body.phase, pod.body.phase, api.w.tests[test.key].phase)
      ensures api.reliable ==> ok
    {
      var t := test.key;
      var r := Ok;
      match pod.body.phase {
        case PodPending =>
          if test.body.phase != TestStarting { r := api.Write(t, OfTest(TestMoves(t, TestStarting))); }
        case PodRunning =>
          if test.body.phase != TestRunning { r := api.Write(t, OfTest(TestMoves(t, TestRunning))); }
        case PodSucceeded => r := api.Write(t, OfTest(Judge(t, pod.key)));
        case PodFailed => r := api.Write(t, OfTest(Judge(t, pod.key)));
        case PodUnknown =>
      }
      ok := r == Ok;
    }

    /** Clears the marked Pods of a Test in progress and reduces the usable ones to the one picked, if any. */
    method SettlePods(t: Key, pods: seq<Obj<Pod>>) returns (pod: Option<Obj<Pod>>, ok: bool)
      requires api.Valid() && t.kind == TestKind && Stored(api.w, t) && TestInProgress(api.w, t) && Pods(api.w, t, pods)
      modifies api
      ensures api.Valid() && old(api.log) <= api.log && api.w == old(api.w).(meta := api.w.meta)
      ensures t in api.w.meta && api.w.meta[t] == old(api.w).meta[t]
      ensures ok ==> Settled(old(api.w), api.w, t, pod)
      ensures api.reliable ==> ok
    {
      pod := None;
      assert WellBorn(api.w) by { api.IsReachable(); }
      assert t !in KeysOf(pods);
      if |pods| == 0 { return None, true; }
      var cleared, fine, failed := ClearMarked(t, pods);
      var kept := KeepUsable(cleared);
      if !fine { return None, false; }
      KeptReducible(old(api.w), api.w, t, pods, cleared);
      if |kept| == 0 {
        NoneUsable(old(api.w), api.w, t, pods, cleared);
        return None, true;
      }
      ghost var before := api.w;
      var p, done, failed' := Reduce(t, kept);
      if !done { return None, false; }
      PickedIsOnly(old(api.w), before, api.w, t, pods, cleared);
      return Some(p), true;
    }

    /** Brings the Pods of a Test in progress down to one, or creates it, and follows it. */
    method IsRunning(test: Obj<Test>, pods: seq<Obj<Pod>>) returns (ok: bool)
      requires api.Valid() && test.key.kind == TestKind && Live(api.w, test.key)
      requires Holds(api.w, test.key, TestController)
      requires test.key in api.w.tests && test.body == api.w.tests[test.key] && Pods(api.w, test.key, pods)
      requires !test.body.phase.IsFinal() && test.body.phase != TestUnset
      modifies api
      ensures api.Valid() && old(api.log) <= api.log
      ensures ok ==> Stepped(old(api.w), api.w, test.key)
      ensures test.key in api.w.meta && api.w.meta[test.key] == old(api.w).meta[test.key]
      ensures api.reliable ==> ok
    {
      var t := test.key;
      var pod := ChoosePod(t, pods);
      if pod.None? { return false; }
      ghost var before := api.w;
      ok := Decide(test, pod.value);
      if ok { SteppedBy(old(api.w), before, api.w, t, pod.value.key); }
    }

    /** The Pod that decides, created if there is none. */
    method ChoosePod(t: Key, pods: seq<Obj<Pod>>) returns (pod: Option<Obj<Pod>>)
      requires api.Valid() && t.kind == TestKind && Live(api.w, t) && Holds(api.w, t, TestController)
      requires TestInProgress(api.w, t) && api.w.tests[t].phase != TestUnset && Pods(api.w, t, pods)
      modifies api
      ensures api.Valid() && old(api.log) <= api.log && api.w.tests == old(api.w).tests && Live(api.w, t)
      ensures t in api.w.meta && api.w.meta[t] == old(api.w).meta[t]
      ensures pod.Some? ==> Picked(old(api.w), api.w, t, pod.value.key) && pod.value.body == api.w.pods[pod.value.key]
      ensures api.reliable ==> pod.Some?
    {
      assert WellBorn(api.w) by { api.IsReachable(); }
      var fine;
      pod, fine := SettlePods(t, pods);
      if !fine { return None; }
      if pod.None? {
        ghost var settled := api.w;
        pod := CreateThePod(t);
        if pod.Some? { NewIsPicked(old(api.w), settled, api.w, t, pod.value); }
      }
    }

    method CreateThePod(t: Key) returns (pod: Option<Obj<Pod>>)
      requires api.Valid() && t.kind == TestKind && Live(api.w, t) && Holds(api.w, t, TestController)
      requires TestInProgress(api.w, t) && api.w.tests[t].phase != TestUnset && NoLivePod(api.w, t)
      modifies api
      ensures api.Valid() && old(api.log) <= api.log && api.w.tests == old(api.w).tests && Live(api.w, t)
      ensures t in api.w.meta && api.w.meta[t] == old(api.w).meta[t]
      ensures pod.Some? ==> NewPod(old(api.w), api.w, t, pod.value)
      ensures api.reliable ==> pod.Some?
    {
      var k := api.Generate(PodKind, t.name + "-");
      var r := api.Write(t, OfTest(CreatePod(k, t)));
      if r != Ok { return None; }
      return Some(Obj(k, Meta([TestController], false), Pod(PodPending)));
    }

    /** Clears the marked Pods of a final Test, and removes all of them if the retention policy says so. */
    method IsComplete(test: Obj<Test>, pods: seq<Obj<Pod>>) returns (ok: bool)
      requires api.Valid() && test.key.kind == TestKind && Live(api.w, test.key)
      requires test.key in api.w.tests && test.body == api.w.tests[test.key] && Pods(api.w, test.key, pods)
      requires test.body.phase.IsFinal()
      modifies api
      ensures api.Valid() && old(api.log) <= api.log
      ensures ok ==> PodsRetained(old(api.w), api.w, test.key)
      ensures test.key in api.w.meta && api.w.meta[test.key] == old(api.w).meta[test.key]
      ensures api.reliable ==> ok
    {
      var t := test.key;
      assert t !in KeysOf(pods);
      var cleared, fine, failed := ClearMarked(t, pods);
      if !fine { return false; }
      assert pods[..|pods|] == pods;
      ok := true;
      if test.body.retention == Never || (test.body.retention == OnFailure && test.body.phase == TestPassed) {
        ok, failed := RemovePods(t, pods, cleared, old(api.w));
      } else {
        ClearedIsRetained(old(api.w), api.w, t, pods);
      }
    }

    /** Cleans up all Pods of a Test whose policy does not keep them, going on past failures. */
    method RemovePods(t: Key, pods: seq<Obj<Pod>>, cleared: seq<Obj<Pod>>, ghost w0: World)
      returns (ok: bool, ghost failed: set<Key>)
      requires api.Valid() && t.kind == TestKind && Pods(w0, t, pods) && AllCleared(pods, cleared)
      requires MarkedCleared(w0, api.w, pods, |pods|) && Stored(api.w, t) && Purges(api.w, t)
      modifies api
      ensures api.Valid() && old(api.log) <= api.log
      ensures t in api.w.meta && api.w.meta[t] == old(api.w).meta[t]
      ensures ok ==>
                forall c :: c in w0.meta && ChildOf(w0, c, t) && c.kind == PodKind ==>
                  Swept(w0, api.w, c, TestController)
      ensures SweptSoFar(w0, api.w, pods, |pods|, failed) && (ok <==> failed == {})
      ensures api.faults == old(api.faults) + |failed|
      ensures api.reliable ==> ok
    {
      ok, failed := true, {};
      assert pods[..|pods|] == pods;
      assert t !in KeysOf(pods);
      forall j | 0 <= j < |pods| ensures ReducibleOne(api.w, t, Cleared(pods[j])) {
        ClearedReducible(w0, api.w, t, pods[j]);
      }
      for i := 0 to |cleared|
        invariant api.Valid() && old(api.log) <= api.log
        invariant PurgeUnderway(old(api.w), api.w, t, pods, i)
        invariant SweptSoFar(w0, api.w, pods, i, failed) && (ok <==> failed == {})
        invariant api.faults == old(api.faults) + |failed|
        invariant api.reliable ==> ok
      {
        assert PodOf(w0, t, pods[i]);
        ok, failed := PurgeOne(t, pods, i, cleared[i], ok, old(api.w), w0, failed);
      }
      if ok { AllSwept(w0, api.w, t, pods); }
    }

    /** One turn of that loop. */
    method PurgeOne(t: Key, ghost pods: seq<Obj<Pod>>, ghost i: nat, o: Obj<Pod>, soFar: bool, ghost w1: World,
        ghost w0: World, ghost failed: set<Key>)
      returns (ok: bool, ghost failed': set<Key>)
      requires api.Valid() && t.kind == TestKind && i < |pods| && o == Cleared(pods[i]) && KeysDiffer(pods)
      requires Stored(w1, t) && Purges(w1, t) && t !in KeysOf(pods) && PurgeUnderway(w1, api.w, t, pods, i)
      requires pods[i].key in w0.meta && pods[i].meta == w0.meta[pods[i].key]
      requires SweptSoFar(w0, api.w, pods, i, failed) && (soFar <==> failed == {})
      modifies api
      ensures api.Valid() && old(api.log) <= api.log
      ensures PurgeUnderway(w1, api.w, t, pods, i + 1)
      ensures SweptSoFar(w0, api.w, pods, i + 1, failed') && (ok <==> failed' == {})
      ensures api.faults - old(api.faults) == |failed'| - |failed|
      ensures api.reliable && soFar ==> ok
    {
      assert o.key !in failed && |failed + {o.key}| == |failed| + 1;
      var fine := PurgePod(t, pods, i, o, w1);
      ok, failed' := soFar && fine, if fine then failed else failed + {o.key};
      OneMoreSwept(w0, old(api.w), api.w, pods, i, failed, failed');
    }

    /** Cleans up one Pod of a Test whose policy does not keep them. */
    method PurgePod(t: Key, ghost pods: seq<Obj<Pod>>, ghost i: nat, o: Obj<Pod>, ghost w1: World) returns (ok: bool)
      requires api.Valid() && t.kind == TestKind && i < |pods| && o == Cleared(pods[i]) && KeysDiffer(pods)
      requires Stored(w1, t) && Purges(w1, t) && t !in KeysOf(pods) && PurgeUnderway(w1, api.w, t, pods, i)
      modifies api
      ensures api.Valid() && old(api.log) <= api.log
      ensures OnlyMeta(old(api.w), api.w, {o.key}) && PurgeUnderway(w1, api.w, t, pods, i + 1)
      ensures ok ==> SweptIfStored(old(api.w), api.w, o.key)
      ensures api.faults == old(api.faults) + if ok then 0 else 1
      ensures api.reliable ==> ok
    {
      MayPurge(w1, api.w, t, pods, i);
      var m, err := CleanUp(api, TestController, o);
      ok := err == Ok;
      NextPurged(w1, old(api.w), api.w, t, pods, i);
    }

    /** Removes the Pods of a deleted Test and, once all of them are on their way, lets the Test go. */
    method IsDeleted(test: Obj<Test>, pods: seq<Obj<Pod>>) returns (ok: bool)
      requires api.Valid() && test.key.kind == TestKind && Deleting(api.w, test.key)
      requires test.meta == api.w.meta[test.key] && Pods(api.w, test.key, pods)
      modifies api
      ensures api.Valid() && old(api.log) <= api.log
      ensures api.reliable ==> ok && Dismantled(old(api.w), api.w, test.key)
    {
      var t := test.key;
      assert t !in KeysOf(pods);
      forall i | 0 <= i < |pods|
        ensures Cleanable(api.w, pods[i], TestController) && StandingReason(api.w, pods[i].key, t)
      {
        assert PodOf(api.w, t, pods[i]);
      }
      assert WellBorn(api.w) && NoneLingers(api.w) by { api.IsReachable(); }
      var modified, fine, failed := CleanUpAll(api, TestController, pods, t);
      if !fine { return false; }
      PodsSweptReleasable(old(api.w), api.w, t, pods);
      ghost var before := api.w;
      var patched, err, _ := RemoveFinalizer(api, TestController, test);
      if err == Ok { LetGo(old(api.w), before, api.w, t, pods); }
      return true;
    }

    /** One reconciliation of a Test. */
    method Reconcile(t: Key) returns (ok: bool)
      requires api.Valid() && t.kind == TestKind
      modifies api
      ensures api.Valid() && old(api.log) <= api.log
      ensures t !in old(api.w).meta ==> api.w == old(api.w)
      ensures api.reliable && Deleting(old(api.w), t) ==> ok && Dismantled(old(api.w), api.w, t)
      ensures Live(old(api.w), t) && ok ==> Holds(api.w, t, TestController)
      ensures Live(old(api.w), t) && TestInProgress(old(api.w), t) && ok ==> Stepped(old(api.w), api.w, t)
      ensures Live(old(api.w), t) && !TestInProgress(old(api.w), t) && ok ==> PodsRetained(old(api.w), api.w, t)
      ensures api.reliable ==> ok
    {
      if t !in api.w.meta { return true; }
      assert t in api.w.tests by {
        api.IsReachable();
        assert HasBody(api.w, t);
      }
      var test := Obj(t, api.w.meta[t], api.w.tests[t]);
      var pods := ListPods(t);
      if test.meta.deleting {
        ok := IsDeleted(test, pods);
        return;
      }
      ok := IsLive(test, pods);
    }

    /** Makes sure that a live Test has the finalizer and a phase. */
    method Prepare(test: Obj<Test>) returns (o: Obj<Test>, ok: bool)
      requires api.Valid() && test.key.kind == TestKind && Live(api.w, test.key) && test.meta == api.w.meta[test.key]
      requires test.key in api.w.tests && test.body == api.w.tests[test.key]
      modifies api
      ensures api.Valid() && old(api.log) <= api.log
      ensures ok ==>
                && Prepared(old(api.w), api.w, test.key) && Live(api.w, test.key)
                && Holds(api.w, test.key, TestController)
                && o.key == test.key && o.body == api.w.tests[test.key]
      ensures api.reliable ==> ok
    {
      var patched, err: Reply;
      patched, err, o := AddFinalizer(api, TestController, test);
      if err != Ok { return o, false; }
      o, ok := Queue(o);
    }

    /** Gives a Test without a phase its first one. */
    method Queue(test: Obj<Test>) returns (o: Obj<Test>, ok: bool)
      requires api.Valid() && Live(api.w, test.key) && test.key in api.w.tests && test.body == api.w.tests[test.key]
      modifies api
      ensures api.Valid() && old(api.log) <= api.log && o.key == test.key
      ensures ok ==> o.body == test.body.(phase := Started(test.body.phase))
      ensures ok ==> api.w == old(api.w).(tests := old(api.w).tests[test.key := o.body])
      ensures api.reliable ==> ok
    {
      o, ok := test, true;
      if test.body.phase == TestUnset {
        var r := api.Write(test.key, OfTest(TestQueued(test.key)));
        ok := r == Ok;
        o := test.(body := test.body.(phase := TestPending));
      }
    }

    /** What the phase of a live Test asks for. */
    method IsLive(test: Obj<Test>, pods: seq<Obj<Pod>>) returns (ok: bool)
      requires api.Valid() && test.key.kind == TestKind && Live(api.w, test.key) && test.meta == api.w.meta[test.key]
      requires test.key in api.w.tests && test.body == api.w.tests[test.key] && Pods(api.w, test.key, pods)
      modifies api
      ensures api.Valid() && old(api.log) <= api.log
      ensures api.reliable ==> ok
      ensures ok ==> Holds(api.w, test.key, TestController)
      ensures ok && !test.body.phase.IsFinal() ==> Stepped(old(api.w), api.w, test.key)
      ensures ok && test.body.phase.IsFinal() ==> PodsRetained(old(api.w), api.w, test.key)
    {
      var t := test.key;
      assert WellBorn(api.w) by { api.IsReachable(); }
      var o, fine := Prepare(test);
      if !fine { return false; }
      ghost var before := api.w;
      PodsUnmoved(old(api.w), api.w, t, pods);
      if o.body.phase.IsFinal() {
        ok := IsComplete(o, pods);
        if ok { RetainedSince(old(api.w), before, api.w, t); }
      } else {
        ok := IsRunning(o, pods);
        if ok { SteppedSince(old(api.w), before, api.w, t); }
      }
    }
  }

  predicate HasPodBody(w: World, k: Key) { k in w.meta && k in w.pods }
}
