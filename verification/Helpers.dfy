/** The finalizer and clean-up helpers that every reconciler shares. */
module Helpers {
  import opened Prelude
  import opened Store
  import opened Invariants
  import opened Clusters

  // ----- finalizer lists

  lemma {:induction false} WithoutAppend<T(!new)>(s: seq<T>, y: T, x: T)
    ensures Without(s + [y], x) == if y == x then Without(s, x) else Without(s, x) + [y]
  {
    if s == [] {
    } else {
      WithoutAppend(s[1..], y, x);
      assert (s + [y])[1..] == s[1..] + [y];
    }
  }

  lemma {:induction false} WithoutAbsent<T(!new)>(s: seq<T>, x: T)
    requires x !in s
    ensures Without(s, x) == s
  {
    if s != [] {
      WithoutAbsent(s[1..], x);
    }
  }

  lemma WithoutTwice<T(!new)>(s: seq<T>, x: T)
    ensures Without(Without(s, x), x) == Without(s, x)
  {
    WithoutAbsent(Without(s, x), x);
  }

  /** Adding an absent finalizer and removing it again gives the list back; removing a present one changes it. */
  lemma RemoveUndoesAdd<T(!new)>(s: seq<T>, x: T)
    ensures x !in s ==> Without(s + [x], x) == s
    ensures x in s <==> Without(s, x) != s
  {
    WithoutAppend(s, x, x);
    if x !in s { WithoutAbsent(s, x); }
  }

  /** The positions of the first `n` elements that are not `x`. */
  function KeptAt<T(==)>(s: seq<T>, x: T, n: nat): (at: seq<nat>)
    requires n <= |s|
    ensures forall i :: 0 <= i < |at| ==> at[i] < n
    ensures forall i, j :: 0 <= i < j < |at| ==> at[i] < at[j]
    ensures forall k: nat :: k < n && s[k] != x ==> k in at
  {
    if n == 0 then [] else KeptAt(s, x, n - 1) + if s[n - 1] == x then [] else [n - 1]
  }

  /** What stays is what was there, in its order. */
  lemma {:induction false} WithoutKeepsOrder<T(!new)>(s: seq<T>, x: T, n: nat)
    requires n <= |s|
    ensures |Without(s[..n], x)| == |KeptAt(s, x, n)|
    ensures forall i :: 0 <= i < |KeptAt(s, x, n)| ==> Without(s[..n], x)[i] == s[KeptAt(s, x, n)[i]]
  {
    if n > 0 {
      WithoutKeepsOrder(s, x, n - 1);
      WithoutAppend(s[..n - 1], s[n - 1], x);
      assert s[..n] == s[..n - 1] + [s[n - 1]];
    }
  }

  lemma {:induction false} AllRemoved<T(!new)>(s: seq<T>, x: T)
    requires forall y :: y in s ==> y == x
    ensures Without(s, x) == []
  {
    if s != [] {
      assert s[0] in s && forall y :: y in s[1..] ==> y in s;
      AllRemoved(s[1..], x);
    }
  }

  // ----- frames

  /** Only metadata differs, and only of these objects. */
  ghost predicate OnlyMeta(w: World, w': World, ks: set<Key>) {
    && w' == w.(meta := w'.meta)
    && (forall q :: q !in ks ==> (q in w'.meta <==> q in w.meta))
    && (forall q :: q !in ks && q in w.meta ==> w'.meta[q] == w.meta[q])
    && (forall q :: q in w'.meta ==> q in w.meta)
  }

  /** What is gone or marked is left as it is. */
  ghost predicate MarkedKept(w: World, w': World) {
    forall k :: k in w.birth && !Live(w, k) ==>
      (k in w'.meta <==> k in w.meta) && (k in w.meta ==> w'.meta[k] == w.meta[k])
  }

  /** The copy lists the stored object's finalizers. */
  ghost predicate InStep<B>(w: World, o: Obj<B>) {
    o.key in w.meta ==> w.meta[o.key].finalizers == o.meta.finalizers
  }

  /** Once the object is marked, nothing stands in the way of taking `f` off it. */
  ghost predicate Releasable(w: World, k: Key, f: Finalizer) {
    && ((k.kind != SuiteKind && f == OwnersFinalizer(k.kind)) || f == OwnFinalizer(k.kind))
    && (k.kind != PodKind && f == OwnFinalizer(k.kind) ==>
          forall c :: c in w.meta && ChildOf(w, c, k) ==> MayOutlive(w, c))
  }

  // ----- addFinalizer and removeFinalizer

  /** Puts the controller's finalizer on an object that lacks it. The flag says whether the object lacked it. */
  method AddFinalizer<B>(api: Cluster, f: Finalizer, o: Obj<B>) returns (patched: bool, err: Reply, o': Obj<B>)
    requires api.Valid() && InStep(api.w, o)
    requires o.key.kind != PodKind && f == OwnFinalizer(o.key.kind)
    requires o.key in api.w.meta ==> !api.w.meta[o.key].deleting
    modifies api
    ensures api.Valid() && MetaWrites(old(api.log), api.log)
    ensures patched <==> f !in o.meta.finalizers
    ensures o' == o.(meta := o.meta.(finalizers := if patched then o.meta.finalizers + [f] else o.meta.finalizers))
    ensures err == NotFound <==> patched && o.key !in old(api.w).meta
    ensures api.reliable && o.key in old(api.w).meta ==> err == Ok
    ensures !patched ==> err == Ok
    ensures err != Ok || !patched ==> api.w == old(api.w)
    ensures err == Ok && patched ==>
              var m := old(api.w).meta;
              api.w == old(api.w).(meta := m[o.key := m[o.key].(finalizers := o'.meta.finalizers)])
  {
    patched, err, o' := true, Ok, o;
    var fs := o.meta.finalizers;
    for i := 0 to |fs|
      invariant patched <==> f !in fs[..i]
    {
      if fs[i] == f { patched := false; }
    }
    assert fs[..|fs|] == fs;
    if patched {
      o' := o.(meta := o.meta.(finalizers := fs + [f]));
      err := api.Write(o.key, All(Hold(o.key)));
    }
  }

  /** Takes every `f` off. The flag says whether there was one; the copy loses it even if the write fails. */
  method RemoveFinalizer<B>(api: Cluster, f: Finalizer, o: Obj<B>) returns (patched: bool, err: Reply, o': Obj<B>)
    requires api.Valid() && InStep(api.w, o)
    requires f in o.meta.finalizers && o.key in api.w.meta ==> MayRelease(api.w, o.key, f)
    modifies api
    ensures api.Valid() && MetaWrites(old(api.log), api.log)
    ensures patched <==> f in o.meta.finalizers
    ensures o' == o.(meta := o.meta.(finalizers := Without(o.meta.finalizers, f)))
    ensures err == NotFound <==> patched && o.key !in old(api.w).meta
    ensures api.reliable && o.key in old(api.w).meta ==> err == Ok
    ensures !patched ==> err == Ok
    ensures api.faults == old(api.faults) + if err == Error then 1 else 0
    ensures err != Ok || !patched ==> api.w == old(api.w)
    ensures err == Ok && patched ==>
              o.key in old(api.w).meta && api.w == old(api.w).(meta := TakeOff(old(api.w).meta, o.key, f))
  {
    err, o' := Ok, o;
    var left;
    left, patched := Filter(o.meta.finalizers, f);
    if patched {
      o' := o.(meta := o.meta.(finalizers := left));
      err := api.Write(o.key, All(Release(o.key, f)));
    } else {
      WithoutAbsent(o.meta.finalizers, f);
    }
  }

  /** The finalizers other than `f`, in their order, and whether `f` was among them. */
  method Filter(fs: seq<Finalizer>, f: Finalizer) returns (left: seq<Finalizer>, found: bool)
    ensures left == Without(fs, f) && (found <==> f in fs)
  {
    left, found := [], false;
    for i := 0 to |fs|
      invariant found <==> f in fs[..i]
      invariant left == Without(fs[..i], f)
    {
      WithoutAppend(fs[..i], fs[i], f);
      assert fs[..i + 1] == fs[..i] + [fs[i]];
      if fs[i] == f { found := true; } else { left := left + [fs[i]]; }
    }
    assert fs[..|fs|] == fs;
  }

  // ----- cleanUp and cleanUpAll

  function IgnoreNotFound(r: Reply): Reply { if r == NotFound then Ok else r }

  /** Marked, without `f`, and gone unless another finalizer holds it. */
  ghost predicate Swept(w: World, w': World, k: Key, f: Finalizer) {
    k in w.meta && if Without(w.meta[k].finalizers, f) == [] then k !in w'.meta
    else k in w'.meta && w'.meta[k] == Meta(Without(w.meta[k].finalizers, f), true)
  }

  /** Not swept, but at most marked. */
  ghost predicate AtMostMarked(w: World, w': World, k: Key) {
    && k in w.meta && k in w'.meta && w'.meta[k].finalizers == w.meta[k].finalizers
    && (w.meta[k].deleting ==> w'.meta[k].deleting)
  }

  /** The delete call of the API. */
  method Remove(api: Cluster, k: Key) returns (r: Reply)
    requires api.Valid() && (k in api.w.meta ==> MayDelete(api.w, k))
    modifies api
    ensures api.Valid() && MetaWrites(old(api.log), api.log)
    ensures r == NotFound <==> k !in old(api.w).meta
    ensures api.reliable && k in old(api.w).meta ==> r == Ok
    ensures api.faults == old(api.faults) + if r == Error then 1 else 0
    ensures r != Ok ==> api.w == old(api.w)
    ensures r == Ok ==> k in old(api.w).meta && api.w == old(api.w).(meta := MarkDeleted(old(api.w).meta, k))
  {
    r := api.Write(k, All(Delete(k)));
  }

  ghost predicate MarkedMeta(m: map<Key, Meta>, k: Key, m': map<Key, Meta>) {
    m' == if k in m && !m[k].deleting then MarkDeleted(m, k) else m
  }

  lemma ReleasableOnceMarked(w: World, w': World, k: Key, f: Finalizer)
    requires Releasable(w, k, f) && w' == w.(meta := w'.meta) && MarkedMeta(w.meta, k, w'.meta) && k in w'.meta
    ensures MayRelease(w', k, f)
  {
    forall c | c in w'.meta && ChildOf(w', c, k) && k.kind != PodKind && f == OwnFinalizer(k.kind)
      ensures MayOutlive(w', c)
    {
      assert c in w.meta && ChildOf(w, c, k);
    }
  }

  lemma SweptInTwo(w: World, w1: World, w2: World, k: Key, f: Finalizer)
    requires NoneLingers(w) && k in w.meta
    requires w1 == w.(meta := w1.meta) && MarkedMeta(w.meta, k, w1.meta)
    requires w2 == if f in w.meta[k].finalizers && k in w1.meta then w1.(meta := TakeOff(w1.meta, k, f)) else w1
    ensures OnlyMeta(w, w2, {k}) && Swept(w, w2, k, f)
    ensures w2.meta == w.meta <==> w.meta[k].deleting && f !in w.meta[k].finalizers
  {
    if f !in w.meta[k].finalizers {
      WithoutAbsent(w.meta[k].finalizers, f);
    }
    assert Without(w.meta[k].finalizers, f) == w.meta[k].finalizers ==> f !in w.meta[k].finalizers;
  }

  /**
   Deletes an object and takes `f` off it. An object that is already gone is no error when the delete
   finds that out; it is one when the patch does.
   */
  method CleanUp<B>(api: Cluster, f: Finalizer, o: Obj<B>) returns (modified: bool, err: Reply)
    requires api.Valid() && InStep(api.w, o) && Releasable(api.w, o.key, f)
    requires o.key in api.w.meta ==> api.w.meta[o.key].deleting == o.meta.deleting
    requires Live(api.w, o.key) ==> MayDelete(api.w, o.key)
    modifies api
    ensures api.Valid() && MetaWrites(old(api.log), api.log)
    ensures OnlyMeta(old(api.w), api.w, {o.key})
    ensures o.key in old(api.w).meta && err == Ok ==> Swept(old(api.w), api.w, o.key, f)
    ensures o.key in old(api.w).meta && err != Ok ==> AtMostMarked(old(api.w), api.w, o.key)
    ensures o.key !in old(api.w).meta ==> (err == Ok <==> !o.meta.deleting || f !in o.meta.finalizers)
    ensures err == NotFound ==> o.key !in old(api.w).meta
    ensures api.faults == old(api.faults) + if err == Error then 1 else 0
    ensures modified <==> api.w.meta != old(api.w).meta
    ensures api.reliable && o.key in old(api.w).meta ==> err == Ok
  {
    assert NoneLingers(api.w) by { api.IsReachable(); }
    modified := false;
    if !o.meta.deleting {
      var r := Remove(api, o.key);
      if r == Ok { modified := true; } else { return false, IgnoreNotFound(r); }
    }
    ghost var marked := api.w;
    if o.key in api.w.meta { ReleasableOnceMarked(old(api.w), api.w, o.key, f); }
    var patched, e, _ := RemoveFinalizer(api, f, o);
    if e != Ok { return modified, e; }
    if o.key in old(api.w).meta { SweptInTwo(old(api.w), marked, api.w, o.key, f); }
    modified := modified || patched;
    return modified, Ok;
  }

  ghost function KeysOf<B>(objs: seq<Obj<B>>): (ks: set<Key>)
    ensures forall k :: k in ks <==> exists i :: 0 <= i < |objs| && objs[i].key == k
  {
    set i | 0 <= i < |objs| :: objs[i].key
  }

  ghost predicate KeysDiffer<B>(objs: seq<Obj<B>>) {
    forall i, j :: 0 <= i < j < |objs| ==> objs[i].key != objs[j].key
  }

  /** A reason to delete a child that outlives the deletion of its siblings. */
  ghost predicate StandingReason(w: World, k: Key, p: Key) {
    && ChildOf(w, k, p) && Stored(w, p)
    && (|| Deleting(w, p)
        || Purges(w, p)
        || (k.kind == RunKind && p in w.suites && !SuiteIsRunning(w, p) && k in w.runs && w.runs[k].phase.IsFinal()))
  }

  lemma StandingReasonStands(w: World, w': World, k: Key, p: Key, ks: set<Key>)
    requires StandingReason(w, k, p) && OnlyMeta(w, w', ks) && p !in ks
    ensures StandingReason(w', k, p)
    ensures Live(w', k) ==> MayDelete(w', k)
  {
    assert Purges(w', p) == Purges(w, p);
    assert ReasonToDelete(w', k, p);
  }

  /** A copy just read from the store, of an object that its owner's controller may clear. */
  ghost predicate Cleanable<B>(w: World, o: Obj<B>, f: Finalizer) {
    && o.key in w.meta && o.meta == w.meta[o.key]
    && o.key.kind != SuiteKind && f == OwnersFinalizer(o.key.kind)
  }

  /** The first `n` objects have been attempted: each is swept, or failed and is at most marked. */
  ghost predicate Attempted<B>(w: World, w': World, objs: seq<Obj<B>>, n: nat, f: Finalizer, failed: set<Key>)
    requires n <= |objs|
  {
    && OnlyMeta(w, w', KeysOf(objs[..n])) && failed <= KeysOf(objs[..n])
    && forall i :: 0 <= i < n ==> AttemptedOne(w, w', objs[i].key, f, failed)
  }

  ghost predicate AttemptedOne(w: World, w': World, k: Key, f: Finalizer, failed: set<Key>) {
    if k in failed then AtMostMarked(w, w', k) else Swept(w, w', k, f)
  }

  /** Cleans up every object, going on past the ones that fail. */
  method CleanUpAll<B>(api: Cluster, f: Finalizer, objs: seq<Obj<B>>, ghost p: Key)
    returns (modified: bool, ok: bool, ghost failed: set<Key>)
    requires api.Valid() && KeysDiffer(objs) && p !in KeysOf(objs)
    requires forall i :: 0 <= i < |objs| ==> Cleanable(api.w, objs[i], f) && StandingReason(api.w, objs[i].key, p)
    modifies api
    ensures api.Valid() && MetaWrites(old(api.log), api.log)
    ensures Attempted(old(api.w), api.w, objs, |objs|, f, failed)
    ensures ok <==> failed == {}
    ensures api.faults == old(api.faults) + |failed|
    ensures modified <==> api.w.meta != old(api.w).meta
    ensures api.reliable ==> ok
  {
    modified, ok, failed := false, true, {};
    for i := 0 to |objs|
      invariant api.Valid() && MetaWrites(old(api.log), api.log)
      invariant Attempted(old(api.w), api.w, objs, i, f, failed)
      invariant ok <==> failed == {}
      invariant api.faults == old(api.faults) + |failed|
      invariant modified <==> api.w.meta != old(api.w).meta
      invariant api.reliable ==> ok
    {
      NextIsUntouched(old(api.w), api.w, objs, i, f, failed, p);
      assert objs[i].key !in KeysOf(objs[..i]);
      ghost var before := api.w;
      var m, err := CleanUp(api, f, objs[i]);
      modified := modified || m;
      OneMoreAttempted(old(api.w), before, api.w, objs, i, f, failed, err == Ok);
      ChangesAddUp(old(api.w), before, api.w, KeysOf(objs[..i]), objs[i].key);
      if err != Ok {
        ok, failed := false, failed + {objs[i].key};
      }
    }
  }

  lemma NextIsUntouched<B>(w: World, w': World, objs: seq<Obj<B>>, i: nat, f: Finalizer, failed: set<Key>, p: Key)
    requires i < |objs| && KeysDiffer(objs) && p !in KeysOf(objs) && Attempted(w, w', objs, i, f, failed)
    requires Cleanable(w, objs[i], f) && StandingReason(w, objs[i].key, p)
    ensures Cleanable(w', objs[i], f) && Releasable(w', objs[i].key, f)
    ensures Live(w', objs[i].key) ==> MayDelete(w', objs[i].key)
  {
    assert objs[i].key !in KeysOf(objs[..i]);
    assert p !in KeysOf(objs[..i]) by {
      assert forall k :: k in KeysOf(objs[..i]) ==> k in KeysOf(objs);
    }
    StandingReasonStands(w, w', objs[i].key, p, KeysOf(objs[..i]));
  }

  lemma ChangesAddUp(w0: World, w1: World, w2: World, ks: set<Key>, k: Key)
    requires OnlyMeta(w0, w1, ks) && OnlyMeta(w1, w2, {k}) && k !in ks
    ensures w2.meta != w0.meta <==> w1.meta != w0.meta || w2.meta != w1.meta
  {
    if w2.meta == w0.meta {
      forall q ensures (q in w1.meta <==> q in w0.meta) && (q in w0.meta ==> w1.meta[q] == w0.meta[q]) {
        assert q == k || q !in {k};
      }
      assert w1.meta == w0.meta;
    }
  }

  lemma OneMoreAttempted<B>(w0: World, w1: World, w2: World, objs: seq<Obj<B>>, i: nat, f: Finalizer,
      failed: set<Key>, done: bool)
    requires i < |objs| && KeysDiffer(objs) && objs[i].key in w0.meta
    requires Attempted(w0, w1, objs, i, f, failed) && OnlyMeta(w1, w2, {objs[i].key})
    requires if done then Swept(w1, w2, objs[i].key, f) else AtMostMarked(w1, w2, objs[i].key)
    ensures Attempted(w0, w2, objs, i + 1, f, if done then failed else failed + {objs[i].key})
  {
    var failed' := if done then failed else failed + {objs[i].key};
    NotYetSeen(objs, i);
    OnlyMetaGrows(w0, w1, w2, objs, i);
    KeysOfNext(objs, i);
    forall j | 0 <= j <= i ensures AttemptedOne(w0, w2, objs[j].key, f, failed') {
      OneAttempted(w0, w1, w2, objs, i, j, f, failed, failed');
    }
  }

  lemma OneAttempted<B>(w0: World, w1: World, w2: World, objs: seq<Obj<B>>, i: nat, j: nat, f: Finalizer,
                        failed: set<Key>, failed': set<Key>)
    requires j <= i < |objs| && KeysDiffer(objs) && objs[i].key in w0.meta && objs[i].key !in KeysOf(objs[..i])
    requires Attempted(w0, w1, objs, i, f, failed) && OnlyMeta(w1, w2, {objs[i].key})
    requires failed <= failed' <= failed + {objs[i].key} && AttemptedOne(w1, w2, objs[i].key, f, failed')
    ensures AttemptedOne(w0, w2, objs[j].key, f, failed')
  {
    var k := objs[i].key;
    if j < i {
      assert AttemptedOne(w0, w1, objs[j].key, f, failed);
      AttemptStays(w0, w1, w2, objs[j].key, k, f, failed, failed');
    } else {
      AttemptStarts(w0, w1, w2, k, f, failed');
    }
  }

  lemma AttemptStays(w0: World, w1: World, w2: World, q: Key, k: Key, f: Finalizer, failed: set<Key>, failed': set<Key>)
    requires AttemptedOne(w0, w1, q, f, failed) && OnlyMeta(w1, w2, {k}) && q != k && failed <= failed' <= failed + {k}
    ensures AttemptedOne(w0, w2, q, f, failed')
  {
  }

  lemma AttemptStarts(w0: World, w1: World, w2: World, k: Key, f: Finalizer, failed: set<Key>)
    requires k in w0.meta && k in w1.meta && w1.meta[k] == w0.meta[k] && AttemptedOne(w1, w2, k, f, failed)
    ensures AttemptedOne(w0, w2, k, f, failed)
  {
  }

  /** Taking `f` off a marked object sweeps it. */
  lemma TakeOffSweeps(w: World, w': World, k: Key, f: Finalizer)
    requires NoneLingers(w) && Deleting(w, k)
    requires w' == if f in w.meta[k].finalizers then w.(meta := TakeOff(w.meta, k, f)) else w
    ensures OnlyMeta(w, w', {k}) && Swept(w, w', k, f)
  {
    if f !in w.meta[k].finalizers { WithoutAbsent(w.meta[k].finalizers, f); }
  }

  lemma KeysOfOneMore<B>(gone: seq<Obj<B>>, o: Obj<B>)
    ensures KeysOf(gone + [o]) == KeysOf(gone) + {o.key}
  {
    assert (gone + [o])[|gone|] == o;
    forall k | k in KeysOf(gone) ensures k in KeysOf(gone + [o]) {
      var i :| 0 <= i < |gone| && gone[i].key == k;
      assert (gone + [o])[i].key == k;
    }
  }

  lemma OnlyMetaGrows<B>(w0: World, w1: World, w2: World, objs: seq<Obj<B>>, i: nat)
    requires i < |objs| && OnlyMeta(w0, w1, KeysOf(objs[..i])) && OnlyMeta(w1, w2, {objs[i].key})
    ensures OnlyMeta(w0, w2, KeysOf(objs[..i + 1]))
  {
    KeysOfNext(objs, i);
  }

  lemma KeysOfNext<B>(objs: seq<Obj<B>>, i: nat)
    requires i < |objs|
    ensures KeysOf(objs[..i + 1]) == KeysOf(objs[..i]) + {objs[i].key}
  {
    assert objs[..i + 1] == objs[..i] + [objs[i]];
    KeysOfOneMore(objs[..i], objs[i]);
  }

  lemma NotYetSeen<B>(objs: seq<Obj<B>>, i: nat)
    requires i < |objs| && KeysDiffer(objs)
    ensures objs[i].key !in KeysOf(objs[..i])
  {
  }
}
