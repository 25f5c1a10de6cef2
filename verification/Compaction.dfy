/**
 The pass that the suite and run reconcilers make over their list of children: clear the owner's
 finalizer from deleted ones and close the gaps with live ones from the end.

 As written, a deleted entry met while searching from the end is dropped but not released;
 the entry whose gap is being closed is released again instead.
 */
module Compaction {
  import opened Store
  import opened Invariants
  import opened Clusters
  import opened Helpers

  /** Where the deleted entries at the end of the first `n` begin. */
  function LiveEnd<B>(s: seq<Obj<B>>, n: nat): (m: nat)
    requires n <= |s|
    ensures m <= n && (m > 0 ==> !s[m - 1].meta.deleting)
    ensures forall i :: m <= i < n ==> s[i].meta.deleting
  {
    if n == 0 || !s[n - 1].meta.deleting then n else LiveEnd(s, n - 1)
  }

  /** The list without the deleted entries at its end. */
  function TrimEnd<B>(s: seq<Obj<B>>): (r: seq<Obj<B>>)
    ensures r <= s && (r != [] ==> !r[|r| - 1].meta.deleting)
    ensures forall i :: |r| <= i < |s| ==> s[i].meta.deleting
  {
    s[..LiveEnd(s, |s|)]
  }

  /** What the pass leaves of the list. */
  function Compacted<B>(s: seq<Obj<B>>): seq<Obj<B>>
    decreases |s|
  {
    if s == [] then []
    else if !s[0].meta.deleting then [s[0]] + Compacted(s[1..])
    else
      var t := TrimEnd(s[1..]);
      if t == [] then [] else [t[|t| - 1]] + Compacted(t[..|t| - 1])
  }

  /** The entries whose finalizer the pass clears, in that order. */
  function Released<B>(s: seq<Obj<B>>): seq<Obj<B>>
    decreases |s|
  {
    if s == [] then []
    else if !s[0].meta.deleting then Released(s[1..])
    else
      var t := TrimEnd(s[1..]);
      [s[0]] + if t == [] then [] else Released(t[..|t| - 1])
  }

  function Survivors<B>(s: seq<Obj<B>>): seq<Obj<B>> {
    if s == [] then [] else (if s[0].meta.deleting then [] else [s[0]]) + Survivors(s[1..])
  }

  // ----- what the pass means

  lemma {:induction false} SurvivorsAppend<B>(s: seq<Obj<B>>, t: seq<Obj<B>>)
    ensures Survivors(s + t) == Survivors(s) + Survivors(t)
  {
    if s == [] {
      assert s + t == t;
    } else {
      SurvivorsAppend(s[1..], t);
      assert (s + t)[0] == s[0] && (s + t)[1..] == s[1..] + t;
      var first := if s[0].meta.deleting then [] else [s[0]];
      assert first + Survivors(s[1..]) + Survivors(t) == first + (Survivors(s[1..]) + Survivors(t));
    }
  }

  lemma {:induction false} NoSurvivors<B>(s: seq<Obj<B>>)
    requires forall i :: 0 <= i < |s| ==> s[i].meta.deleting
    ensures Survivors(s) == []
  {
    if s != [] { NoSurvivors(s[1..]); }
  }

  lemma TrimKeepsSurvivors<B>(s: seq<Obj<B>>)
    ensures Survivors(TrimEnd(s)) == Survivors(s)
  {
    var t := TrimEnd(s);
    assert s == t + s[|t|..];
    SurvivorsAppend(t, s[|t|..]);
    NoSurvivors(s[|t|..]);
  }

  /** The pass leaves exactly the live entries. */
  lemma {:induction false} CompactedAreSurvivors<B>(s: seq<Obj<B>>)
    ensures multiset(Compacted(s)) == multiset(Survivors(s))
    decreases |s|
  {
    if s == [] {
    } else if !s[0].meta.deleting {
      CompactedAreSurvivors(s[1..]);
    } else {
      var t := TrimEnd(s[1..]);
      TrimKeepsSurvivors(s[1..]);
      if t != [] {
        var u := t[..|t| - 1];
        CompactedAreSurvivors(u);
        SurvivorsAppend(u, [t[|t| - 1]]);
        assert t == u + [t[|t| - 1]];
        assert Survivors([t[|t| - 1]]) == [t[|t| - 1]];
      }
    }
  }

  /** Live entries in front of a gap stay where they are. */
  lemma {:induction false} CompactedInPlace<B>(s: seq<Obj<B>>, p: nat)
    ensures |Compacted(s)| <= |s|
    ensures p < |Compacted(s)| && !s[p].meta.deleting ==> Compacted(s)[p] == s[p]
    decreases |s|
  {
    if s == [] {
    } else if !s[0].meta.deleting {
      CompactedInPlace(s[1..], if p > 0 then p - 1 else 0);
    } else {
      var t := TrimEnd(s[1..]);
      if t != [] {
        CompactedInPlace(t[..|t| - 1], if p > 0 then p - 1 else 0);
      }
    }
  }

  lemma {:induction false} SurvivorsAreLive<B>(s: seq<Obj<B>>, o: Obj<B>)
    ensures o in Survivors(s) <==> o in s && !o.meta.deleting
  {
    if s != [] {
      SurvivorsAreLive(s[1..], o);
      assert s == [s[0]] + s[1..];
    }
  }

  lemma CompactedMembers<B>(s: seq<Obj<B>>, o: Obj<B>)
    ensures o in Compacted(s) <==> o in s && !o.meta.deleting
  {
    CompactedAreSurvivors(s);
    SurvivorsAreLive(s, o);
    assert o in Compacted(s) <==> o in multiset(Compacted(s));
    assert o in Survivors(s) <==> o in multiset(Survivors(s));
  }

  /** Everything released is a deleted entry of the list. */
  lemma {:induction false} ReleasedAreDeleted<B>(s: seq<Obj<B>>)
    ensures forall i :: 0 <= i < |Released(s)| ==> Released(s)[i].meta.deleting && Released(s)[i] in s
    decreases |s|
  {
    if s == [] {
    } else if !s[0].meta.deleting {
      ReleasedAreDeleted(s[1..]);
      assert forall o :: o in s[1..] ==> o in s;
    } else {
      var t := TrimEnd(s[1..]);
      if t != [] {
        ReleasedAreDeleted(t[..|t| - 1]);
        assert forall o :: o in t[..|t| - 1] ==> o in s[1..];
        assert forall o :: o in s[1..] ==> o in s;
      }
    }
  }

  /** The first deleted entry is released, wherever it stands. */
  lemma {:induction false} FirstDeletedIsReleased<B>(s: seq<Obj<B>>, d: nat)
    requires d < |s| && s[d].meta.deleting && forall i :: 0 <= i < d ==> !s[i].meta.deleting
    ensures s[d] in Released(s)
  {
    if d > 0 {
      FirstDeletedIsReleased(s[1..], d - 1);
    }
  }

  lemma {:induction false} KeysDifferCompacted<B>(s: seq<Obj<B>>)
    requires KeysDiffer(s)
    ensures KeysDiffer(Compacted(s))
    decreases |s|
  {
    if s == [] {
    } else if !s[0].meta.deleting {
      KeysDifferCompacted(s[1..]);
      forall i | 0 <= i < |Compacted(s[1..])| ensures Compacted(s[1..])[i].key != s[0].key {
        CompactedMembers(s[1..], Compacted(s[1..])[i]);
      }
    } else {
      var t := TrimEnd(s[1..]);
      if t != [] {
        var u := t[..|t| - 1];
        KeysDifferCompacted(u);
        forall i | 0 <= i < |Compacted(u)| ensures Compacted(u)[i].key != t[|t| - 1].key {
          CompactedMembers(u, Compacted(u)[i]);
        }
      }
    }
  }

  // ----- the pass in place

  /** Every entry of the first list has lost `f`, and nothing else has changed. */
  ghost predicate ReleasedFrom<B>(w: World, w': World, gone: seq<Obj<B>>, f: Finalizer) {
    && OnlyMeta(w, w', KeysOf(gone))
    && forall i :: 0 <= i < |gone| ==> Swept(w, w', gone[i].key, f)
  }

  lemma OneMoreReleased<B>(w0: World, w1: World, w2: World, gone: seq<Obj<B>>, o: Obj<B>, f: Finalizer)
    requires ReleasedFrom(w0, w1, gone, f) && o.key !in KeysOf(gone) && o.key in w0.meta
    requires OnlyMeta(w1, w2, {o.key}) && Swept(w1, w2, o.key, f)
    ensures ReleasedFrom(w0, w2, gone + [o], f)
  {
    KeysOfOneMore(gone, o);
    assert w1.meta[o.key] == w0.meta[o.key];
    forall i | 0 <= i < |gone| ensures Swept(w0, w2, gone[i].key, f) {
      assert gone[i].key != o.key;
      assert Swept(w0, w1, gone[i].key, f);
    }
  }

  /** The removal that the pass makes at position `i`; a second one there finds nothing to remove. */
  method ReleaseAt<B>(api: Cluster, f: Finalizer, items: array<Obj<B>>, i: nat) returns (ok: bool)
    requires api.Valid() && i < items.Length
    requires f in items[i].meta.finalizers ==>
               Deleting(api.w, items[i].key) && InStep(api.w, items[i]) && MayRelease(api.w, items[i].key, f)
    requires f !in items[i].meta.finalizers ==> InStep(api.w, items[i])
    modifies api, items
    ensures api.Valid() && MetaWrites(old(api.log), api.log)
    ensures f !in old(items[i]).meta.finalizers ==> ok && api.w == old(api.w) && items[..] == old(items[..])
    ensures f in old(items[i]).meta.finalizers && ok ==>
              api.w == old(api.w).(meta := TakeOff(old(api.w).meta, old(items[i]).key, f))
    ensures !ok ==> api.w == old(api.w)
    ensures api.reliable ==> ok
    ensures forall k :: 0 <= k < items.Length && k != i ==> items[k] == old(items[k])
    ensures items[i].key == old(items[i]).key && f !in items[i].meta.finalizers
    ensures items[i].meta.deleting == old(items[i]).meta.deleting
    ensures ok ==> InStep(api.w, items[i])
  {
    var o := items[i];
    var patched, err, o' := RemoveFinalizer(api, f, o);
    if !patched { WithoutAbsent(o.meta.finalizers, f); }
    items[i] := o';
    ok := err == Ok;
  }

  /** A list whose entries from `m` on are all deleted, and whose entry before is not, is trimmed to length `m`. */
  lemma TrimsTo<B>(s: seq<Obj<B>>, m: nat)
    requires m <= |s| && (m > 0 ==> !s[m - 1].meta.deleting) && forall i :: m <= i < |s| ==> s[i].meta.deleting
    ensures |TrimEnd(s)| == m
  {
    var t := TrimEnd(s);
    assert forall k :: 0 <= k < |t| ==> t[k] == s[k];
  }

  /** Looks from the end for a live entry to close the gap at `i`, and returns the new end of the list. */
  method FillFromEnd<B>(api: Cluster, f: Finalizer, items: array<Obj<B>>, i: nat, j: nat) returns (j': nat, ok: bool)
    requires api.Valid() && i < j <= items.Length
    requires f !in items[i].meta.finalizers && InStep(api.w, items[i])
    modifies api, items
    ensures api.Valid() && api.w == old(api.w) && MetaWrites(old(api.log), api.log) && ok
    ensures j' == i + |TrimEnd(old(items[i + 1..j]))|
    ensures j' != i ==> items[i] == old(items[j'])
    ensures i <= j' < j && forall k :: 0 <= k < items.Length && k != i ==> items[k] == old(items[k])
  {
    ghost var was := items[..];
    ghost var s := was[i + 1..j];
    j', ok := j - 1, true;
    while i < j'
      invariant i <= j' < j && ok
      invariant api.Valid() && api.w == old(api.w) && MetaWrites(old(api.log), api.log)
      invariant items[..] == was
      invariant forall k :: j' - i <= k < |s| ==> s[k].meta.deleting
    {
      assert s[j' - i - 1] == items[j'];
      if !items[j'].meta.deleting {
        TrimsTo(s, j' - i);
        items[i] := items[j'];
        return;
      }
      ok := ReleaseAgain(api, f, items, i);
      j' := j' - 1;
    }
    TrimsTo(s, 0);
  }

  /** The first removal at a gap. */
  method ReleaseFirst<B>(api: Cluster, f: Finalizer, items: array<Obj<B>>, i: nat) returns (ok: bool)
    requires api.Valid() && i < items.Length && Cleanable(api.w, items[i], f) && items[i].meta.deleting
    requires items[i].key.kind in {RunKind, TestKind}
    modifies api, items
    ensures api.Valid() && MetaWrites(old(api.log), api.log)
    ensures ok ==> OnlyMeta(old(api.w), api.w, {old(items[i]).key}) && Swept(old(api.w), api.w, old(items[i]).key, f)
    ensures !ok ==> api.w == old(api.w)
    ensures api.reliable ==> ok
    ensures forall k :: 0 <= k < items.Length && k != i ==> items[k] == old(items[k])
    ensures f !in items[i].meta.finalizers && (ok ==> InStep(api.w, items[i]))
  {
    assert NoneLingers(api.w) by { api.IsReachable(); }
    ghost var o := items[i];
    ok := ReleaseAt(api, f, items, i);
    if ok { TakeOffSweeps(old(api.w), api.w, o.key, f); }
  }

  /** The second removal at a gap: there is nothing left to remove. */
  method ReleaseAgain<B>(api: Cluster, f: Finalizer, items: array<Obj<B>>, i: nat) returns (ok: bool)
    requires api.Valid() && i < items.Length && f !in items[i].meta.finalizers && InStep(api.w, items[i])
    modifies api, items
    ensures api.Valid() && api.w == old(api.w) && MetaWrites(old(api.log), api.log) && ok
    ensures items[..] == old(items[..])
  {
    ghost var was := items[..];
    ok := ReleaseAt(api, f, items, i);
    assert forall k :: 0 <= k < items.Length ==> items[..][k] == was[k];
  }

  /** What the pass does at a deleted entry: release it, then fill its place from the end. */
  method CloseGap<B>(api: Cluster, f: Finalizer, items: array<Obj<B>>, i: nat, j: nat) returns (j': nat, ok: bool)
    requires api.Valid() && i < j <= items.Length && Cleanable(api.w, items[i], f) && items[i].meta.deleting
    requires items[i].key.kind in {RunKind, TestKind}
    modifies api, items
    ensures api.Valid() && MetaWrites(old(api.log), api.log)
    ensures ok ==> OnlyMeta(old(api.w), api.w, {old(items[i]).key}) && Swept(old(api.w), api.w, old(items[i]).key, f)
    ensures !ok ==> api.w == old(api.w)
    ensures api.reliable ==> ok
    ensures ok ==> Filled(old(items[..]), items[..], i, j, j')
  {
    j' := j;
    ok := ReleaseFirst(api, f, items, i);
    if !ok { return; }
    assert items[i + 1..j] == old(items[i + 1..j]);
    j', ok := FillFromEnd(api, f, items, i, j);
    FilledByElements(old(items[..]), items[..], i, j, j');
  }

  /** The gap at `i` has been closed: the slice before it is as it was, and what is left of the rest follows it. */
  ghost predicate Filled<B>(s: seq<Obj<B>>, s': seq<Obj<B>>, i: nat, j: nat, j': nat) {
    && i < j <= |s| == |s'| && i <= j' < j && s'[..i] == s[..i]
    && var t := TrimEnd(s[i + 1..j]);
       j' == i + |t| && (t != [] ==> s'[..i + 1] == s[..i] + [t[|t| - 1]] && s'[i + 1..j'] == t[..|t| - 1])
  }

  lemma FilledByElements<B>(s: seq<Obj<B>>, s': seq<Obj<B>>, i: nat, j: nat, j': nat)
    requires i < j <= |s| == |s'| && i <= j' < j && j' == i + |TrimEnd(s[i + 1..j])|
    requires j' != i ==> s'[i] == s[j']
    requires forall k :: 0 <= k < |s| && k != i ==> s'[k] == s[k]
    ensures Filled(s, s', i, j, j')
  {
    var t := TrimEnd(s[i + 1..j]);
    if t != [] {
      assert t == s[i + 1..j][..|t|];
      assert t[|t| - 1] == s[j'];
      assert s'[..i + 1] == s[..i] + [s[j']];
      assert forall k :: i + 1 <= k < j' ==> s'[k] == s[k];
      assert s'[i + 1..j'] == s[i + 1..j'] == t[..|t| - 1];
    }
    assert s'[..i] == s[..i];
  }

  /** Where a pass stands: the slice in front is settled, `rest` is still to come, `gone` has been released. */
  ghost predicate Midway<B>(was: seq<Obj<B>>, front: seq<Obj<B>>, rest: seq<Obj<B>>, gone: seq<Obj<B>>) {
    && front + Compacted(rest) == Compacted(was)
    && gone + Released(rest) == Released(was)
    && KeysDiffer(rest) && KeysOf(rest) !! KeysOf(gone)
    && forall o :: o in rest ==> o in was
  }

  function AfterGap<B>(rest: seq<Obj<B>>): seq<Obj<B>>
    requires rest != []
  {
    var t := TrimEnd(rest[1..]);
    if t == [] then [] else t[..|t| - 1]
  }

  lemma KeepEntry<B>(was: seq<Obj<B>>, front: seq<Obj<B>>, rest: seq<Obj<B>>, gone: seq<Obj<B>>)
    requires Midway(was, front, rest, gone) && rest != [] && !rest[0].meta.deleting
    ensures Midway(was, front + [rest[0]], rest[1..], gone)
  {
    assert front + Compacted(rest) == front + [rest[0]] + Compacted(rest[1..]);
    assert KeysOf(rest[1..]) <= KeysOf(rest) by { SomeKeys(rest[1..], rest); }
  }

  lemma SomeKeys<B>(a: seq<Obj<B>>, b: seq<Obj<B>>)
    requires forall o :: o in a ==> o in b
    ensures KeysOf(a) <= KeysOf(b)
  {
    forall k | k in KeysOf(a) ensures k in KeysOf(b) {
      var i :| 0 <= i < |a| && a[i].key == k;
      assert a[i] in b;
      var j :| 0 <= j < |b| && b[j] == a[i];
      assert b[j].key == k;
    }
  }

  lemma CloseEntry<B>(was: seq<Obj<B>>, front: seq<Obj<B>>, rest: seq<Obj<B>>, gone: seq<Obj<B>>)
    requires Midway(was, front, rest, gone) && rest != [] && rest[0].meta.deleting
    ensures Midway(was, front + GapFiller(rest), AfterGap(rest), gone + [rest[0]])
    ensures rest[0].key !in KeysOf(gone)
  {
    var t := TrimEnd(rest[1..]);
    var u := AfterGap(rest);
    assert rest[0].key in KeysOf(rest);
    assert front + Compacted(rest) == front + GapFiller(rest) + Compacted(u);
    assert gone + Released(rest) == gone + [rest[0]] + Released(u);
    assert u <= rest[1..];
    assert forall o :: o in u ==> o in rest[1..];
    SomeKeys(u, rest);
    forall k | k in KeysOf(gone + [rest[0]]) ensures k in KeysOf(gone) || k == rest[0].key {
      var i :| 0 <= i <= |gone| && (gone + [rest[0]])[i].key == k;
    }
    forall i | 0 <= i < |u| ensures u[i].key != rest[0].key {
      assert u[i] == rest[i + 1];
    }
  }

  lemma CleanableLater<B>(w: World, w': World, gone: seq<Obj<B>>, rest: seq<Obj<B>>, o: Obj<B>, f: Finalizer)
    requires ReleasedFrom(w, w', gone, f) && KeysOf(rest) !! KeysOf(gone) && o in rest && Cleanable(w, o, f)
    ensures Cleanable(w', o, f)
  {
    var i :| 0 <= i < |rest| && rest[i] == o;
    assert o.key in KeysOf(rest);
  }

  ghost predicate AllCleanable<B>(w: World, s: seq<Obj<B>>, f: Finalizer) {
    forall o :: o in s ==> Cleanable(w, o, f) && o.key.kind in {RunKind, TestKind}
  }

  /** `front` is the settled slice before `i`, `rest` what lies between `i` and `j`; the pass may end one past `j`. */
  ghost predicate Cut<B>(s: seq<Obj<B>>, i: nat, j: nat, front: seq<Obj<B>>, rest: seq<Obj<B>>) {
    && i <= j + 1 && j <= |s|
    && if i <= j then front == s[..i] && rest == s[i..j] else front == s[..j] && rest == []
  }

  function GapFiller<B>(rest: seq<Obj<B>>): seq<Obj<B>>
    requires rest != []
  {
    var t := TrimEnd(rest[1..]);
    if t == [] then [] else [t[|t| - 1]]
  }

  lemma CutAfterGap<B>(s: seq<Obj<B>>, s': seq<Obj<B>>, i: nat, j: nat, j': nat, front: seq<Obj<B>>, rest: seq<Obj<B>>)
    requires i < j && Cut(s, i, j, front, rest) && Filled(s, s', i, j, j')
    ensures Cut(s', i + 1, j', front + GapFiller(rest), AfterGap(rest))
  {
    assert rest[1..] == s[i + 1..j];
  }

  lemma CutAfterEntry<B>(s: seq<Obj<B>>, i: nat, j: nat, front: seq<Obj<B>>, rest: seq<Obj<B>>)
    requires i < j && Cut(s, i, j, front, rest)
    ensures Cut(s, i + 1, j, front + [rest[0]], rest[1..])
  {
  }

  /** Where the loop stands: what it has settled, what is to come, and what it has released. */
  ghost predicate Underway<B>(w0: World, w: World, was: seq<Obj<B>>, s: seq<Obj<B>>, i: nat, j: nat,
      front: seq<Obj<B>>, rest: seq<Obj<B>>, gone: seq<Obj<B>>, f: Finalizer) {
    Cut(s, i, j, front, rest) && Midway(was, front, rest, gone) && ReleasedFrom(w0, w, gone, f)
  }

  lemma GapClosed<B>(w0: World, w1: World, w2: World, was: seq<Obj<B>>, s: seq<Obj<B>>, s': seq<Obj<B>>,
      i: nat, j: nat, j': nat, front: seq<Obj<B>>, rest: seq<Obj<B>>, gone: seq<Obj<B>>, f: Finalizer)
    requires AllCleanable(w0, was, f) && i < j && Underway(w0, w1, was, s, i, j, front, rest, gone, f)
    requires s[i].meta.deleting
    requires Filled(s, s', i, j, j') && OnlyMeta(w1, w2, {s[i].key}) && Swept(w1, w2, s[i].key, f)
    ensures Underway(w0, w2, was, s', i + 1, j', front + GapFiller(rest), AfterGap(rest), gone + [s[i]], f)
  {
    assert rest[0] == s[i] && s[i] in rest;
    CloseEntry(was, front, rest, gone);
    OneMoreReleased(w0, w1, w2, gone, s[i], f);
    CutAfterGap(s, s', i, j, j', front, rest);
  }

  lemma NextCleanable<B>(w0: World, w: World, was: seq<Obj<B>>, s: seq<Obj<B>>, i: nat, j: nat,
      front: seq<Obj<B>>, rest: seq<Obj<B>>, gone: seq<Obj<B>>, f: Finalizer)
    requires AllCleanable(w0, was, f) && i < j && Underway(w0, w, was, s, i, j, front, rest, gone, f)
    ensures Cleanable(w, s[i], f) && s[i].key.kind in {RunKind, TestKind}
  {
    assert rest[0] == s[i] && s[i] in rest;
    CleanableLater(w0, w, gone, rest, s[i], f);
  }

  lemma EntryKept<B>(w0: World, w: World, was: seq<Obj<B>>, s: seq<Obj<B>>, i: nat, j: nat,
      front: seq<Obj<B>>, rest: seq<Obj<B>>, gone: seq<Obj<B>>, f: Finalizer)
    requires i < j && Underway(w0, w, was, s, i, j, front, rest, gone, f) && !s[i].meta.deleting
    ensures Underway(w0, w, was, s, i + 1, j, front + [s[i]], rest[1..], gone, f)
  {
    assert rest[0] == s[i];
    KeepEntry(was, front, rest, gone);
    CutAfterEntry(s, i, j, front, rest);
  }

  lemma PassOver<B>(w0: World, w: World, was: seq<Obj<B>>, s: seq<Obj<B>>, i: nat, j: nat,
      front: seq<Obj<B>>, rest: seq<Obj<B>>, gone: seq<Obj<B>>, f: Finalizer)
    requires Underway(w0, w, was, s, i, j, front, rest, gone, f)
    ensures gone <= Released(was) && ReleasedFrom(w0, w, gone, f)
    ensures i >= j ==> s[..j] == Compacted(was) && gone == Released(was)
  {
    if i >= j {
      assert rest == [] && front == s[..j];
      assert gone + Released(rest) == gone && front + Compacted(rest) == front;
    }
  }

  lemma Starting<B>(w: World, was: seq<Obj<B>>, f: Finalizer)
    requires KeysDiffer(was)
    ensures Underway(w, w, was, was, 0, |was|, [], was, [], f)
  {
  }

  /** One turn of the loop at a deleted entry. */
  method CloseNext<B>(api: Cluster, f: Finalizer, items: array<Obj<B>>, i: nat, j: nat, ghost w0: World,
      ghost was: seq<Obj<B>>, ghost front: seq<Obj<B>>, ghost rest: seq<Obj<B>>, ghost gone: seq<Obj<B>>)
    returns (j': nat, ok: bool)
    requires api.Valid() && AllCleanable(w0, was, f) && i < j <= items.Length && items[i].meta.deleting
    requires Underway(w0, api.w, was, items[..], i, j, front, rest, gone, f) && rest != []
    modifies api, items
    ensures api.Valid() && MetaWrites(old(api.log), api.log)
    ensures ok ==>
              var front', gone' := front + GapFiller(rest), gone + [old(items[i])];
              Underway(w0, api.w, was, items[..], i + 1, j', front', AfterGap(rest), gone', f)
    ensures ok ==> j' < j
    ensures !ok ==> api.w == old(api.w)
    ensures api.reliable ==> ok
  {
    ghost var s := items[..];
    NextCleanable(w0, api.w, was, s, i, j, front, rest, gone, f);
    j', ok := CloseGap(api, f, items, i, j);
    if ok { GapClosed(w0, old(api.w), api.w, was, s, items[..], i, j, j', front, rest, gone, f); }
  }

  /** One pass over the list. `n` is the length of the slice it leaves, `gone` what it released on its way. */
  method Compact<B>(api: Cluster, f: Finalizer, items: array<Obj<B>>)
    returns (n: nat, ok: bool, ghost gone: seq<Obj<B>>)
    requires api.Valid() && KeysDiffer(items[..]) && AllCleanable(api.w, items[..], f)
    modifies api, items
    ensures api.Valid() && MetaWrites(old(api.log), api.log)
    ensures ok ==> n <= items.Length && items[..n] == Compacted(old(items[..])) && gone == Released(old(items[..]))
    ensures gone <= Released(old(items[..])) && ReleasedFrom(old(api.w), api.w, gone, f)
    ensures api.reliable ==> ok
  {
    ghost var was := items[..];
    ghost var front, rest := [], was;
    gone := [];
    var i, j := 0, items.Length;
    n, ok := j, true;
    Starting(api.w, was, f);
    while i < j
      invariant j == n <= items.Length && ok && api.Valid() && MetaWrites(old(api.log), api.log)
      invariant Underway(old(api.w), api.w, was, items[..], i, j, front, rest, gone, f)
    {
      ghost var s, o := items[..], items[i];
      if items[i].meta.deleting {
        n, ok := CloseNext(api, f, items, i, j, old(api.w), was, front, rest, gone);
        if !ok {
          PassOver(old(api.w), api.w, was, s, i, j, front, rest, gone, f);
          return;
        }
        j, gone, front, rest := n, gone + [o], front + GapFiller(rest), AfterGap(rest);
      } else {
        EntryKept(old(api.w), api.w, was, s, i, j, front, rest, gone, f);
        front, rest := front + [o], rest[1..];
      }
      i := i + 1;
    }
    PassOver(old(api.w), api.w, was, items[..], i, j, front, rest, gone, f);
  }
}
