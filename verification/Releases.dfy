/**
 How soon a suite's deleted runs are let go.

 A pass releases the first deleted run of the list but may drop others without releasing them. So whether
 repeated passes get through depends on whether the first one of the list is ever one that still waits.
 */
module Releases {
  import opened Prelude
  import opened Store
  import opened Effects
  import opened Invariants
  import opened Histories
  import opened Clusters
  import opened Helpers
  import opened Compaction
  import opened TestSuiteControllers

  // ----- one pass, over every order of the list

  predicate Waits<B>(o: Obj<B>, f: Finalizer) { o.meta.deleting && f in o.meta.finalizers }

  /** The pass over the list lets go of an object that still waited for it. */
  ghost predicate Progress<B>(s: seq<Obj<B>>, f: Finalizer) { exists o :: o in Released(s) && Waits(o, f) }

  ghost predicate SomeoneWaits<B>(s: seq<Obj<B>>, f: Finalizer) { exists o :: o in s && Waits(o, f) }

  ghost predicate AllDeletedWait<B>(s: seq<Obj<B>>, f: Finalizer) {
    forall o :: o in s && o.meta.deleting ==> Waits(o, f)
  }

  function Deleted<B>(s: seq<Obj<B>>): seq<Obj<B>> {
    if s == [] then [] else (if s[0].meta.deleting then [s[0]] else []) + Deleted(s[1..])
  }

  lemma {:induction false} SplitByMark<B>(s: seq<Obj<B>>)
    ensures multiset(s) == multiset(Survivors(s)) + multiset(Deleted(s))
    ensures forall o :: o in Deleted(s) <==> o in s && o.meta.deleting
    ensures forall o :: o in Survivors(s) ==> !o.meta.deleting
  {
    if s != [] {
      SplitByMark(s[1..]);
      assert s == [s[0]] + s[1..];
    }
  }

  /** Behind a deleted entry that stands after all live ones nothing is released. */
  lemma {:induction false} OneBlocksTheRest<B>(live: seq<Obj<B>>, o: Obj<B>, rest: seq<Obj<B>>)
    requires o.meta.deleting
    requires (forall x :: x in live ==> !x.meta.deleting) && forall x :: x in rest ==> x.meta.deleting
    ensures Released(live + [o] + rest) == [o]
  {
    var s := live + [o] + rest;
    if live == [] {
      assert s[0] == o && s[1..] == rest;
      TrimsTo(rest, 0);
    } else {
      assert s[0] == live[0] && live[0] in live && s[1..] == live[1..] + [o] + rest;
      assert forall x :: x in live[1..] ==> x in live;
      OneBlocksTheRest(live[1..], o, rest);
    }
  }

  lemma {:induction false} FirstDeleted<B>(s: seq<Obj<B>>) returns (d: nat)
    requires exists o :: o in s && o.meta.deleting
    ensures d < |s| && s[d].meta.deleting && forall i :: 0 <= i < d ==> !s[i].meta.deleting
  {
    if s[0].meta.deleting {
      d := 0;
    } else {
      var o :| o in s && o.meta.deleting;
      assert o in s[1..];
      d := FirstDeleted(s[1..]);
      d := d + 1;
    }
  }

  function Aside<T>(s: seq<T>, i: nat): (r: seq<T>)
    requires i < |s|
    ensures multiset(s) == multiset{s[i]} + multiset(r)
  {
    assert s == s[..i] + [s[i]] + s[i + 1..];
    s[..i] + s[i + 1..]
  }

  /** Some order in which a deleted entry stands in the way of all others. */
  lemma BlockingOrder<B>(objs: seq<Obj<B>>, o: Obj<B>) returns (s: seq<Obj<B>>)
    requires o in objs && o.meta.deleting
    ensures multiset(s) == multiset(objs) && Released(s) == [o]
  {
    SplitByMark(objs);
    var gone := Deleted(objs);
    assert o in gone;
    var i :| 0 <= i < |gone| && gone[i] == o;
    var rest := Aside(gone, i);
    s := Survivors(objs) + [o] + rest;
    forall x | x in rest ensures x.meta.deleting { assert x in multiset(gone); }
    OneBlocksTheRest(Survivors(objs), o, rest);
  }

  /** While someone waits, a pass makes progress in every order of the list if and only if all deleted objects wait. */
  lemma ProgressInEveryOrder<B>(objs: seq<Obj<B>>, f: Finalizer)
    requires SomeoneWaits(objs, f)
    ensures (forall s :: multiset(s) == multiset(objs) ==> Progress(s, f)) <==> AllDeletedWait(objs, f)
  {
    if AllDeletedWait(objs, f) {
      forall s | multiset(s) == multiset(objs) ensures Progress(s, f) {
        var o :| o in objs && Waits(o, f);
        assert o in multiset(s);
        var d := FirstDeleted(s);
        assert s[d] in multiset(objs);
        FirstDeletedIsReleased(s, d);
      }
    }
    if o :| o in objs && o.meta.deleting && !Waits(o, f) {
      var s := BlockingOrder(objs, o);
      assert forall x :: x in Released(s) ==> x == o;
      assert !Progress(s, f);
    }
  }

  // ----- pass after pass

  /** The deleted runs of the suite that still wait for its controller. */
  ghost function Waiting(w: World, s: Key): (rs: set<Key>)
    ensures forall r :: r in rs <==> DeletedRun(w, s, r) && Holds(w, r, TestSuiteController)
  {
    set r | r in w.meta && DeletedRun(w, s, r) && Holds(w, r, TestSuiteController)
  }

  ghost predicate AllWait(w: World, s: Key) {
    forall r :: DeletedRun(w, s, r) ==> Holds(w, r, TestSuiteController)
  }

  /** Nothing but the suite's controller holds the deleted runs. */
  ghost predicate NothingElseHolds(w: World, s: Key) {
    forall r, g :: DeletedRun(w, s, r) && g in w.meta[r].finalizers ==> g == TestSuiteController
  }

  /** What a reconciliation of the suite does to its deleted runs, while no other run is deleted. */
  ghost predicate Passes(w: World, w': World, s: Key) {
    LetsGo(w, w', s) && forall r :: DeletedRun(w', s, r) ==> DeletedRun(w, s, r)
  }

  ghost predicate PassAfterPass(worlds: seq<World>, s: Key) {
    forall i :: 0 < i < |worlds| ==> Passes(worlds[i - 1], worlds[i], s)
  }

  /** After `k` passes no run waits any more, in whatever orders these passes list the runs. */
  ghost predicate Suffice(w: World, s: Key, k: nat) {
    forall worlds :: |worlds| == k + 1 && worlds[0] == w && PassAfterPass(worlds, s) ==> Waiting(worlds[k], s) == {}
  }

  ghost predicate Promptly(w: World, s: Key) {
    || Waiting(w, s) == {}
    || (AllWait(w, s) && (|Waiting(w, s)| == 1 || NothingElseHolds(w, s)))
  }

  // ----- where the passes suffice

  lemma SomeDeletedListed(w: World, s: Key, runs: seq<Obj<Run>>) returns (i: nat)
    requires Runs(w, s, runs) && Waiting(w, s) != {}
    ensures i < |runs| && runs[i].meta.deleting
  {
    var q :| q in Waiting(w, s);
    i :| 0 <= i < |runs| && runs[i].key == q;
    assert RunOf(w, s, runs[i]);
  }

  /** The first deleted run of the list is swept. */
  lemma FirstIsSwept(w: World, w': World, s: Key, runs: seq<Obj<Run>>) returns (r: Key)
    requires Runs(w, s, runs) && ReleasedAmong(w, w', s, runs) && Waiting(w, s) != {}
    ensures DeletedRun(w, s, r) && Swept(w, w', r, TestSuiteController)
  {
    var i := SomeDeletedListed(w, s, runs);
    assert runs[i] in runs;
    var d := FirstDeleted(runs);
    FirstDeletedIsReleased(runs, d);
    var g :| 0 <= g < |Released(runs)| && Released(runs)[g] == runs[d];
    assert RunOf(w, s, runs[d]);
    r := runs[d].key;
    assert r in KeysOf(Released(runs));
  }

  /** A pass takes away what some deleted run waited for, if all of them wait. */
  lemma OneLessWaits(w: World, w': World, s: Key)
    requires Passes(w, w', s) && AllWait(w, s)
    ensures Waiting(w', s) <= Waiting(w, s) && (Waiting(w, s) != {} ==> Waiting(w', s) != Waiting(w, s))
  {
    var runs: seq<Obj<Run>> :| Runs(w, s, runs) && ReleasedAmong(w, w', s, runs);
    assert forall r :: r in Waiting(w', s) ==> DeletedRun(w, s, r);
    if Waiting(w, s) != {} {
      var r := FirstIsSwept(w, w', s, runs);
      assert r in Waiting(w, s) && r !in Waiting(w', s);
    }
  }

  /** Where nothing else holds them, the runs let go are gone, and those that stay still wait. */
  lemma PromptnessStays(w: World, w': World, s: Key)
    requires Passes(w, w', s) && AllWait(w, s) && NothingElseHolds(w, s)
    ensures AllWait(w', s) && NothingElseHolds(w', s)
  {
    var runs: seq<Obj<Run>> :| Runs(w, s, runs) && ReleasedAmong(w, w', s, runs);
    forall r | DeletedRun(w', s, r)
      ensures Holds(w', r, TestSuiteController) && forall g :: g in w'.meta[r].finalizers ==> g == TestSuiteController
    {
      assert DeletedRun(w, s, r);
      AllRemoved(w.meta[r].finalizers, TestSuiteController);
    }
  }

  lemma SmallerSet<T>(a: set<T>, b: set<T>)
    requires a <= b && a != b
    ensures |a| < |b|
  {
    var x :| x in b && x !in a;
    SubsetSize(a, b - {x});
  }

  lemma {:induction false} WaitingShrinks(worlds: seq<World>, s: Key)
    requires |worlds| > 0 && PassAfterPass(worlds, s) && AllWait(worlds[0], s) && NothingElseHolds(worlds[0], s)
    ensures || Waiting(worlds[|worlds| - 1], s) == {}
            || |Waiting(worlds[|worlds| - 1], s)| + |worlds| - 1 <= |Waiting(worlds[0], s)|
  {
    if |worlds| > 1 {
      var rest := worlds[1..];
      assert Passes(worlds[0], worlds[1], s);
      OneLessWaits(worlds[0], worlds[1], s);
      PromptnessStays(worlds[0], worlds[1], s);
      forall i | 0 < i < |rest| ensures Passes(rest[i - 1], rest[i], s) { assert Passes(worlds[i], worlds[i + 1], s); }
      WaitingShrinks(rest, s);
      if Waiting(worlds[0], s) != {} { SmallerSet(Waiting(worlds[1], s), Waiting(worlds[0], s)); }
    }
  }

  lemma PromptSuffices(w: World, s: Key, worlds: seq<World>)
    requires Promptly(w, s) && |worlds| == |Waiting(w, s)| + 1 && worlds[0] == w && PassAfterPass(worlds, s)
    ensures Waiting(worlds[|worlds| - 1], s) == {}
  {
    if Waiting(w, s) != {} {
      if NothingElseHolds(w, s) {
        WaitingShrinks(worlds, s);
      } else {
        assert Passes(worlds[0], worlds[1], s);
        OneLessWaits(w, worlds[1], s);
        SmallerSet(Waiting(worlds[1], s), Waiting(w, s));
      }
    }
  }

  // ----- where they do not

  lemma SomeList(w: World, s: Key) returns (runs: seq<Obj<Run>>)
    requires WellFormed(w)
    ensures Runs(w, s, runs)
  {
    var ks := AsList(set k | k in w.meta && ChildOf(w, k, s) && k.kind == RunKind);
    HaveRunBodies(w, s, ks);
    ListsRuns(w, s, ks);
    runs := Copies(w, ks);
  }

  lemma {:induction false} CountedOnce<B>(objs: seq<Obj<B>>, o: Obj<B>)
    requires KeysDiffer(objs)
    ensures multiset(objs)[o] <= 1
  {
    if objs != [] {
      CountedOnce(objs[1..], o);
      assert objs == [objs[0]] + objs[1..];
      if objs[0] == o { assert o !in objs[1..]; }
    }
  }

  lemma TwiceThere<B>(objs: seq<Obj<B>>, i: nat, j: nat)
    requires i < j < |objs| && objs[i] == objs[j]
    ensures multiset(objs)[objs[i]] >= 2
  {
    assert objs == objs[..i] + [objs[i]] + objs[i + 1..j] + [objs[j]] + objs[j + 1..];
  }

  /** Another order of the runs lists them as well. */
  lemma OtherOrder(w: World, s: Key, runs: seq<Obj<Run>>, runs': seq<Obj<Run>>)
    requires Runs(w, s, runs) && multiset(runs') == multiset(runs)
    ensures Runs(w, s, runs')
  {
    forall i | 0 <= i < |runs'| ensures RunOf(w, s, runs'[i]) {
      assert runs'[i] in multiset(runs);
      var j :| 0 <= j < |runs| && runs[j] == runs'[i];
      assert RunOf(w, s, runs[j]);
    }
    forall i, j | 0 <= i < j < |runs'| ensures runs'[i].key != runs'[j].key {
      CountedOnce(runs, runs'[i]);
      assert RunOf(w, s, runs'[i]) && RunOf(w, s, runs'[j]);
      if runs'[i] == runs'[j] { TwiceThere(runs', i, j); }
    }
    forall k | k in w.meta && ChildOf(w, k, s) && k.kind == RunKind ensures k in KeysOf(runs') {
      var j :| 0 <= j < |runs| && runs[j].key == k;
      assert runs[j] in multiset(runs');
      var i :| 0 <= i < |runs'| && runs'[i] == runs[j];
      assert runs'[i].key == k;
    }
  }

  /** The world in which the suite's controller has let go of `r`. */
  ghost function LetGo(w: World, r: Key): World
    requires r in w.meta
  {
    w.(meta := w.meta[r := Meta(Without(w.meta[r].finalizers, TestSuiteController), true)])
  }

  /** Some order lets a pass release no more than the deleted run `r`, here one that something else holds as well. */
  lemma PassReleasesOnly(w: World, s: Key, r: Key)
    requires WellFormed(w) && DeletedRun(w, s, r) && Without(w.meta[r].finalizers, TestSuiteController) != []
    ensures Passes(w, LetGo(w, r), s) && WellFormed(LetGo(w, r))
  {
    var runs := SomeList(w, s);
    var o := ListedAs(w, s, runs, r);
    var runs' := BlockingOrder(runs, o);
    OtherOrder(w, s, runs, runs');
    OnlyReleased(w, s, r, runs', o);
    SameBodies(w, LetGo(w, r));
  }

  lemma ListedAs(w: World, s: Key, runs: seq<Obj<Run>>, r: Key) returns (o: Obj<Run>)
    requires Runs(w, s, runs) && DeletedRun(w, s, r)
    ensures o in runs && o.key == r && o.meta.deleting
  {
    var i :| 0 <= i < |runs| && runs[i].key == r;
    assert RunOf(w, s, runs[i]);
    o := runs[i];
  }

  lemma OnlyReleased(w: World, s: Key, r: Key, runs: seq<Obj<Run>>, o: Obj<Run>)
    requires DeletedRun(w, s, r) && Without(w.meta[r].finalizers, TestSuiteController) != []
    requires Runs(w, s, runs) && Released(runs) == [o] && o.key == r
    ensures Passes(w, LetGo(w, r), s)
  {
    KeysOfOneMore([], o);
    assert [] + [o] == [o];
    assert ReleasedAmong(w, LetGo(w, r), s, runs);
  }

  lemma SameBodies(w: World, w': World)
    requires WellFormed(w) && w' == w.(meta := w'.meta) && w'.meta.Keys == w.meta.Keys
    ensures WellFormed(w')
  {
    assert forall k :: HasBody(w', k) <==> HasBody(w, k);
  }

  /** From a world in which a deleted run lingers that does not wait, passes may go on for ever without effect. */
  lemma PassesWithoutEffect(w: World, s: Key, r: Key, k: nat)
    requires WellFormed(w) && NoneLingers(w) && DeletedRun(w, s, r) && !Holds(w, r, TestSuiteController)
    ensures var worlds := seq(k + 1, _ => w); PassAfterPass(worlds, s)
  {
    WithoutAbsent(w.meta[r].finalizers, TestSuiteController);
    PassReleasesOnly(w, s, r);
    assert LetGo(w, r).meta == w.meta;
    assert LetGo(w, r) == w;
  }

  lemma LingeringBlocks(w: World, s: Key, r: Key)
    requires WellFormed(w) && NoneLingers(w) && DeletedRun(w, s, r) && !Holds(w, r, TestSuiteController)
    requires Waiting(w, s) != {}
    ensures !Suffice(w, s, |Waiting(w, s)|)
  {
    var k := |Waiting(w, s)|;
    var worlds := seq(k + 1, _ => w);
    PassesWithoutEffect(w, s, r, k);
    assert |worlds| == k + 1 && worlds[0] == w && worlds[k] == w;
  }

  /** A run let go while something else holds it gets in the way of the others. */
  lemma HeldBlocks(w: World, s: Key, r: Key)
    requires WellFormed(w) && NoneLingers(w) && r in Waiting(w, s) && |Waiting(w, s)| >= 2
    requires Without(w.meta[r].finalizers, TestSuiteController) != []
    ensures !Suffice(w, s, |Waiting(w, s)|)
  {
    var k := |Waiting(w, s)|;
    var w' := LetGo(w, r);
    PassReleasesOnly(w, s, r);
    StillLingers(w, s, r);
    PassesWithoutEffect(w', s, r, k - 1);
    AnotherWaits(w, w', s, r);
    FirstThenNothing(w, w', s, k);
  }

  lemma StillLingers(w: World, s: Key, r: Key)
    requires NoneLingers(w) && DeletedRun(w, s, r) && Without(w.meta[r].finalizers, TestSuiteController) != []
    ensures NoneLingers(LetGo(w, r)) && DeletedRun(LetGo(w, r), s, r) && !Holds(LetGo(w, r), r, TestSuiteController)
  {
    forall q | Deleting(LetGo(w, r), q) ensures LetGo(w, r).meta[q].finalizers != [] {
      assert q != r ==> Deleting(w, q);
    }
  }

  lemma FirstThenNothing(w: World, w': World, s: Key, k: nat)
    requires k > 0 && Passes(w, w', s) && PassAfterPass(seq(k, _ => w'), s) && Waiting(w', s) != {}
    ensures !Suffice(w, s, k)
  {
    var rest := seq(k, _ => w');
    var worlds := [w] + rest;
    forall i | 0 < i < |worlds| ensures Passes(worlds[i - 1], worlds[i], s) {
      if i > 1 { assert Passes(rest[i - 2], rest[i - 1], s); }
    }
    assert |worlds| == k + 1 && worlds[0] == w && worlds[k] == w';
  }

  lemma AnotherWaits(w: World, w': World, s: Key, r: Key)
    requires r in w.meta && w' == LetGo(w, r) && r in Waiting(w, s) && |Waiting(w, s)| >= 2
    ensures Waiting(w', s) != {}
  {
    var others := Waiting(w, s) - {r};
    assert |others| >= 1;
    var q :| q in others;
    assert q in Waiting(w', s);
  }

  /**
   `k` waiting runs are let go within `k` passes, for every order in which the passes list the runs, if and only if none
   waits, or all deleted runs wait and either there is only one or nothing else holds them.
   */
  lemma LetGoWithinPasses(w: World, s: Key)
    requires Reached(w)
    ensures Suffice(w, s, |Waiting(w, s)|) <==> Promptly(w, s)
  {
    ReachedOwned(w);
    var k := |Waiting(w, s)|;
    if Promptly(w, s) {
      forall worlds | |worlds| == k + 1 && worlds[0] == w && PassAfterPass(worlds, s)
        ensures Waiting(worlds[k], s) == {}
      {
        PromptSuffices(w, s, worlds);
      }
    } else if !AllWait(w, s) {
      var r :| DeletedRun(w, s, r) && !Holds(w, r, TestSuiteController);
      LingeringBlocks(w, s, r);
    } else {
      var r, g :| DeletedRun(w, s, r) && g in w.meta[r].finalizers && g != TestSuiteController;
      assert g in Without(w.meta[r].finalizers, TestSuiteController);
      HeldBlocks(w, s, r);
    }
  }
}
