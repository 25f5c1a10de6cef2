/** What every reachable world keeps of births, finalizers and owners, whatever fails. */
module Invariants {
  import opened Prelude
  import opened Store
  import opened Effects

  // ----- shapes

  /** Stored objects were born, with a name; owners were born before and are of the right kind. */
  ghost predicate WellBorn(w: World) {
    && w.meta.Keys <= w.birth.Keys
    && (forall k :: k in w.birth ==> |k.name| > 0)
    && (forall c, p :: ChildOf(w, c, p) ==> p in w.birth && Fits(c.kind, p.kind))
    && (forall k :: k in w.birth && k.kind == PodKind ==> w.birth[k].owner.Some?)
  }

  /** The objects that have a body are those ever born. */
  ghost predicate WellBodied(w: World) {
    && (forall k :: k in w.birth ==> HasBody(w, k))
    && (forall k :: HasBody(w, k) ==> k in w.birth)
  }

  /** A body sits under a key of its kind. */
  ghost predicate RightKinds(w: World) {
    && (forall k :: k in w.suites ==> k.kind == SuiteKind)
    && (forall k :: k in w.runs ==> k.kind == RunKind)
    && (forall k :: k in w.tests ==> k.kind == TestKind)
    && (forall k :: k in w.pods ==> k.kind == PodKind)
  }

  ghost predicate WellFormed(w: World) { WellBorn(w) && WellBodied(w) && RightKinds(w) }

  lemma OutsideRightKinds(w: World, o: Outside)
    requires RightKinds(w) && GuardOutside(w, o)
    ensures RightKinds(ApplyOutside(w, o))
  {
  }

  lemma CommonRightKinds(w: World, c: Common)
    requires RightKinds(w) && GuardCommon(w, c)
    ensures RightKinds(ApplyCommon(w, c))
  {
  }

  lemma TestRightKinds(w: World, t: TestWrite)
    requires RightKinds(w) && GuardTest(w, t)
    ensures RightKinds(ApplyTest(w, t))
  {
  }

  lemma RunRightKinds(w: World, r: RunWrite)
    requires RightKinds(w) && GuardRun(w, r)
    ensures RightKinds(ApplyRun(w, r))
  {
  }

  lemma SuiteRightKinds(w: World, s: SuiteWrite)
    requires RightKinds(w) && GuardSuite(w, s)
    ensures RightKinds(ApplySuite(w, s))
  {
  }

  lemma RightKindsKept(w: World, e: Event, w': World)
    requires RightKinds(w) && Steps(w, e, w')
    ensures RightKinds(w')
  {
    match e
    case Env(o) =>
      EnvStep(w, e, w');
      OutsideRightKinds(w, o);
    case All(c) =>
      CommonStep(w, e, w');
      CommonRightKinds(w, c);
    case OfTest(t) =>
      TestStep(w, e, w');
      TestRightKinds(w, t);
    case OfRun(r) =>
      RunStep(w, e, w');
      RunRightKinds(w, r);
    case OfSuite(s) =>
      SuiteStep(w, e, w');
      SuiteRightKinds(w, s);
  }

  /** A controller creates a child only under a live owner that its own finalizer holds. */
  lemma OwnerAtBirth(w: World, e: Event, w': World)
    requires Steps(w, e, w') && EffectOf(e).Creates? && EffectOf(e).owner.Some?
    ensures var p := EffectOf(e).owner.value;
            Live(w, p) && Holds(w, p, OwnFinalizer(p.kind)) && Fits(EffectOf(e).k.kind, p.kind)
  {
    match e
    case OfTest(_) => TestStep(w, e, w');
    case OfRun(_) => RunStep(w, e, w');
    case OfSuite(_) => SuiteStep(w, e, w');
    case _ =>
  }

  lemma PodAtBirth(w: World, e: Event, w': World)
    requires Steps(w, e, w') && EffectOf(e).Creates? && EffectOf(e).k.kind == PodKind
    ensures EffectOf(e).owner.Some?
  {
    if e.Env? { EnvStep(w, e, w'); }
  }

  lemma WellBornKept(w: World, e: Event, w': World)
    requires WellFormed(w) && Steps(w, e, w')
    ensures WellBorn(w')
  {
    EventDoes(w, e, w');
    var x := EffectOf(e);
    if x.Creates? && x.owner.Some? { OwnerAtBirth(w, e, w'); }
    if x.Creates? && x.k.kind == PodKind { PodAtBirth(w, e, w'); }
    WellBornShape(w, x, w');
  }

  lemma WellBornShape(w: World, x: Effect, w': World)
    requires WellBorn(w) && Does(w, x, w')
    requires x.Creates? && x.owner.Some? ==> x.owner.value in w.meta && Fits(x.k.kind, x.owner.value.kind)
    requires x.Creates? && x.k.kind == PodKind ==> x.owner.Some?
    ensures WellBorn(w')
  {
    forall c, p | ChildOf(w', c, p) ensures p in w'.birth && Fits(c.kind, p.kind) {
      assert ChildOf(w, c, p) || (x.Creates? && c == x.k && x.owner == Some(p));
    }
  }

  lemma WellBodiedKept(w: World, x: Effect, w': World)
    requires WellBodied(w) && Does(w, x, w')
    ensures WellBodied(w')
  {
    forall k ensures HasBody(w', k) <==> k in w'.birth {
      assert HasBody(w', k) <==> HasBody(w, k) || (x.Creates? && k == x.k);
    }
  }

  // ----- finalizers

  predicate Expected(k: Kind, f: Finalizer) {
    f.Foreign? || f == OwnFinalizer(k) || (f == OwnersFinalizer(k) && k != TestKind)
  }

  /** An object carries no controller's finalizer but those of its own controller and of its owner's. */
  ghost predicate FinalizersExpected(w: World) {
    forall k, f :: k in w.meta && f in w.meta[k].finalizers ==> Expected(k.kind, f)
  }

  lemma PutOnExpected(w: World, e: Event, w': World)
    requires Steps(w, e, w') && EffectOf(e).PutsOn?
    ensures Expected(EffectOf(e).k.kind, EffectOf(e).f)
  {
  }

  lemma BornExpected(w: World, e: Event, w': World, f: Finalizer)
    requires Steps(w, e, w') && EffectOf(e).Creates? && f in EffectOf(e).finalizers
    ensures Expected(EffectOf(e).k.kind, f)
  {
    match e
    case OfTest(_) => TestStep(w, e, w');
    case OfRun(_) => RunStep(w, e, w');
    case OfSuite(_) => SuiteStep(w, e, w');
    case _ =>
  }

  lemma FinalizersExpectedKept(w: World, e: Event, w': World)
    requires FinalizersExpected(w) && Steps(w, e, w')
    ensures FinalizersExpected(w')
  {
    EventDoes(w, e, w');
    var x := EffectOf(e);
    forall k, f | k in w'.meta && f in w'.meta[k].finalizers ensures Expected(k.kind, f) {
      if x.Creates? && k == x.k {
        BornExpected(w, e, w', f);
      } else if x.PutsOn? && k == x.k {
        PutOnExpected(w, e, w');
      }
    }
  }

  /** A marked object lingers only while something holds it. */
  ghost predicate NoneLingers(w: World) {
    forall k :: Deleting(w, k) ==> w.meta[k].finalizers != []
  }

  lemma NoneLingersKept(w: World, x: Effect, w': World)
    requires NoneLingers(w) && Does(w, x, w')
    ensures NoneLingers(w')
  {
    forall k | Deleting(w', k) ensures w'.meta[k].finalizers != [] {
      assert Deleting(w, k) ==> w.meta[k].finalizers != [];
    }
  }

  // ----- ownership

  ghost predicate HeldByOwner(w: World, c: Key, p: Key) {
    c in w.meta && ChildOf(w, c, p) && !MayOutlive(w, c) ==> Holds(w, p, OwnFinalizer(p.kind))
  }

  /** Runs and Tests keep their owner stored and held by its controller; so do Pods until they have been let go. */
  ghost predicate Owned(w: World) {
    forall c, p :: HeldByOwner(w, c, p)
  }

  /** A release of its own controller's finalizer leaves no child that would need the owner. */
  lemma ReleasedWhenChildless(w: World, e: Event, w': World, c: Key, p: Key)
    requires WellFormed(w) && Steps(w, e, w') && EffectOf(e).TakesOff?
    requires p == EffectOf(e).k && EffectOf(e).f == OwnFinalizer(p.kind)
    requires c in w.meta && ChildOf(w, c, p)
    ensures MayOutlive(w, c)
  {
    assert Fits(c.kind, p.kind);
    assert e.All? && e.c.Release?;
    CommonStep(w, e, w');
  }

  lemma OwnedKept(w: World, e: Event, w': World)
    requires WellFormed(w) && Owned(w) && Steps(w, e, w')
    ensures Owned(w')
  {
    EventDoes(w, e, w');
    forall c, p ensures HeldByOwner(w', c, p) {
      assert HeldByOwner(w, c, p);
      HeldByOwnerKept(w, e, w', c, p);
    }
  }

  lemma HeldAtBirth(w: World, e: Event, w': World, c: Key, p: Key)
    requires WellFormed(w) && Steps(w, e, w') && Does(w, EffectOf(e), w') && EffectOf(e).Creates? && c == EffectOf(e).k
    ensures HeldByOwner(w', c, p)
  {
    if EffectOf(e).owner == Some(p) { OwnerAtBirth(w, e, w'); }
  }

  lemma LetGoWhenChildless(w: World, e: Event, w': World, c: Key, p: Key)
    requires WellFormed(w) && Steps(w, e, w') && Does(w, EffectOf(e), w') && EffectOf(e).TakesOff?
    requires p == EffectOf(e).k && EffectOf(e).f == OwnFinalizer(p.kind)
    ensures HeldByOwner(w', c, p)
  {
    if c in w.meta && ChildOf(w, c, p) { ReleasedWhenChildless(w, e, w', c, p); }
  }

  lemma HeldByOwnerKept(w: World, e: Event, w': World, c: Key, p: Key)
    requires WellFormed(w) && Steps(w, e, w') && Does(w, EffectOf(e), w')
    requires HeldByOwner(w, c, p)
    ensures HeldByOwner(w', c, p)
  {
    var x := EffectOf(e);
    if x.Creates? && c == x.k {
      HeldAtBirth(w, e, w', c, p);
    } else if x.TakesOff? && p == x.k && x.f == OwnFinalizer(p.kind) {
      LetGoWhenChildless(w, e, w', c, p);
    } else {
      HeldByOwnerShape(w, x, w', c, p);
    }
  }

  lemma HeldByOwnerShape(w: World, x: Effect, w': World, c: Key, p: Key)
    requires Does(w, x, w') && HeldByOwner(w, c, p)
    requires !(x.Creates? && c == x.k) && !(x.TakesOff? && p == x.k && x.f == OwnFinalizer(p.kind))
    requires w.meta.Keys <= w.birth.Keys
    ensures HeldByOwner(w', c, p)
  {
    match x
    case Bodies =>
    case Creates(k, _, _) =>
    case Marks(k) =>
    case PutsOn(k, _) =>
    case TakesOff(k, _) =>
  }
}
