/** What Tests and TestRuns conclude, and what every reachable world keeps about it. */
module Verdicts {
  import opened Prelude
  import opened Store
  import opened Effects
  import opened Invariants
  import opened Slots

  // ----- progress is monotone

  /** Nothing is ever un-born, no name or template changes, and a verdict once given stays. */
  ghost predicate Grows(w: World, w': World) {
    && (forall k :: k in w.birth ==> k in w'.birth && w'.birth[k] == w.birth[k])
    && (forall t :: t in w.tests ==> t in w'.tests && TestGrows(w.tests[t], w'.tests[t]))
    && (forall r :: r in w.runs ==> r in w'.runs && RunGrows(w.runs[r], w'.runs[r]))
    && (forall p :: p in w.pods ==> p in w'.pods && (w.pods[p].phase.IsFinished() ==> w'.pods[p] == w.pods[p]))
  }

  predicate TestGrows(t: Test, t': Test) {
    t'.generateName == t.generateName && t'.retention == t.retention && (t.phase.IsFinal() ==> t' == t)
  }

  predicate RunGrows(r: Run, r': Run) {
    r'.templates == r.templates && r'.retention == r.retention && (r.phase.IsFinal() ==> r' == r)
  }

  lemma SuiteGrows(w: World, s: SuiteWrite)
    requires WellBodied(w) && GuardSuite(w, s)
    ensures Grows(w, ApplySuite(w, s))
  {
    assert s.CreateRun? ==> !HasBody(w, s.k);
  }

  lemma RunWriteGrows(w: World, r: RunWrite)
    requires WellBodied(w) && GuardRun(w, r)
    ensures Grows(w, ApplyRun(w, r))
  {
    assert r.CreateTest? ==> !HasBody(w, r.k);
  }

  lemma TestWriteGrows(w: World, t: TestWrite)
    requires WellBodied(w) && GuardTest(w, t)
    ensures Grows(w, ApplyTest(w, t))
  {
    assert t.CreatePod? ==> !HasBody(w, t.k);
  }

  lemma OutsideGrows(w: World, o: Outside)
    requires WellBodied(w) && GuardOutside(w, o)
    ensures Grows(w, ApplyOutside(w, o))
  {
    assert o.UserCreateRun? || o.UserCreateTest? ==> !HasBody(w, o.k);
  }

  lemma CommonGrows(w: World, c: Common)
    requires GuardCommon(w, c)
    ensures Grows(w, ApplyCommon(w, c))
  {
  }

  lemma EventGrows(w: World, e: Event, w': World)
    requires WellFormed(w) && Steps(w, e, w')
    ensures Grows(w, w')
  {
    match e
    case Env(o) =>
      EnvStep(w, e, w');
      OutsideGrows(w, o);
    case All(c) =>
      CommonStep(w, e, w');
      CommonGrows(w, c);
    case OfTest(t) =>
      TestStep(w, e, w');
      TestWriteGrows(w, t);
    case OfRun(r) =>
      RunStep(w, e, w');
      RunWriteGrows(w, r);
    case OfSuite(s) =>
      SuiteStep(w, e, w');
      SuiteGrows(w, s);
  }

  // ----- slots of stored Tests

  /** Every Test of a run is named for one of the run's slots. */
  ghost predicate SlotsValid(w: World) {
    forall t, r :: ChildOf(w, t, r) && t.kind == TestKind ==>
      t in w.tests && r in w.runs && ValidSlot(w, t, |w.runs[r].templates|)
  }

  lemma SlotsValidKept(w: World, e: Event, w': World)
    requires WellFormed(w) && SlotsValid(w) && Steps(w, e, w')
    ensures SlotsValid(w')
  {
    EventGrows(w, e, w');
    forall t, r | ChildOf(w', t, r) && t.kind == TestKind
      ensures t in w'.tests && r in w'.runs && ValidSlot(w', t, |w'.runs[r].templates|)
    {
      if t in w.birth {
        OldSlotValid(w, w', t, r);
      } else {
        NewTestSlot(w, e, w', t, r);
      }
    }
  }

  lemma OldSlotValid(w: World, w': World, t: Key, r: Key)
    requires SlotsValid(w) && Grows(w, w') && t in w.birth && ChildOf(w', t, r) && t.kind == TestKind
    ensures t in w'.tests && r in w'.runs && ValidSlot(w', t, |w'.runs[r].templates|)
  {
    assert ChildOf(w, t, r);
  }

  lemma NewTestSlot(w: World, e: Event, w': World, t: Key, r: Key)
    requires WellFormed(w) && Steps(w, e, w') && t !in w.birth && ChildOf(w', t, r) && t.kind == TestKind
    ensures e.OfRun? && e.r.CreateTest? && e.r.k == t && e.r.r == r && r in w.runs && e.r.index < |w.runs[r].templates|
    ensures t in w'.tests && Slot(w', t) == Some(e.r.index % 10)
    ensures r in w'.runs && w'.runs[r] == w.runs[r]
  {
    EventDoes(w, e, w');
    OwnerAtBirth(w, e, w');
    NewTestByRun(w, e, w', t, r);
  }

  lemma NewTestByRun(w: World, e: Event, w': World, t: Key, r: Key)
    requires WellFormed(w) && Steps(w, e, w') && t.kind == TestKind && r in w.birth
    requires EffectOf(e).Creates? && EffectOf(e).k == t && EffectOf(e).owner == Some(r) && r.kind == RunKind
    ensures e.OfRun? && e.r.CreateTest? && e.r.k == t && e.r.r == r && r in w.runs && e.r.index < |w.runs[r].templates|
    ensures t in w'.tests && Slot(w', t) == Some(e.r.index % 10)
    ensures r in w'.runs && w'.runs[r] == w.runs[r]
  {
    if e.OfRun? {
      RunStep(w, e, w');
      ParseGenerated(r, e.r.index);
    } else if e.OfTest? {
      TestStep(w, e, w');
    } else if e.OfSuite? {
      SuiteStep(w, e, w');
    }
  }

  /** Only its creation makes an object live: marks are not undone and names are not used twice. */
  lemma LiveBefore(w: World, e: Event, w': World, k: Key)
    requires Steps(w, e, w') && Live(w', k)
    ensures Live(w, k) || (k !in w.birth && EffectOf(e).Creates? && EffectOf(e).k == k)
  {
    EventDoes(w, e, w');
  }

  /** A run of at most ten templates has at most one live Test for each slot. */
  ghost predicate OneTestPerSlot(w: World) {
    forall t, u, r :: SameSlot(w, t, u, r) ==> t == u
  }

  ghost predicate SameSlot(w: World, t: Key, u: Key, r: Key) {
    && t.kind == TestKind && u.kind == TestKind && Live(w, t) && Live(w, u) && ChildOf(w, t, r) && ChildOf(w, u, r)
    && r in w.runs && |w.runs[r].templates| <= 10 && Slot(w, t) == Slot(w, u)
  }

  lemma OneTestPerSlotKept(w: World, e: Event, w': World)
    requires WellFormed(w) && SlotsValid(w) && OneTestPerSlot(w) && Steps(w, e, w')
    ensures OneTestPerSlot(w')
  {
    EventGrows(w, e, w');
    forall t, u, r | SameSlot(w', t, u, r) ensures t == u {
      SameSlotSameTest(w, e, w', t, u, r);
    }
  }

  lemma SameSlotSameTest(w: World, e: Event, w': World, t: Key, u: Key, r: Key)
    requires WellFormed(w) && SlotsValid(w) && OneTestPerSlot(w) && Steps(w, e, w') && Grows(w, w')
    requires SameSlot(w', t, u, r)
    ensures t == u
  {
    LiveBefore(w, e, w', t);
    LiveBefore(w, e, w', u);
    if t in w.birth && u in w.birth {
      OldSameSlot(w, w', t, u, r);
    } else if t != u {
      if u in w.birth { NewSlotWasFree(w, e, w', t, u, r); } else { NewSlotWasFree(w, e, w', u, t, r); }
    }
  }

  lemma OldSameSlot(w: World, w': World, t: Key, u: Key, r: Key)
    requires WellFormed(w) && SlotsValid(w) && Grows(w, w') && SameSlot(w', t, u, r) && Live(w, t) && Live(w, u)
    ensures SameSlot(w, t, u, r)
  {
    assert ChildOf(w, t, r) && ChildOf(w, u, r);
  }

  lemma NewSlotWasFree(w: World, e: Event, w': World, t: Key, u: Key, r: Key)
    requires WellFormed(w) && SlotsValid(w) && Steps(w, e, w') && Grows(w, w')
    requires t.kind == TestKind && t !in w.birth && ChildOf(w', t, r)
    requires u.kind == TestKind && Live(w, u) && ChildOf(w', u, r)
    requires r in w'.runs && |w'.runs[r].templates| <= 10
    ensures Slot(w', t) != Slot(w', u)
  {
    RunBefore(w, w', u, r);
    NewTestSlot(w, e, w', t, r);
    FreeAtBirth(w, e, w', u);
    SlotStaysFree(w, w', t, u, e.r.index);
  }

  lemma RunBefore(w: World, w': World, u: Key, r: Key)
    requires SlotsValid(w) && Grows(w, w') && u in w.birth && ChildOf(w', u, r) && u.kind == TestKind
    ensures ChildOf(w, u, r) && u in w.tests && r in w.runs && r in w'.runs
    ensures w'.runs[r].templates == w.runs[r].templates
  {
    assert ChildOf(w, u, r);
  }

  lemma SlotStaysFree(w: World, w': World, t: Key, u: Key, index: nat)
    requires Grows(w, w') && u in w.tests && Slot(w, u) != Some(index)
    requires Slot(w', t) == Some(index % 10) && index < 10
    ensures Slot(w', t) != Slot(w', u)
  {
  }

  lemma FreeAtBirth(w: World, e: Event, w': World, u: Key)
    requires Steps(w, e, w') && e.OfRun? && e.r.CreateTest? && Live(w, u) && ChildOf(w, u, e.r.r)
    ensures Slot(w, u) != Some(e.r.index) && e.r.r in w.runs && e.r.index < |w.runs[e.r.r].templates|
  {
    RunStep(w, e, w');
  }

  /** A Test has at most one Pod that is not marked for deletion. */
  ghost predicate OnePodPerTest(w: World) {
    forall p, q, t :: BothLivePods(w, p, q, t) ==> p == q
  }

  ghost predicate BothLivePods(w: World, p: Key, q: Key, t: Key) {
    p.kind == PodKind && q.kind == PodKind && Live(w, p) && Live(w, q) && ChildOf(w, p, t) && ChildOf(w, q, t)
  }

  lemma OnePodPerTestKept(w: World, e: Event, w': World)
    requires WellFormed(w) && OnePodPerTest(w) && Steps(w, e, w')
    ensures OnePodPerTest(w')
  {
    EventDoes(w, e, w');
    forall p, q, t | BothLivePods(w', p, q, t) ensures p == q {
      LiveBefore(w, e, w', p);
      LiveBefore(w, e, w', q);
      if p in w.birth && q in w.birth {
        assert BothLivePods(w, p, q, t);
      } else if p != q {
        if p in w.birth { FirstLivePod(w, e, w', q, p, t); } else { FirstLivePod(w, e, w', p, q, t); }
      }
    }
  }

  lemma FirstLivePod(w: World, e: Event, w': World, p: Key, q: Key, t: Key)
    requires Steps(w, e, w') && EffectOf(e).Creates? && EffectOf(e).k == p && EffectOf(e).owner == Some(t)
    requires p.kind == PodKind
    ensures !(Live(w, q) && ChildOf(w, q, t))
  {
    match e
    case OfTest(_) => TestStep(w, e, w');
    case OfRun(_) => RunStep(w, e, w');
    case OfSuite(_) => SuiteStep(w, e, w');
    case _ =>
  }
}
