/**
 When the mapping loop of the TestRun reconciler panics: exactly when some live Test of the run names a slot at or above
 the number of its live Tests. For runs of at most ten templates this means that some slot has no live Test while a
 later one has. Only users make such gaps, and a run that panics is stuck until the Test is deleted.
 */
module Gaps {
  import opened Prelude
  import opened Store
  import opened Effects
  import opened Invariants
  import opened Slots
  import opened Verdicts
  import opened Conclusions
  import opened Histories
  import opened Clusters
  import opened TestRunControllers

  /** Slot `q` has a live Test, and the earlier slot `p` has none. */
  ghost predicate Gap(w: World, r: Key, p: nat, q: nat) { p < q && SlotFilled(w, r, q) && !SlotFilled(w, r, p) }

  ghost predicate HasGap(w: World, r: Key) { exists p: nat, q: nat :: Gap(w, r, p, q) }

  ghost predicate Short(w: World, r: Key) { r.kind == RunKind && r in w.runs && |w.runs[r].templates| <= 10 }

  // ----- the panic

  /** In whatever order the live Tests are listed, the loop stays in bounds exactly if none names a slot beyond. */
  lemma InBoundsUnlessBeyond(w: World, r: Key, items: seq<Key>)
    requires r in w.runs && LiveList(w, r, items)
    ensures InBounds(w, items, |w.runs[r].templates|) <==> !NamesBeyond(w, r)
  {
    var n := |w.runs[r].templates|;
    ListSize(items, LiveTestsOf(w, r));
    if !NamesBeyond(w, r) {
      forall i | 0 <= i < |items| && ValidSlot(w, items[i], n) ensures Slot(w, items[i]).value < |items| {
        assert items[i] in items && !Beyond(w, r, items[i]);
      }
    }
    if t :| Beyond(w, r, t) {
      assert t in items;
      var i :| 0 <= i < |items| && items[i] == t;
      assert ValidSlot(w, items[i], n) && Slot(w, items[i]).value >= |items|;
    }
  }

  lemma SomeLiveList(w: World, r: Key) returns (items: seq<Key>)
    ensures LiveList(w, r, items)
  {
    items := AsList(LiveTestsOf(w, r));
  }

  /** A pass over a run panics exactly if a live Test names a slot beyond; otherwise it gets to a tally. */
  lemma PanicsExactlyBeyond(w: World, w': World, r: Key)
    requires r in w.runs
    ensures Overruns(w, r) <==> NamesBeyond(w, r)
    ensures Tallied(w, w', r) ==> !NamesBeyond(w, r)
  {
    if Overruns(w, r) {
      var items :| LiveList(w, r, items) && !InBounds(w, items, |w.runs[r].templates|);
      InBoundsUnlessBeyond(w, r, items);
    }
    if NamesBeyond(w, r) {
      var items := SomeLiveList(w, r);
      InBoundsUnlessBeyond(w, r, items);
    }
    if Tallied(w, w', r) {
      var items :| TalliedBy(w, w', r, items);
      InBoundsUnlessBeyond(w, r, items);
    }
  }

  // ----- gaps of runs of at most ten templates

  lemma ListNamesSlots(w: World, r: Key, items: seq<Key>)
    requires SlotsValid(w) && OneTestPerSlot(w) && Short(w, r) && LiveList(w, r, items)
    ensures OneEach(w, items, |w.runs[r].templates|)
    ensures forall p: nat :: Named(w, items, p) <==> SlotFilled(w, r, p)
  {
    var n := |w.runs[r].templates|;
    forall i | 0 <= i < |items| ensures ValidSlot(w, items[i], n) && items[i] in LiveTestsOf(w, r) {
      assert items[i] in items;
    }
    forall i, j | 0 <= i < j < |items| ensures Slot(w, items[i]) != Slot(w, items[j]) {
      assert items[i] in LiveTestsOf(w, r) && items[j] in LiveTestsOf(w, r);
      assert !SameSlot(w, items[i], items[j], r);
    }
    forall p: nat ensures Named(w, items, p) <==> SlotFilled(w, r, p) { NamedIsFilled(w, r, items, p); }
  }

  lemma NamedIsFilled(w: World, r: Key, items: seq<Key>, p: nat)
    requires LiveList(w, r, items)
    ensures Named(w, items, p) <==> SlotFilled(w, r, p)
  {
    if Named(w, items, p) {
      var i :| 0 <= i < |items| && Slot(w, items[i]) == Some(p);
      assert items[i] in items;
      assert LiveInSlot(w, r, items[i], p);
    }
    if SlotFilled(w, r, p) {
      var t :| LiveInSlot(w, r, t, p);
      assert t in items;
      var i :| 0 <= i < |items| && items[i] == t;
      assert Slot(w, items[i]) == Some(p);
    }
  }

  lemma InBoundsIffNoGap(w: World, r: Key, items: seq<Key>)
    requires SlotsValid(w) && OneTestPerSlot(w) && Short(w, r) && LiveList(w, r, items)
    ensures InBounds(w, items, |w.runs[r].templates|) <==> !HasGap(w, r)
  {
    ListNamesSlots(w, r, items);
    PanicsUnlessSuffixMissing(w, items, |w.runs[r].templates|);
    if !HasGap(w, r) {
      forall p: nat, q: nat | p < q && Named(w, items, q) ensures Named(w, items, p) { assert !Gap(w, r, p, q); }
    }
    if exists p: nat, q: nat :: Gap(w, r, p, q) {
      var p: nat, q: nat :| Gap(w, r, p, q);
      assert Named(w, items, q) && !Named(w, items, p);
    }
  }

  /** In a run of at most ten templates some Test names a slot beyond if and only if there is a gap. */
  lemma BeyondIffGap(w: World, r: Key)
    requires SlotsValid(w) && OneTestPerSlot(w) && Short(w, r)
    ensures NamesBeyond(w, r) <==> HasGap(w, r)
  {
    var items := SomeLiveList(w, r);
    InBoundsUnlessBeyond(w, r, items);
    InBoundsIffNoGap(w, r, items);
  }

  // ----- the phase that a pass concludes

  /** The slot has a live Test with a verdict. */
  ghost predicate SlotDone(w: World, r: Key, p: nat) {
    exists t :: LiveInSlot(w, r, t, p) && w.tests[t].phase.IsFinal()
  }

  ghost predicate SlotPassed(w: World, r: Key, p: nat) {
    exists t :: LiveInSlot(w, r, t, p) && w.tests[t].phase == TestPassed
  }

  ghost predicate EverySlotDone(w: World, r: Key)
    requires r in w.runs
  {
    forall p: nat :: p < |w.runs[r].templates| ==> SlotDone(w, r, p)
  }

  ghost predicate EverySlotPassed(w: World, r: Key)
    requires r in w.runs
  {
    forall p: nat :: p < |w.runs[r].templates| ==> SlotPassed(w, r, p)
  }

  /** The phase that the live Tests of the run call for, slot by slot. */
  ghost function PhaseDue(w: World, r: Key): RunPhase
    requires r in w.runs
  {
    if !EverySlotDone(w, r) then RunRunning else if EverySlotPassed(w, r) then RunPassed else RunFailed
  }

  /** The live Test of a slot is at the position that its mapping gives to some slot. */
  lemma ListedSlots(w: World, r: Key, items: seq<Key>, p: nat)
    requires SlotsValid(w) && OneTestPerSlot(w) && Short(w, r) && LiveList(w, r, items)
    requires InBounds(w, items, |w.runs[r].templates|)
    ensures Mapped(w, items, p) == (if p < |items| then Some(items[p]) else None)
    ensures SlotFilled(w, r, p) <==> p < |items|
    ensures |items| <= |w.runs[r].templates|
  {
    ListNamesSlots(w, r, items);
    NamedArePositions(w, items, |w.runs[r].templates|, p);
    NoMoreThanSlots(w, items, |w.runs[r].templates|);
  }

  lemma OnlyTestOfSlot(w: World, r: Key, t: Key, u: Key, p: nat)
    requires OneTestPerSlot(w) && Short(w, r) && LiveInSlot(w, r, t, p) && LiveInSlot(w, r, u, p)
    ensures t == u
  {
    assert SameSlot(w, t, u, r);
  }

  lemma DoneSlotBySlot(w: World, r: Key, items: seq<Key>)
    requires SlotsValid(w) && OneTestPerSlot(w) && Short(w, r) && LiveList(w, r, items)
    requires InBounds(w, items, |w.runs[r].templates|)
    ensures AllDone(w, MappedSlots(w, items, |w.runs[r].templates|)) <==> EverySlotDone(w, r)
  {
    var n := |w.runs[r].templates|;
    var slots := MappedSlots(w, items, n);
    ListNamesSlots(w, r, items);
    if AllDone(w, slots) {
      forall p: nat | p < n ensures SlotDone(w, r, p) {
        DoneInList(w, r, items, p);
      }
    }
    if EverySlotDone(w, r) {
      forall p | 0 <= p < n ensures Counts(w, slots[p]) {
        ListedSlots(w, r, items, p);
        assert SlotDone(w, r, p);
        FinalAt(w, r, items, p);
      }
    }
  }

  lemma DoneInList(w: World, r: Key, items: seq<Key>, p: nat)
    requires SlotsValid(w) && OneTestPerSlot(w) && Short(w, r) && LiveList(w, r, items)
    requires InBounds(w, items, |w.runs[r].templates|) && p < |w.runs[r].templates|
    requires AllDone(w, MappedSlots(w, items, |w.runs[r].templates|))
    ensures SlotDone(w, r, p)
    ensures SlotPassed(w, r, p) <==> forall t :: LiveInSlot(w, r, t, p) ==> w.tests[t].phase == TestPassed
  {
    var n := |w.runs[r].templates|;
    var slots := MappedSlots(w, items, n);
    assert Counts(w, slots[p]);
    ListedSlots(w, r, items, p);
    assert SlotFilled(w, r, p);
    var t :| LiveInSlot(w, r, t, p);
    assert t in items;
    var i :| 0 <= i < |items| && items[i] == t;
    ListedSlots(w, r, items, i);
    assert slots[i] == Some(t) && Counts(w, slots[i]);
    forall u | LiveInSlot(w, r, u, p) ensures u == t { OnlyTestOfSlot(w, r, t, u, p); }
  }

  lemma FinalAt(w: World, r: Key, items: seq<Key>, p: nat)
    requires SlotsValid(w) && OneTestPerSlot(w) && Short(w, r) && LiveList(w, r, items) && EverySlotDone(w, r)
    requires p < |items| <= |w.runs[r].templates|
    ensures items[p] in w.tests && w.tests[items[p]].phase.IsFinal()
  {
    assert items[p] in items;
    var q := Slot(w, items[p]).value;
    assert ValidSlot(w, items[p], |w.runs[r].templates|) && SlotDone(w, r, q);
    var t :| LiveInSlot(w, r, t, q) && w.tests[t].phase.IsFinal();
    OnlyTestOfSlot(w, r, t, items[p], q);
  }

  /** No slot from the tenth on is ever done, so a run of more than ten templates is Running after each tally. */
  lemma LongIsRunning(w: World, w': World, r: Key, items: seq<Key>)
    requires TalliedBy(w, w', r, items) && |w.runs[r].templates| > 10
    ensures w'.runs[r].phase == RunRunning && PhaseDue(w, r) == RunRunning
  {
    assert !Named(w, items, 10) && !SlotDone(w, r, 10);
    assert !Counts(w, MappedSlots(w, items, |w.runs[r].templates|)[10]);
  }

  /** A tally concludes the phase that the live Tests call for. */
  lemma TallyIsDue(w: World, w': World, r: Key, items: seq<Key>)
    requires SlotsValid(w) && OneTestPerSlot(w) && r.kind == RunKind && TalliedBy(w, w', r, items)
    ensures w'.runs[r].phase == PhaseDue(w, r)
  {
    if Short(w, r) { ShortTallyIsDue(w, w', r, items); } else { LongIsRunning(w, w', r, items); }
  }

  lemma ShortTallyIsDue(w: World, w': World, r: Key, items: seq<Key>)
    requires SlotsValid(w) && OneTestPerSlot(w) && Short(w, r) && TalliedBy(w, w', r, items)
    ensures w'.runs[r].phase == PhaseDue(w, r)
  {
    var n := |w.runs[r].templates|;
    var slots := MappedSlots(w, items, n);
    var results := w'.runs[r].results;
    DoneSlotBySlot(w, r, items);
    AllPassIffPasses(results);
    ResultsFollowSlots(w, slots, w.runs[r].templates);
    if AllDone(w, slots) {
      DoneWhenFull(w, slots, w.runs[r].templates);
      PassedSlotBySlot(w, r, items, results);
    }
  }

  lemma PassedSlotBySlot(w: World, r: Key, items: seq<Key>, results: seq<TestResult>)
    requires SlotsValid(w) && OneTestPerSlot(w) && Short(w, r) && LiveList(w, r, items)
    requires InBounds(w, items, |w.runs[r].templates|) && AllDone(w, MappedSlots(w, items, |w.runs[r].templates|))
    requires results == Results(w, MappedSlots(w, items, |w.runs[r].templates|), w.runs[r].templates)
    ensures (forall k :: 0 <= k < |results| ==> results[k].passed) <==> EverySlotPassed(w, r)
  {
    var n := |w.runs[r].templates|;
    var slots := MappedSlots(w, items, n);
    var s := DoneSlots(w, slots);
    ResultsFollowSlots(w, slots, w.runs[r].templates);
    if forall k :: 0 <= k < |results| ==> results[k].passed {
      forall p: nat | p < n ensures SlotPassed(w, r, p) {
        DoneInList(w, r, items, p);
        forall t | LiveInSlot(w, r, t, p) ensures w.tests[t].phase == TestPassed {
          PassedInList(w, r, items, results, t, p);
        }
      }
    }
    if EverySlotPassed(w, r) {
      forall k | 0 <= k < |results| ensures results[k].passed {
        var p := s[k];
        assert ResultOf(w, slots[p], w.runs[r].templates[p], results[k]);
        ListedSlots(w, r, items, p);
        PassedAt(w, r, items, p);
      }
    }
  }

  lemma PassedInList(w: World, r: Key, items: seq<Key>, results: seq<TestResult>, t: Key, p: nat)
    requires SlotsValid(w) && OneTestPerSlot(w) && Short(w, r) && LiveList(w, r, items) && LiveInSlot(w, r, t, p)
    requires InBounds(w, items, |w.runs[r].templates|) && AllDone(w, MappedSlots(w, items, |w.runs[r].templates|))
    requires results == Results(w, MappedSlots(w, items, |w.runs[r].templates|), w.runs[r].templates)
    requires forall k :: 0 <= k < |results| ==> results[k].passed
    ensures w.tests[t].phase == TestPassed
  {
    var slots := MappedSlots(w, items, |w.runs[r].templates|);
    var s := DoneSlots(w, slots);
    ResultsFollowSlots(w, slots, w.runs[r].templates);
    assert t in items;
    var i :| 0 <= i < |items| && items[i] == t;
    ListedSlots(w, r, items, i);
    assert Counts(w, slots[i]) && i in s;
    var k :| 0 <= k < |s| && s[k] == i;
    assert ResultOf(w, slots[i], w.runs[r].templates[i], results[k]);
  }

  lemma PassedAt(w: World, r: Key, items: seq<Key>, p: nat)
    requires SlotsValid(w) && OneTestPerSlot(w) && Short(w, r) && LiveList(w, r, items) && EverySlotPassed(w, r)
    requires p < |items| <= |w.runs[r].templates|
    ensures items[p] in w.tests && w.tests[items[p]].phase == TestPassed
  {
    assert items[p] in items;
    var q := Slot(w, items[p]).value;
    assert ValidSlot(w, items[p], |w.runs[r].templates|) && SlotPassed(w, r, q);
    var t :| LiveInSlot(w, r, t, q) && w.tests[t].phase == TestPassed;
    OnlyTestOfSlot(w, r, t, items[p], q);
  }

  // ----- one pass

  /** Exactly one live Test of the run is there for the slot. */
  ghost predicate OneLiveTest(w: World, r: Key, p: nat) {
    exists t :: LiveInSlot(w, r, t, p) && forall u :: LiveInSlot(w, r, u, p) ==> u == t
  }

  lemma FilledOnce(w: World, w': World, r: Key)
    requires Leads(w, w') && Short(w, r) && SlotsFilled(w', r)
    ensures forall p: nat :: p < |w.runs[r].templates| ==> OneLiveTest(w', r, p)
  {
    LeadsOn(w, w');
    ReachedSlots(w');
    forall p: nat | p < |w.runs[r].templates| ensures OneLiveTest(w', r, p) {
      assert SlotFilled(w', r, p);
      var t :| LiveInSlot(w', r, t, p);
      forall u | LiveInSlot(w', r, u, p) ensures u == t { OnlyTestOfSlot(w', r, t, u, p); }
    }
  }

  lemma PassOverRun(w: World, w': World, r: Key, out: Ending)
    requires Leads(w, w') && r.kind == RunKind && r in w.runs && (out == Panicked ==> Overruns(w, r))
    requires out == Done ==> Tallied(w, w', r) && SlotsFilled(w', r)
    ensures out == Panicked ==> NamesBeyond(w, r)
    ensures out == Done ==> !NamesBeyond(w, r) && r in w'.runs && w'.runs[r].phase == PhaseDue(w, r)
    ensures out == Done && Short(w, r) ==> forall p: nat :: p < |w.runs[r].templates| ==> OneLiveTest(w', r, p)
  {
    LeadsOn(w, w');
    PanicsExactlyBeyond(w, w', r);
    if out == Done {
      if Short(w, r) { FilledOnce(w, w', r); }
      ReachedSlots(w);
      var items :| TalliedBy(w, w', r, items);
      TallyIsDue(w, w', r, items);
    }
  }

  lemma BeyondIsGap(w: World, w': World, r: Key)
    requires Leads(w, w')
    ensures Short(w, r) ==> (NamesBeyond(w, r) <==> HasGap(w, r))
  {
    LeadsOn(w, w');
    ReachedSlots(w);
    if Short(w, r) { BeyondIffGap(w, r); }
  }

  /**
   The reconciliation of a live run in progress panics only if a live Test names a slot at or above the number of live
   Tests, and without failures whenever one does. If it ends, the run has the phase that its live Tests called for. In a
   run of at most ten templates it panics at gaps, and leaves exactly one live Test for each slot otherwise.
   */
  method ReconcileRun(api: Cluster, r: Key) returns (out: Ending)
    requires api.Valid() && r.kind == RunKind && Live(api.w, r) && RunInProgress(api.w, r)
    modifies api
    ensures api.Valid() && old(api.log) <= api.log
    ensures out == Panicked ==> NamesBeyond(old(api.w), r)
    ensures out == Done ==> !NamesBeyond(old(api.w), r)
    ensures out == Done ==> r in api.w.runs && api.w.runs[r].phase == PhaseDue(old(api.w), r)
    ensures api.reliable ==> (out == Panicked <==> NamesBeyond(old(api.w), r))
    ensures Short(old(api.w), r) ==> (NamesBeyond(old(api.w), r) <==> HasGap(old(api.w), r))
    ensures out == Done && Short(old(api.w), r) ==>
              forall p: nat :: p < |old(api.w).runs[r].templates| ==> OneLiveTest(api.w, r, p)
  {
    var reconciler := new TestRunReconciler(api);
    out := reconciler.Reconcile(r);
    api.Leading(old(api.w), old(api.log));
    PassOverRun(old(api.w), api.w, r, out);
    BeyondIsGap(old(api.w), api.w, r);
  }

  // ----- where gaps come from

  /** Since the first world a user has deleted a Test of this slot. */
  ghost predicate DeletedSince(w0: World, w: World, r: Key, p: nat) {
    exists t :: ChildOf(w, t, r) && Slot(w, t) == Some(p) && t in w.outside && t !in w0.outside
  }

  /** For each gap that was not there in the first world a user has deleted a Test of the slot that is empty. */
  ghost predicate GapMade(w0: World, w: World, r: Key, p: nat, q: nat) {
    r.kind == RunKind && Live(w, r) && RunInProgress(w, r) && Gap(w, r, p, q) ==>
      Gap(w0, r, p, q) || DeletedSince(w0, w, r, p)
  }

  lemma SlotEmptied(w: World, e: Event, w': World, r: Key, t: Key, p: nat)
    requires WellFormed(w) && SlotsValid(w) && Steps(w, e, w') && Live(w, r) && RunInProgress(w, r) && r.kind == RunKind
    requires LiveInSlot(w, r, t, p) && !LiveInSlot(w', r, t, p)
    ensures ChildOf(w', t, r) && Slot(w', t) == Some(p) && t in w'.outside
  {
    EventGrows(w, e, w');
    assert t in w.tests && ChildOf(w, t, r);
    if t !in w'.outside { ChildStays(w, e, w', t, r); }
  }

  /** A Test is created only where the slots before its own are filled and no Test names a slot beyond. */
  lemma NewTestFillsNext(w: World, e: Event, w': World, r: Key, t: Key)
    requires WellFormed(w) && SlotsValid(w) && Steps(w, e, w') && r.kind == RunKind && r in w.runs
    requires t.kind == TestKind && Live(w', t) && ChildOf(w', t, r) && !Live(w, t)
    ensures !NamesBeyond(w, r) && Slot(w', t).Some? && FilledUpTo(w, r, Slot(w', t).value)
  {
    LiveBefore(w, e, w', t);
    EventGrows(w, e, w');
    NewTestSlot(w, e, w', t, r);
    RunStep(w, e, w');
    assert e.r.index % 10 <= e.r.index;
  }

  lemma GapBefore(w: World, e: Event, w': World, r: Key, p: nat, q: nat)
    requires WellFormed(w) && SlotsValid(w) && Steps(w, e, w') && r.kind == RunKind && Live(w, r) && RunInProgress(w, r)
    requires Gap(w', r, p, q)
    ensures || Gap(w, r, p, q)
            || exists t :: Live(w, t) && ChildOf(w', t, r) && Slot(w', t) == Some(p) && t in w'.outside
  {
    if SlotFilled(w, r, p) {
      var t :| LiveInSlot(w, r, t, p);
      SlotEmptied(w, e, w', r, t, p);
    } else if !SlotFilled(w, r, q) {
      var t :| LiveInSlot(w', r, t, q);
      NotThereBefore(w, e, w', r, t, q);
      NewTestFillsNext(w, e, w', r, t);
    }
  }

  lemma NotThereBefore(w: World, e: Event, w': World, r: Key, t: Key, q: nat)
    requires WellFormed(w) && SlotsValid(w) && Steps(w, e, w') && LiveInSlot(w', r, t, q) && !SlotFilled(w, r, q)
    ensures !Live(w, t)
  {
    EventGrows(w, e, w');
    if Live(w, t) {
      RunBefore(w, w', t, r);
      assert LiveInSlot(w, r, t, q);
    }
  }

  lemma GapMadeKept(w0: World, w: World, e: Event, w': World, r: Key, p: nat, q: nat)
    requires WellFormed(w) && SlotsValid(w) && OneTestPerSlot(w) && Steps(w, e, w') && GapMade(w0, w, r, p, q)
    requires forall t :: t in w0.outside ==> !Live(w, t)
    ensures GapMade(w0, w', r, p, q)
  {
    EventGrows(w, e, w');
    if r.kind == RunKind && Live(w', r) && RunInProgress(w', r) && Gap(w', r, p, q) {
      RunWasThere(w, e, w', r, q);
      GapBefore(w, e, w', r, p, q);
      if DeletedSince(w0, w, r, p) { StillDeleted(w0, w, e, w', r, p); }
    }
  }

  lemma StillDeleted(w0: World, w: World, e: Event, w': World, r: Key, p: nat)
    requires Steps(w, e, w') && Grows(w, w') && DeletedSince(w0, w, r, p)
    ensures DeletedSince(w0, w', r, p)
  {
    EventDoes(w, e, w');
    var t :| ChildOf(w, t, r) && Slot(w, t) == Some(p) && t in w.outside && t !in w0.outside;
    assert ChildOf(w', t, r) && Slot(w', t) == Some(p) && t in w'.outside;
  }

  lemma RunWasThere(w: World, e: Event, w': World, r: Key, q: nat)
    requires WellFormed(w) && Steps(w, e, w') && Grows(w, w') && r.kind == RunKind
    requires Live(w', r) && RunInProgress(w', r) && SlotFilled(w', r, q)
    ensures Live(w, r) && RunInProgress(w, r)
  {
    LiveBefore(w, e, w', r);
    if r in w.birth {
      assert HasBody(w, r);
    } else {
      var t :| LiveInSlot(w', r, t, q);
      LiveBefore(w, e, w', t);
      NewRunIsChildless(w, e, w', r, t);
    }
  }

  lemma NewRunIsChildless(w: World, e: Event, w': World, r: Key, t: Key)
    requires WellFormed(w) && Steps(w, e, w') && r !in w.birth && r.kind == RunKind && t.kind == TestKind
    requires EffectOf(e).Creates? && EffectOf(e).k == r
    ensures !ChildOf(w', t, r)
  {
    EventDoes(w, e, w');
  }

  lemma {:induction false} GapMadeAlong(early: seq<Event>, late: seq<Event>, r: Key, p: nat, q: nat)
    requires Legal(late) && early <= late && Legal(early)
    ensures GapMade(After(early), After(late), r, p, q)
  {
    if early != late {
      var before := late[..|late| - 1];
      assert early <= before;
      GapMadeAlong(early, before, r, p, q);
      HistoryAdvances(early, before);
      forall t | t in After(early).outside ensures !Live(After(before), t) { AskedAlong(before, t); }
      Reachable(before);
      LastStep(late);
      GapMadeKept(After(early), After(before), late[|late| - 1], After(late), r, p, q);
    }
  }

  /** Failures do not make gaps: if one comes up, a user has deleted the Test that is missing. */
  lemma GapsAreMadeByUsers(w0: World, w: World, r: Key, p: nat, q: nat)
    requires Leads(w0, w) && r.kind == RunKind && Live(w, r) && RunInProgress(w, r)
    requires Gap(w, r, p, q) && !Gap(w0, r, p, q)
    ensures DeletedSince(w0, w, r, p)
  {
    var early, late := LogsOf(w0, w);
    GapMadeAlong(early, late, r, p, q);
    assert GapMade(w0, w, r, p, q);
  }

  // ----- how long it lasts

  /** The live Test `t` makes each pass over the run in progress panic. */
  ghost predicate Stuck(w: World, r: Key, t: Key) {
    r.kind == RunKind && Live(w, r) && RunInProgress(w, r) && Beyond(w, r, t)
  }

  lemma ReportedIsFilled(w: World, r: Key, items: seq<Key>, results: seq<TestResult>, p: nat)
    requires WellFormed(w) && SlotsValid(w) && r in w.runs && r.kind == RunKind
    requires Listed(w, r, items, |w.runs[r].templates|) && SlotReported(w, results, p)
    requires results == Results(w, MappedSlots(w, items, |w.runs[r].templates|), w.runs[r].templates)
    ensures SlotFilled(w, r, p)
  {
    var k :| 0 <= k < |results| && Slot(w, results[k].test) == Some(p);
    var t := results[k].test;
    assert t in TestsOf(results);
    CountedTestIsLive(w, items, r, t);
    MappedOnceEach(w, items, |w.runs[r].templates|);
    ResultsCover(w, MappedSlots(w, items, |w.runs[r].templates|), w.runs[r].templates);
    assert t in items;
    assert ChildOf(w, t, r) && Fits(t.kind, r.kind);
    assert LiveInSlot(w, r, t, p);
  }

  /** A tally gives a verdict only if every slot is filled. */
  lemma VerdictNeedsSlots(w: World, e: RunWrite, p: nat)
    requires WellFormed(w) && SlotsValid(w) && OneTestPerSlot(w) && GuardRun(w, e) && e.Tally? && e.phase.IsFinal()
    requires p < |w.runs[e.r].templates|
    ensures SlotFilled(w, e.r, p)
  {
    TallyReport(w, e.r, e.items, e.phase, e.results);
    assert SlotReported(w, e.results, p);
    ReportedIsFilled(w, e.r, e.items, e.results, p);
  }

  lemma StuckInProgress(w: World, e: Event, w': World, r: Key, t: Key)
    requires WellFormed(w) && SlotsValid(w) && OneTestPerSlot(w) && Steps(w, e, w') && Stuck(w, r, t)
    ensures RunInProgress(w', r)
  {
    EventGrows(w, e, w');
    if !e.OfRun? {
      OthersAddRuns(w, e, w');
    } else if e.r.Tally? && e.r.r == r {
      TallyWrites(w, e, w');
      if e.r.phase.IsFinal() {
        forall p: nat | p < |w.runs[r].templates| ensures SlotFilled(w, r, p) { VerdictNeedsSlots(w, e.r, p); }
        CountsFilled(w, r, |w.runs[r].templates|);
      }
    } else {
      OnlyTallied(w, e, w', r);
    }
  }

  /** While the run panics it gets no new Test. */
  lemma NoNewTest(w: World, e: Event, w': World, r: Key)
    requires WellFormed(w) && SlotsValid(w) && Steps(w, e, w') && r.kind == RunKind && NamesBeyond(w, r)
    ensures LiveTestsOf(w', r) <= LiveTestsOf(w, r)
  {
    EventGrows(w, e, w');
    forall u | u in LiveTestsOf(w', r) ensures u in LiveTestsOf(w, r) {
      if Live(w, u) { RunBefore(w, w', u, r); } else { NewTestFillsNext(w, e, w', r, u); }
    }
  }

  lemma StillBeyond(w: World, w': World, r: Key, t: Key)
    requires Grows(w, w') && Beyond(w, r, t) && t in LiveTestsOf(w', r) && LiveTestsOf(w', r) <= LiveTestsOf(w, r)
    ensures Beyond(w', r, t)
  {
    SubsetSize(LiveTestsOf(w', r), LiveTestsOf(w, r));
  }

  lemma StuckStep(w: World, e: Event, w': World, r: Key, t: Key)
    requires WellFormed(w) && SlotsValid(w) && OneTestPerSlot(w) && Steps(w, e, w') && Stuck(w, r, t)
    requires Live(w', r) && t !in w'.outside
    ensures Stuck(w', r, t)
  {
    EventGrows(w, e, w');
    ChildStays(w, e, w', t, r);
    StuckInProgress(w, e, w', r, t);
    NoNewTest(w, e, w', r);
    StillBeyond(w, w', r, t);
  }

  lemma {:induction false} StuckAlong(early: seq<Event>, late: seq<Event>, r: Key, t: Key)
    requires Legal(late) && early <= late && Legal(early) && Stuck(After(early), r, t)
    requires Live(After(late), r) && t !in After(late).outside
    ensures Stuck(After(late), r, t)
  {
    if early != late {
      var before := late[..|late| - 1];
      assert early <= before;
      HistoryAdvances(before, late);
      HistoryAdvances(early, before);
      Reachable(early);
      Reachable(before);
      assert r in After(before).birth;
      LiveEarlier(After(before), After(late), r);
      StuckAlong(early, before, r, t);
      LastStep(late);
      StuckStep(After(before), late[|late| - 1], After(late), r, t);
    }
  }

  /** A run that panics goes on to, and stays in progress, until it is deleted or a user deletes the Test at fault. */
  lemma PanicStays(w: World, w': World, r: Key, t: Key)
    requires Leads(w, w') && Stuck(w, r, t) && Live(w', r) && t !in w'.outside
    ensures Stuck(w', r, t)
  {
    var early, late := LogsOf(w, w');
    StuckAlong(early, late, r, t);
  }

  /** The Test `t` is live in slot `q`, and the earlier slot `p` is empty. */
  ghost predicate GapBehind(w: World, r: Key, p: nat, t: Key, q: nat) {
    && Short(w, r) && Live(w, r) && RunInProgress(w, r)
    && p < q && LiveInSlot(w, r, t, q) && !SlotFilled(w, r, p)
  }

  lemma StaysEmpty(w: World, e: Event, w': World, r: Key, p: nat)
    requires WellFormed(w) && SlotsValid(w) && Steps(w, e, w') && r.kind == RunKind && r in w.runs && NamesBeyond(w, r)
    requires !SlotFilled(w, r, p)
    ensures !SlotFilled(w', r, p)
  {
    NoNewTest(w, e, w', r);
    forall v ensures !LiveInSlot(w', r, v, p) {
      if LiveInSlot(w', r, v, p) { NotThereBefore(w, e, w', r, v, p); }
    }
  }

  lemma GapMakesStuck(w: World, r: Key, p: nat, t: Key, q: nat) returns (u: Key)
    requires SlotsValid(w) && OneTestPerSlot(w) && GapBehind(w, r, p, t, q)
    ensures Stuck(w, r, u) && ValidSlot(w, t, |w.runs[r].templates|)
  {
    assert ChildOf(w, t, r) && SlotFilled(w, r, q) && Gap(w, r, p, q);
    BeyondIffGap(w, r);
    u :| Beyond(w, r, u);
  }

  lemma GapStep(w: World, e: Event, w': World, r: Key, p: nat, t: Key, q: nat)
    requires WellFormed(w) && SlotsValid(w) && OneTestPerSlot(w) && Steps(w, e, w') && GapBehind(w, r, p, t, q)
    requires Live(w', r) && t !in w'.outside
    ensures GapBehind(w', r, p, t, q)
  {
    var u := GapMakesStuck(w, r, p, t, q);
    StuckInProgress(w, e, w', r, u);
    StaysEmpty(w, e, w', r, p);
    EventGrows(w, e, w');
    ChildStays(w, e, w', t, r);
  }

  lemma {:induction false} GapAlong(early: seq<Event>, late: seq<Event>, r: Key, p: nat, t: Key, q: nat)
    requires Legal(late) && early <= late && Legal(early) && GapBehind(After(early), r, p, t, q)
    requires Live(After(late), r) && t !in After(late).outside
    ensures GapBehind(After(late), r, p, t, q)
  {
    if early != late {
      var before := late[..|late| - 1];
      assert early <= before;
      HistoryAdvances(before, late);
      HistoryAdvances(early, before);
      Reachable(early);
      Reachable(before);
      assert r in After(before).birth;
      LiveEarlier(After(before), After(late), r);
      GapAlong(early, before, r, p, t, q);
      LastStep(late);
      GapStep(After(before), late[|late| - 1], After(late), r, p, t, q);
    }
  }

  /** A gap of a run of at most ten templates stays until the run is deleted or a user deletes the later Test. */
  lemma GapStays(w: World, w': World, r: Key, p: nat, t: Key, q: nat)
    requires Leads(w, w') && GapBehind(w, r, p, t, q) && Live(w', r) && t !in w'.outside
    ensures GapBehind(w', r, p, t, q)
  {
    var early, late := LogsOf(w, w');
    GapAlong(early, late, r, p, t, q);
  }
}
