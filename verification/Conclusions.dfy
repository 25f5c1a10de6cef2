/** The verdicts of Tests and TestRuns rest on what Pods did. */
module Conclusions {
  import opened Prelude
  import opened Store
  import opened Effects
  import opened Invariants
  import opened Slots
  import opened Verdicts

  // ----- Tests

  /** Some Pod of the Test's own reached this phase. */
  ghost predicate SawPod(w: World, t: Key, phase: PodPhase) {
    exists p :: p in w.pods && ChildOf(w, p, t) && w.pods[p].phase == phase
  }

  ghost predicate VerdictSound(w: World, t: Key) {
    t in w.tests ==>
      && (w.tests[t].phase == TestPassed ==> SawPod(w, t, PodSucceeded))
      && (w.tests[t].phase == TestFailed ==> SawPod(w, t, PodFailed))
  }

  /** A Test has passed only if a Pod of its own succeeded, and failed only if one failed. */
  ghost predicate TestVerdictsSound(w: World) {
    forall t :: VerdictSound(w, t)
  }

  lemma SawPodGrows(w: World, w': World, t: Key, phase: PodPhase)
    requires Grows(w, w') && WellFormed(w) && phase.IsFinished() && SawPod(w, t, phase)
    ensures SawPod(w', t, phase)
  {
    var p :| p in w.pods && ChildOf(w, p, t) && w.pods[p].phase == phase;
    assert p in w'.pods && ChildOf(w', p, t) && w'.pods[p].phase == phase;
  }

  /** Tests are as they were, but for new ones without a phase. */
  ghost predicate TestsOnlyAdded(w: World, w': World) {
    && (forall t :: t in w'.tests ==>
        if t in w.tests then w'.tests[t] == w.tests[t] else w'.tests[t].phase == TestUnset)
    && (forall t :: t in w.tests ==> t in w'.tests)
  }

  lemma OutsideAddsTests(w: World, o: Outside)
    requires WellBodied(w) && GuardOutside(w, o)
    ensures TestsOnlyAdded(w, ApplyOutside(w, o))
  {
    assert o.UserCreateTest? ==> !HasBody(w, o.k);
  }

  lemma RunAddsTests(w: World, r: RunWrite)
    requires WellBodied(w) && GuardRun(w, r)
    ensures TestsOnlyAdded(w, ApplyRun(w, r))
  {
    assert r.CreateTest? ==> !HasBody(w, r.k);
  }

  lemma OthersAddTests(w: World, e: Event, w': World)
    requires WellBodied(w) && Steps(w, e, w') && !e.OfTest?
    ensures TestsOnlyAdded(w, w')
  {
    match e
    case Env(o) =>
      EnvStep(w, e, w');
      OutsideAddsTests(w, o);
    case All(c) =>
      CommonStep(w, e, w');
      CommonKeepsTests(w, c);
    case OfRun(r) =>
      RunStep(w, e, w');
      RunAddsTests(w, r);
    case OfSuite(s) =>
      SuiteStep(w, e, w');
      SuiteKeepsTests(w, s);
  }

  lemma CommonKeepsTests(w: World, c: Common)
    requires GuardCommon(w, c)
    ensures ApplyCommon(w, c).tests == w.tests
  {
  }

  lemma SuiteKeepsTests(w: World, s: SuiteWrite)
    requires GuardSuite(w, s)
    ensures ApplySuite(w, s).tests == w.tests
  {
  }

  /** A Test gets its verdict only from a finished Pod of its own. */
  lemma VerdictFromPod(w: World, e: TestWrite, t: Key)
    requires GuardTest(w, e)
    requires t in ApplyTest(w, e).tests && ApplyTest(w, e).tests[t].phase.IsFinal()
    requires t in w.tests ==> TestInProgress(w, t)
    ensures e.Judge? && e.t == t && t in w.tests
    ensures e.p in w.pods && ChildOf(w, e.p, t)
    ensures w.pods[e.p].phase == if ApplyTest(w, e).tests[t].phase == TestPassed then PodSucceeded else PodFailed
  {
  }

  lemma TestVerdictsKept(w: World, e: Event, w': World)
    requires WellFormed(w) && TestVerdictsSound(w) && Steps(w, e, w')
    ensures TestVerdictsSound(w')
  {
    EventGrows(w, e, w');
    if !e.OfTest? { OthersAddTests(w, e, w'); }
    forall t ensures VerdictSound(w', t) {
      assert VerdictSound(w, t);
      if e.OfTest? {
        TestStep(w, e, w');
        VerdictKeptByTest(w, e.t, w', t);
      } else {
        VerdictKeptByOthers(w, w', t);
      }
    }
  }

  lemma VerdictKeptByOthers(w: World, w': World, t: Key)
    requires WellFormed(w) && VerdictSound(w, t) && Grows(w, w') && TestsOnlyAdded(w, w')
    ensures VerdictSound(w', t)
  {
    if SawPod(w, t, PodSucceeded) { SawPodGrows(w, w', t, PodSucceeded); }
    if SawPod(w, t, PodFailed) { SawPodGrows(w, w', t, PodFailed); }
  }

  lemma VerdictKeptByTest(w: World, e: TestWrite, w': World, t: Key)
    requires WellFormed(w) && VerdictSound(w, t) && GuardTest(w, e) && w' == ApplyTest(w, e) && Grows(w, w')
    ensures VerdictSound(w', t)
  {
    if t in w'.tests && w'.tests[t].phase.IsFinal() && (t in w.tests ==> TestInProgress(w, t)) {
      VerdictFromPod(w, e, t);
    }
    if SawPod(w, t, PodSucceeded) { SawPodGrows(w, w', t, PodSucceeded); }
    if SawPod(w, t, PodFailed) { SawPodGrows(w, w', t, PodFailed); }
  }

  // ----- results of TestRuns

  ghost predicate ResultSound(w: World, r: Key, x: TestResult) {
    && ChildOf(w, x.test, r) && x.test in w.tests && w.tests[x.test].phase.IsFinal()
    && x.passed == (w.tests[x.test].phase == TestPassed)
  }

  /** The list of a tally is one live Test a slot, so the tally names exactly the final ones. */
  lemma TallyMeaning(w: World, r: Key, items: seq<Key>)
    requires WellFormed(w) && SlotsValid(w) && OneTestPerSlot(w)
    requires r.kind == RunKind && r in w.runs && |w.runs[r].templates| <= 10
    requires Listed(w, r, items, |w.runs[r].templates|) && InBounds(w, items, |w.runs[r].templates|)
    ensures OneEach(w, items, |w.runs[r].templates|)
    ensures forall t :: t in items ==> Live(w, t)
    ensures Entries(MappedSlots(w, items, |w.runs[r].templates|)) == Members(items)
    ensures OnceEach(MappedSlots(w, items, |w.runs[r].templates|))
  {
    var n := |w.runs[r].templates|;
    forall i | 0 <= i < |items|
      ensures ValidSlot(w, items[i], n) && Live(w, items[i]) && ChildOf(w, items[i], r) && items[i].kind == TestKind
    {
      assert items[i] in items;
      assert ChildOf(w, items[i], r);
    }
    forall i, j | 0 <= i < j < |items| ensures Slot(w, items[i]) != Slot(w, items[j]) {
      assert !SameSlot(w, items[i], items[j], r);
    }
    MappedEntries(w, items, n);
  }

  /** Runs are as they were, but for new ones without results; a run's phase and results change together. */
  ghost predicate RunsOnlyAdded(w: World, w': World) {
    forall r :: r in w'.runs ==>
      if r in w.runs then w'.runs[r] == w.runs[r]
      else w'.runs[r].phase == RunUnset && w'.runs[r].results == []
  }

  lemma OthersAddRuns(w: World, e: Event, w': World)
    requires WellBodied(w) && Steps(w, e, w') && !e.OfRun?
    ensures RunsOnlyAdded(w, w')
  {
    match e
    case Env(o) =>
      EnvStep(w, e, w');
      OutsideAddsRuns(w, o);
    case All(c) =>
      CommonStep(w, e, w');
      CommonKeepsRuns(w, c);
    case OfTest(t) =>
      TestStep(w, e, w');
      TestKeepsRuns(w, t);
    case OfSuite(s) =>
      SuiteStep(w, e, w');
      SuiteAddsRuns(w, s);
  }

  lemma CommonKeepsRuns(w: World, c: Common)
    requires GuardCommon(w, c)
    ensures ApplyCommon(w, c).runs == w.runs
  {
  }

  lemma TestKeepsRuns(w: World, t: TestWrite)
    requires GuardTest(w, t)
    ensures ApplyTest(w, t).runs == w.runs
  {
  }

  /** Only a tally concludes a run or changes its results. */
  lemma OnlyTallied(w: World, e: Event, w': World, r: Key)
    requires Steps(w, e, w') && e.OfRun? && r in w.runs && !(e.r.Tally? && e.r.r == r)
    ensures r in w'.runs && w'.runs[r].results == w.runs[r].results
    ensures RunInProgress(w, r) ==> RunInProgress(w', r)
  {
    RunStep(w, e, w');
  }

  /** What a tally writes. */
  lemma TallyWrites(w: World, e: Event, w': World)
    requires Steps(w, e, w') && e.OfRun? && e.r.Tally?
    ensures GuardRun(w, e.r) && e.r.r in w.runs && e.r.r in w'.runs
    ensures w'.runs[e.r.r].results == e.r.results && w'.runs[e.r.r].phase == e.r.phase
  {
    RunStep(w, e, w');
  }

  lemma OutsideAddsRuns(w: World, o: Outside)
    requires WellBodied(w) && GuardOutside(w, o)
    ensures RunsOnlyAdded(w, ApplyOutside(w, o))
  {
    assert o.UserCreateRun? ==> !HasBody(w, o.k);
  }

  lemma SuiteAddsRuns(w: World, s: SuiteWrite)
    requires WellBodied(w) && GuardSuite(w, s)
    ensures RunsOnlyAdded(w, ApplySuite(w, s))
  {
    assert s.CreateRun? ==> !HasBody(w, s.k);
  }

  ghost predicate RunResultsSound(w: World, r: Key) {
    r in w.runs ==>
      && EachTestOnce(w.runs[r].results)
      && forall k :: 0 <= k < |w.runs[r].results| ==> ResultSound(w, r, w.runs[r].results[k])
  }

  lemma ResultSoundGrows(w: World, w': World, r: Key, x: TestResult)
    requires Grows(w, w') && ResultSound(w, r, x)
    ensures ResultSound(w', r, x)
  {
  }

  /** What a tally writes: sound results, and a final phase only when every slot has its verdict. */
  lemma TallySound(w: World, r: Key, items: seq<Key>, results: seq<TestResult>)
    requires r in w.runs && Listed(w, r, items, |w.runs[r].templates|)
    requires OnceEach(MappedSlots(w, items, |w.runs[r].templates|))
    requires results == Results(w, MappedSlots(w, items, |w.runs[r].templates|), w.runs[r].templates)
    ensures EachTestOnce(results)
    ensures forall k :: 0 <= k < |results| ==> ResultSound(w, r, results[k])
  {
    var slots := MappedSlots(w, items, |w.runs[r].templates|);
    var done := DoneSlots(w, slots);
    ResultsCover(w, slots, w.runs[r].templates);
    ResultsFollowSlots(w, slots, w.runs[r].templates);
    forall k | 0 <= k < |results| ensures ResultSound(w, r, results[k]) {
      assert ResultOf(w, slots[done[k]], w.runs[r].templates[done[k]], results[k]);
      assert results[k].test in items;
    }
  }

  /** Slots filled by list position hold each entry at most once, whatever the names say. */
  lemma MappedOnceEach(w: World, items: seq<Key>, n: nat)
    requires Distinct(items)
    ensures OnceEach(MappedSlots(w, items, n))
  {
  }

  // ----- verdicts of TestRuns

  /** The results cover every slot of the run, each with a Test of its own. */
  ghost predicate CoversSlots(w: World, r: Key)
    requires r in w.runs
  {
    && |w.runs[r].templates| <= 10 && |w.runs[r].results| == |w.runs[r].templates|
    && (forall k :: 0 <= k < |w.runs[r].results| ==> w.runs[r].results[k].description == w.runs[r].templates[k])
    && (forall p: nat :: p < |w.runs[r].templates| ==> SlotReported(w, w.runs[r].results, p))
  }

  ghost predicate SlotReported(w: World, results: seq<TestResult>, p: nat) {
    exists k :: 0 <= k < |results| && Slot(w, results[k].test) == Some(p)
  }

  ghost predicate RunVerdictSound(w: World, r: Key) {
    r in w.runs && w.runs[r].phase.IsFinal() ==>
      && CoversSlots(w, r)
      && (w.runs[r].phase == RunPassed <==> forall k :: 0 <= k < |w.runs[r].results| ==> w.runs[r].results[k].passed)
  }

  ghost predicate RunSound(w: World, r: Key) { RunResultsSound(w, r) && RunVerdictSound(w, r) }

  /** A final run has one sound result for each slot, and has passed exactly if all of them have. */
  ghost predicate RunsSound(w: World) { forall r :: RunSound(w, r) }

  /** Every slot having its verdict, the list is a permutation of the slots; past the tenth slot that cannot be. */
  lemma AllDoneCovers(w: World, r: Key, items: seq<Key>)
    requires WellFormed(w) && SlotsValid(w) && OneTestPerSlot(w) && r in w.runs && r.kind == RunKind
    requires Listed(w, r, items, |w.runs[r].templates|) && InBounds(w, items, |w.runs[r].templates|)
    requires AllDone(w, MappedSlots(w, items, |w.runs[r].templates|))
    ensures |w.runs[r].templates| <= 10
    ensures var results := Results(w, MappedSlots(w, items, |w.runs[r].templates|), w.runs[r].templates);
            && |results| == |w.runs[r].templates|
            && (forall k :: 0 <= k < |results| ==> results[k].description == w.runs[r].templates[k])
            && (forall p: nat :: p < |w.runs[r].templates| ==> SlotReported(w, results, p))
  {
    var n := |w.runs[r].templates|;
    var slots := MappedSlots(w, items, n);
    assert !Named(w, items, 10);
    assert n > 10 ==> !Counts(w, slots[10]);
    TallyMeaning(w, r, items);
    AllDoneReports(w, items, w.runs[r].templates);
  }

  lemma AllDoneReports(w: World, items: seq<Key>, templates: seq<string>)
    requires OneEach(w, items, |templates|) && InBounds(w, items, |templates|) && Distinct(items)
    requires AllDone(w, MappedSlots(w, items, |templates|))
    ensures var results := Results(w, MappedSlots(w, items, |templates|), templates);
            && |results| == |templates|
            && (forall k :: 0 <= k < |results| ==> results[k].description == templates[k])
            && (forall p: nat :: p < |templates| ==> SlotReported(w, results, p))
  {
    var n := |templates|;
    var slots := MappedSlots(w, items, n);
    var results := Results(w, slots, templates);
    var done := DoneSlots(w, slots);
    DoneWhenFull(w, slots, templates);
    ResultsFollowSlots(w, slots, templates);
    forall k | 0 <= k < n ensures results[k].description == templates[k] {
      AscendingIsIdentity(done, n, k);
      assert ResultOf(w, slots[done[k]], templates[done[k]], results[k]);
    }
    forall p: nat | p < n ensures SlotReported(w, results, p) {
      SlotIsReported(w, items, templates, p);
    }
  }

  lemma SlotIsReported(w: World, items: seq<Key>, templates: seq<string>, p: nat)
    requires OneEach(w, items, |templates|) && InBounds(w, items, |templates|) && Distinct(items)
    requires AllDone(w, MappedSlots(w, items, |templates|)) && p < |templates|
    ensures SlotReported(w, Results(w, MappedSlots(w, items, |templates|), templates), p)
  {
    var n := |templates|;
    var slots := MappedSlots(w, items, n);
    var results := Results(w, slots, templates);
    assert Counts(w, slots[p]) && Named(w, items, p);
    var i :| 0 <= i < |items| && Slot(w, items[i]) == Some(p);
    MappedEntries(w, items, n);
    ResultsCover(w, slots, templates);
    assert items[i] in Entries(slots);
    var q :| 0 <= q < |slots| && slots[q] == Some(items[i]);
    assert Counts(w, slots[q]);
    assert items[i] in TestsOf(results);
    var k :| 0 <= k < |results| && results[k].test == items[i];
  }

  lemma {:induction false} AscendingIsIdentity(s: seq<nat>, n: nat, k: nat)
    requires |s| == n && k < n
    requires forall i :: 0 <= i < n ==> s[i] < n
    requires forall i, j :: 0 <= i < j < n ==> s[i] < s[j]
    ensures s[k] == k
  {
    AtLeastIndex(s, k);
    AtMostIndex(s, k);
  }

  lemma {:induction false} AtLeastIndex(s: seq<nat>, k: nat)
    requires k < |s| && forall i, j :: 0 <= i < j < |s| ==> s[i] < s[j]
    ensures s[k] >= k
  {
    if k > 0 { AtLeastIndex(s, k - 1); }
  }

  lemma {:induction false} AtMostIndex(s: seq<nat>, k: nat)
    requires k < |s| && forall i, j :: 0 <= i < j < |s| ==> s[i] < s[j]
    requires forall i :: 0 <= i < |s| ==> s[i] < |s|
    ensures s[k] <= k
    decreases |s| - k
  {
    if k + 1 < |s| { AtMostIndex(s, k + 1); }
  }

  lemma RunsSoundKept(w: World, e: Event, w': World)
    requires WellFormed(w) && SlotsValid(w) && OneTestPerSlot(w) && RunsSound(w) && Steps(w, e, w')
    ensures RunsSound(w')
  {
    EventGrows(w, e, w');
    if !e.OfRun? { OthersAddRuns(w, e, w'); }
    forall r ensures RunSound(w', r) {
      assert RunSound(w, r);
      if e.OfRun? {
        RunStep(w, e, w');
        RunSoundKeptByRun(w, e.r, w', r);
      } else if r in w.runs {
        RunSoundGrows(w, w', r);
      }
    }
  }

  lemma RunSoundGrows(w: World, w': World, r: Key)
    requires RunSound(w, r) && Grows(w, w') && r in w.runs && w'.runs[r].results == w.runs[r].results
    requires w'.runs[r].phase == w.runs[r].phase || !w'.runs[r].phase.IsFinal()
    ensures RunSound(w', r)
  {
    forall k | 0 <= k < |w.runs[r].results| ensures ResultSound(w', r, w'.runs[r].results[k]) {
      ResultSoundGrows(w, w', r, w.runs[r].results[k]);
    }
    if w'.runs[r].phase.IsFinal() {
      forall p: nat | p < |w.runs[r].templates| ensures SlotReported(w', w'.runs[r].results, p) {
        assert SlotReported(w, w.runs[r].results, p);
        var k :| 0 <= k < |w.runs[r].results| && Slot(w, w.runs[r].results[k].test) == Some(p);
        assert Slot(w', w'.runs[r].results[k].test) == Some(p);
      }
    }
  }

  lemma RunSoundKeptByRun(w: World, e: RunWrite, w': World, r: Key)
    requires WellFormed(w) && SlotsValid(w) && OneTestPerSlot(w) && RunSound(w, r)
    requires GuardRun(w, e) && w' == ApplyRun(w, e) && Grows(w, w')
    ensures RunSound(w', r)
  {
    if e.Tally? && e.r == r {
      RunSoundByTally(w, e, w', r);
    } else if r in w.runs {
      RunSoundGrows(w, w', r);
    }
  }

  ghost predicate SoundReport(w: World, r: Key, templates: seq<string>, phase: RunPhase, results: seq<TestResult>) {
    && EachTestOnce(results)
    && (forall k :: 0 <= k < |results| ==> ResultSound(w, r, results[k]))
    && (phase.IsFinal() ==>
          && |templates| <= 10 && |results| == |templates|
          && (forall k :: 0 <= k < |results| ==> results[k].description == templates[k])
          && (forall p: nat :: p < |templates| ==> SlotReported(w, results, p))
          && (phase == RunPassed <==> forall k :: 0 <= k < |results| ==> results[k].passed))
  }

  lemma TallyReport(w: World, r: Key, items: seq<Key>, phase: RunPhase, results: seq<TestResult>)
    requires WellFormed(w) && SlotsValid(w) && OneTestPerSlot(w) && GuardRun(w, Tally(r, items, phase, results))
    ensures SoundReport(w, r, w.runs[r].templates, phase, results)
  {
    MappedOnceEach(w, items, |w.runs[r].templates|);
    TallySound(w, r, items, results);
    AllPassIffPasses(results);
    if phase.IsFinal() {
      AllDoneCovers(w, r, items);
    }
  }

  lemma RunSoundByTally(w: World, e: RunWrite, w': World, r: Key)
    requires WellFormed(w) && SlotsValid(w) && OneTestPerSlot(w)
    requires e.Tally? && e.r == r && GuardRun(w, e) && w' == ApplyRun(w, e)
    ensures RunSound(w', r)
  {
    TallyReport(w, r, e.items, e.phase, e.results);
    SameTestsSameSoundness(w, w', r, e.results);
    ReportedRunIsSound(w', r);
  }

  lemma ReportedRunIsSound(w: World, r: Key)
    requires r in w.runs && SoundReport(w, r, w.runs[r].templates, w.runs[r].phase, w.runs[r].results)
    ensures RunSound(w, r)
  {
  }

  lemma SameTestsSameSoundness(w: World, w': World, r: Key, results: seq<TestResult>)
    requires w'.birth == w.birth && w'.tests == w.tests
    ensures forall x :: ResultSound(w, r, x) ==> ResultSound(w', r, x)
    ensures forall p: nat :: SlotReported(w, results, p) ==> SlotReported(w', results, p)
  {
    forall p: nat | SlotReported(w, results, p) ensures SlotReported(w', results, p) {
      var k :| 0 <= k < |results| && Slot(w, results[k].test) == Some(p);
      assert Slot(w', results[k].test) == Some(p);
    }
  }

  // ----- results of a running TestRun stay

  ghost predicate ResultStays(w: World, t: Key, r: Key) {
    (Live(w, r) && RunInProgress(w, r) && t in TestsOf(w.runs[r].results) && t !in w.outside) ==> Live(w, t)
  }

  /** While a run is in progress the Tests it has counted stay, unless a user deletes them. */
  ghost predicate ResultsStay(w: World) {
    forall t, r :: ResultStays(w, t, r)
  }

  lemma ResultsStayKept(w: World, e: Event, w': World)
    requires WellFormed(w) && SlotsValid(w) && RunsSound(w) && ResultsStay(w) && Steps(w, e, w')
    ensures ResultsStay(w')
  {
    EventDoes(w, e, w');
    if !e.OfRun? { OthersAddRuns(w, e, w'); }
    forall t, r ensures ResultStays(w', t, r) {
      assert ResultStays(w, t, r) && RunSound(w, r);
      if Live(w', r) && RunInProgress(w', r) && t in TestsOf(w'.runs[r].results) && t !in w'.outside {
        if e.OfRun? {
          RunStep(w, e, w');
          ResultStaysByRun(w, e.r, w', t, r);
        } else {
          LiveBefore(w, e, w', r);
          NewRunIsEmpty(w, e, w', r, t);
          ResultStaysByOthers(w, e, w', t, r);
        }
      }
    }
  }

  lemma NewRunIsEmpty(w: World, e: Event, w': World, r: Key, t: Key)
    requires WellFormed(w) && RunsOnlyAdded(w, w') && r in w'.runs && t in TestsOf(w'.runs[r].results)
    requires Live(w, r) || r !in w.birth
    ensures r in w.runs && Live(w, r)
  {
    assert r in w.runs ==> HasBody(w, r);
  }

  lemma ResultStaysByRun(w: World, e: RunWrite, w': World, t: Key, r: Key)
    requires WellFormed(w) && SlotsValid(w) && ResultStays(w, t, r) && GuardRun(w, e) && w' == ApplyRun(w, e)
    requires Live(w', r) && RunInProgress(w', r) && t in TestsOf(w'.runs[r].results) && t !in w'.outside
    ensures Live(w', t)
  {
    if e.Tally? && e.r == r {
      CountedTestIsLive(w, e.items, r, t);
    } else {
      assert r in w.runs && Live(w, r);
    }
  }

  lemma CountedTestIsLive(w: World, items: seq<Key>, r: Key, t: Key)
    requires WellFormed(w) && SlotsValid(w) && r in w.runs && Listed(w, r, items, |w.runs[r].templates|)
    requires t in TestsOf(Results(w, MappedSlots(w, items, |w.runs[r].templates|), w.runs[r].templates))
    ensures Live(w, t)
  {
    MappedOnceEach(w, items, |w.runs[r].templates|);
    ResultsCover(w, MappedSlots(w, items, |w.runs[r].templates|), w.runs[r].templates);
    assert t in items;
    assert ChildOf(w, t, r);
  }

  lemma ResultStaysByOthers(w: World, e: Event, w': World, t: Key, r: Key)
    requires WellFormed(w) && SlotsValid(w) && RunSound(w, r) && ResultStays(w, t, r) && Steps(w, e, w')
    requires r in w.runs && RunsOnlyAdded(w, w') && Live(w, r)
    requires RunInProgress(w', r) && t in TestsOf(w'.runs[r].results) && t !in w'.outside
    ensures Live(w', t)
  {
    EventDoes(w, e, w');
    NotYetDeleted(w, w', t, r);
    ChildStays(w, e, w', t, r);
  }

  lemma NotYetDeleted(w: World, w': World, t: Key, r: Key)
    requires RunSound(w, r) && ResultStays(w, t, r) && r in w.runs && RunsOnlyAdded(w, w') && Live(w, r)
    requires RunInProgress(w', r) && t in TestsOf(w'.runs[r].results) && t !in w'.outside && w.outside <= w'.outside
    ensures RunInProgress(w, r) && Live(w, t) && ChildOf(w, t, r) && t in w.tests
  {
    CountedIsChild(w, t, r);
  }

  lemma CountedIsChild(w: World, t: Key, r: Key)
    requires RunSound(w, r) && r in w.runs && t in TestsOf(w.runs[r].results)
    ensures ChildOf(w, t, r) && t in w.tests
  {
    var k :| 0 <= k < |w.runs[r].results| && w.runs[r].results[k].test == t;
    assert ResultSound(w, r, w.runs[r].results[k]);
  }

  /** A live Test of a live run in progress stays live unless a user deletes it. */
  lemma ChildStays(w: World, e: Event, w': World, t: Key, r: Key)
    requires WellFormed(w) && SlotsValid(w) && Steps(w, e, w') && Live(w, r) && RunInProgress(w, r)
    requires ChildOf(w, t, r) && t in w.tests && Live(w, t) && t !in w'.outside
    ensures Live(w', t)
  {
    LivesOn(w, e, w', t);
    DeletedTestIsSurplus(w, t, r);
  }

  /** A mark comes from a user, and is remembered as such, or from a controller that had reason to delete. */
  lemma MarkedBy(w: World, e: Event, w': World, k: Key)
    requires Steps(w, e, w') && EffectOf(e) == Marks(k)
    ensures (k in w'.outside && e == Env(UserDelete(k))) || (MayDelete(w, k) && e == All(Delete(k)))
  {
    match e
    case Env(_) => EnvStep(w, e, w');
    case All(_) => CommonStep(w, e, w');
    case _ =>
  }

  lemma LiveAfter(w: World, e: Event, w': World, k: Key)
    requires Steps(w, e, w') && Live(w, k) && EffectOf(e) != Marks(k) && w.meta.Keys <= w.birth.Keys
    ensures Live(w', k)
  {
    EventDoes(w, e, w');
  }

  /** A live object stays live unless a user deletes it or a controller has reason to. */
  lemma LivesOn(w: World, e: Event, w': World, k: Key)
    requires Steps(w, e, w') && Live(w, k) && w.meta.Keys <= w.birth.Keys
    ensures Live(w', k) || k in w'.outside || MayDelete(w, k)
    ensures w.outside <= w'.outside
    ensures k in w'.birth && w'.birth[k] == w.birth[k]
  {
    EventDoes(w, e, w');
    if EffectOf(e) == Marks(k) { MarkedBy(w, e, w', k); } else { LiveAfter(w, e, w', k); }
  }

  /** A controller deletes a Test of a live run in progress only if its name gives no slot. */
  lemma DeletedTestIsSurplus(w: World, t: Key, r: Key)
    requires ChildOf(w, t, r) && Live(w, r) && RunInProgress(w, r)
    ensures MayDelete(w, t) && t.kind == TestKind && r.kind == RunKind ==> !ValidSlot(w, t, |w.runs[r].templates|)
  {
  }
}
