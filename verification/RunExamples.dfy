/**
 Histories of one run in which something promised does not hold. The writes come in the order in which passes of the
 reconcilers issue them; a pass that fails stops.
 */
module RunExamples {
  import opened Prelude
  import opened Store
  import opened Invariants
  import opened Slots
  import opened Histories
  import opened Gaps
  import opened Guarantees

  const RUN := Key(RunKind, "run")
  const TWO := ["first", "second"]
  const FAILED := [TestResult("first", T(1), false), TestResult("second", T(0), true)]

  /** The names of the Tests, one for each. */
  function T(i: nat): Key { Key(TestKind, seq(i + 1, _ => 't')) }

  /** The names of their Pods. */
  function P(i: nat): Key { Key(PodKind, seq(i + 1, _ => 'p')) }

  // ----- a run gets its Tests

  /** A run, and nothing else. */
  lemma Started(templates: seq<string>) returns (w: World)
    ensures Reached(w) && w.birth == map[RUN := Birth(None, 0)] && w.tests == map[]
    ensures w.meta == map[RUN := Meta([TestRunController], false)]
    ensures w.runs == map[RUN := Run(Always, templates, RunStarting, [])]
  {
    Begins();
    w := Goes(EMPTY, Env(UserCreateRun(RUN, Always, templates)));
    var none: seq<Finalizer> := [];
    assert none + [TestRunController] == [TestRunController];
    assert w.meta == map[RUN := Meta(none, false)];
    w := Goes(w, All(Hold(RUN)));
    w := Goes(w, OfRun(RunStarts(RUN)));
  }

  /** The index for which the `i`th Test is created: the eleventh slot is found empty again and again. */
  function Index(i: nat): nat { if i < 10 then i else 10 }

  ghost predicate NewTest(w: World, i: nat) {
    && T(i) in w.meta && w.meta[T(i)] == Meta([TestController], false) && ChildOf(w, T(i), RUN)
    && T(i) in w.tests && w.tests[T(i)] == Test(GenerateName(RUN, Index(i)), Always, TestUnset)
  }

  /** The run has got `n` Tests, and nothing has happened to them yet. */
  ghost predicate NewTests(w: World, templates: seq<string>, n: nat) {
    && RUN in w.meta && w.meta[RUN] == Meta([TestRunController], false)
    && RUN in w.runs && w.runs[RUN] == Run(Always, templates, RunStarting, [])
    && (forall k :: k in w.birth ==> k == RUN || exists i: nat :: i < n && k == T(i))
    && (forall i: nat :: i < n ==> NewTest(w, i))
  }

  lemma SlotOfNew(w: World, i: nat)
    requires NewTest(w, i)
    ensures Slot(w, T(i)) == Some(Index(i) % 10)
  {
    ParseGenerated(RUN, Index(i));
  }

  lemma NamesDiffer(i: nat, j: nat)
    ensures T(i) == T(j) <==> i == j
    ensures P(i) == P(j) <==> i == j
  {
    assert |T(i).name| == i + 1 && |T(j).name| == j + 1 && |P(i).name| == i + 1 && |P(j).name| == j + 1;
  }

  /** The slots before the next one are filled, it is free, and no Test names a slot beyond. */
  lemma SlotFree(w: World, templates: seq<string>, n: nat)
    requires WellBorn(w) && NewTests(w, templates, n)
    ensures forall t :: t in w.meta && ChildOf(w, t, RUN) && Live(w, t) ==> Slot(w, t) != Some(Index(n))
    ensures FilledUpTo(w, RUN, n) && !NamesBeyond(w, RUN)
  {
    forall p: nat | p < n && p < 10 ensures SlotFilled(w, RUN, p) {
      SlotOfNew(w, p);
      assert LiveInSlot(w, RUN, T(p), p);
    }
    CountsFilled(w, RUN, if n < 10 then n else 10);
    forall t | t in w.meta && ChildOf(w, t, RUN)
      ensures Slot(w, t) != Some(Index(n)) && !Beyond(w, RUN, t)
    {
      var i: nat :| i < n && t == T(i);
      SlotOfNew(w, i);
    }
  }

  lemma OneMoreIsNew(w: World, w': World, templates: seq<string>, n: nat)
    requires NewTests(w, templates, n) && GuardRun(w, CreateTest(T(n), RUN, Index(n)))
    requires w' == ApplyRun(w, CreateTest(T(n), RUN, Index(n)))
    ensures NewTests(w', templates, n + 1)
  {
    forall i: nat | i < n + 1 ensures NewTest(w', i) {
      NamesDiffer(i, n);
      if i < n { assert NewTest(w, i); }
    }
    forall k | k in w'.birth ensures k == RUN || exists i: nat :: i < n + 1 && k == T(i) {
      if k in w.birth && k != RUN {
        var i: nat :| i < n && k == T(i);
        assert i < n + 1;
      } else {
        assert n < n + 1;
      }
    }
  }

  lemma OneMoreTest(w0: World, templates: seq<string>, n: nat) returns (w: World)
    requires Reached(w0) && NewTests(w0, templates, n) && (n < |templates| <= 10 || 10 < |templates|)
    ensures Reached(w) && NewTests(w, templates, n + 1)
  {
    ReachedOwned(w0);
    SlotFree(w0, templates, n);
    forall i: nat | i < n ensures T(n) != T(i) { NamesDiffer(n, i); }
    w := Goes(w0, OfRun(CreateTest(T(n), RUN, Index(n))));
    OneMoreIsNew(w0, w, templates, n);
  }

  /** The run can get as many Tests as it has templates, and with more than ten templates any number of them. */
  lemma {:induction false} GetsTests(templates: seq<string>, n: nat) returns (w: World)
    requires n <= |templates| || 10 < |templates|
    ensures Reached(w) && NewTests(w, templates, n)
  {
    if n == 0 {
      w := Started(templates);
    } else {
      w := GetsTests(templates, n - 1);
      w := OneMoreTest(w, templates, n - 1);
    }
  }

  // ----- more than ten templates

  /**
   The eleventh Test of a run of more than ten templates names the first slot, as the first Test does, and so do as many
   more as there are passes.
   */
  lemma EverMoreTests(templates: seq<string>, n: nat) returns (w: World)
    requires 10 < |templates| && 10 < n
    ensures Reached(w) && RunInProgress(w, RUN)
    ensures LiveInSlot(w, RUN, T(0), 0)
    ensures forall i: nat :: 10 <= i < n ==> LiveInSlot(w, RUN, T(i), 0)
  {
    w := GetsTests(templates, n);
    assert RunInProgress(w, RUN);
    forall i: nat | i == 0 || 10 <= i < n ensures LiveInSlot(w, RUN, T(i), 0) { SlotOfNew(w, i); }
  }

  // ----- a gap

  lemma OnlySecondLeft(w: World, w': World)
    requires NewTests(w, TWO, 2) && Stored(w, T(0)) && w' == ApplyOutside(w, UserDelete(T(0)))
    ensures HasGap(w', RUN)
  {
    NamesDiffer(0, 1);
    SlotOfNew(w, 0);
    SlotOfNew(w, 1);
    assert LiveInSlot(w', RUN, T(1), 1);
    forall t ensures !LiveInSlot(w', RUN, t, 0) {
      if LiveInSlot(w', RUN, t, 0) {
        var i: nat :| i < 2 && t == T(i);
      }
    }
    assert Gap(w', RUN, 0, 1);
  }

  /** Once the first of two Tests has been deleted, the pass over the run panics. */
  lemma DeletingTheFirstTest() returns (w: World)
    ensures Reached(w) && Short(w, RUN) && Live(w, RUN) && RunInProgress(w, RUN)
    ensures HasGap(w, RUN)
  {
    var w0 := GetsTests(TWO, 2);
    NamesDiffer(0, 1);
    SlotOfNew(w0, 0);
    SlotOfNew(w0, 1);
    w := Goes(w0, Env(UserDelete(T(0))));
    OnlySecondLeft(w0, w);
  }

  lemma StillThere(w: World, w': World, i: nat)
    requires NewTest(w, i) && i != 1 && Stored(w, T(1)) && w' == ApplyOutside(w, UserDelete(T(1)))
    ensures T(i) in LiveTestsOf(w', RUN) && Slot(w', T(i)) == Some(Index(i) % 10)
  {
    NamesDiffer(i, 1);
    SlotOfNew(w, i);
  }

  lemma TenLeft(w: World, w': World, templates: seq<string>)
    requires NewTests(w, templates, 11) && Stored(w, T(1)) && w' == ApplyOutside(w, UserDelete(T(1)))
    ensures 10 <= |LiveTestsOf(w', RUN)|
  {
    var items := seq(10, i requires 0 <= i < 10 => T(if i == 0 then 0 else i + 1));
    forall i | 0 <= i < 10 ensures items[i] in LiveTestsOf(w', RUN) { StillThere(w, w', if i == 0 then 0 else i + 1); }
    forall i, j | 0 <= i < j < 10 ensures items[i] != items[j] { NamesDiffer(if i == 0 then 0 else i + 1, j + 1); }
    SizeOfDistinct(items, 10);
    SubsetSize(set i | 0 <= i < 10 :: items[i], LiveTestsOf(w', RUN));
  }

  lemma NotInSecond(w: World, w': World, templates: seq<string>, t: Key)
    requires WellBorn(w) && NewTests(w, templates, 11) && Stored(w, T(1)) && w' == ApplyOutside(w, UserDelete(T(1)))
    requires Live(w', t) && ChildOf(w', t, RUN)
    ensures Slot(w', t) != Some(1)
  {
    var i: nat :| i < 11 && t == T(i);
    if i != 1 { StillThere(w, w', i); }
  }

  /** Once the second of eleven Tests has been deleted, its slot is empty, and no Test names a slot beyond. */
  lemma SecondDeleted(w: World, w': World, templates: seq<string>)
    requires WellBorn(w) && NewTests(w, templates, 11) && Stored(w, T(1)) && w' == ApplyOutside(w, UserDelete(T(1)))
    ensures Gap(w', RUN, 1, 2) && !NamesBeyond(w', RUN) && FilledUpTo(w', RUN, 1)
    ensures forall t :: t in w'.meta && ChildOf(w', t, RUN) && Live(w', t) ==> Slot(w', t) != Some(1)
  {
    TenLeft(w, w', templates);
    forall t | t in w'.meta && ChildOf(w', t, RUN) && Live(w', t) ensures Slot(w', t) != Some(1) {
      NotInSecond(w, w', templates, t);
    }
    StillThere(w, w', 0);
    StillThere(w, w', 2);
    assert LiveInSlot(w', RUN, T(0), 0) && LiveInSlot(w', RUN, T(2), 2);
  }

  lemma FillsSlot(w: World, t: Key, r: Key, p: nat) returns (w': World)
    requires Reached(w) && GuardRun(w, CreateTest(t, r, p)) && p < 10 && |r.name| > 0
    ensures Leads(w, w') && SlotFilled(w', r, p)
  {
    w' := Goes(w, OfRun(CreateTest(t, r, p)));
    ParseGenerated(r, p);
    assert LiveInSlot(w', r, t, p);
  }

  /** A run of more than ten templates may have a gap and not panic, and then the next pass may fill the gap. */
  lemma GapWithoutPanic(templates: seq<string>) returns (w: World, w': World)
    requires 10 < |templates|
    ensures Leads(w, w') && Live(w, RUN) && RunInProgress(w, RUN)
    ensures Gap(w, RUN, 1, 2) && !NamesBeyond(w, RUN) && SlotFilled(w', RUN, 1)
  {
    var w0 := GetsTests(templates, 11);
    ReachedOwned(w0);
    assert NewTest(w0, 1);
    w := Goes(w0, Env(UserDelete(T(1))));
    SecondDeleted(w0, w, templates);
    forall i: nat | i < 11 ensures T(11) != T(i) { NamesDiffer(11, i); }
    assert RunInProgress(w, RUN);
    w' := FillsSlot(w, T(11), RUN, 1);
  }

  // ----- a list that is not in slot order

  function Verdict(phase: PodPhase): TestPhase { if phase == PodSucceeded then TestPassed else TestFailed }

  /** The Test has got its verdict from the one Pod that it had. */
  ghost predicate Concluded(w: World, w': World, i: nat, verdict: TestPhase) {
    && T(i) in w.tests && w'.tests == w.tests[T(i) := w.tests[T(i)].(phase := verdict)] && w'.runs == w.runs
    && w'.birth == w.birth[P(i) := Birth(Some(T(i)), w.now)] && w'.meta == w.meta[P(i) := Meta([TestController], false)]
  }

  ghost predicate Untouched(w: World, i: nat) {
    && NewTest(w, i) && P(i) !in w.birth && forall q :: q in w.meta ==> !ChildOf(w, q, T(i))
  }

  /** The Test has got its Pod. */
  ghost predicate HasPod(w: World, w': World, i: nat, phase: TestPhase, podPhase: PodPhase) {
    && T(i) in w.tests && w'.tests == w.tests[T(i) := w.tests[T(i)].(phase := phase)] && w'.runs == w.runs
    && w'.birth == w.birth[P(i) := Birth(Some(T(i)), w.now)] && w'.meta == w.meta[P(i) := Meta([TestController], false)]
    && P(i) in w'.pods && w'.pods[P(i)] == Pod(podPhase)
  }

  lemma CreatesPod(w0: World, i: nat) returns (w: World)
    requires Reached(w0) && Untouched(w0, i)
    ensures Reached(w) && HasPod(w0, w, i, TestPending, PodPending)
  {
    w := Goes(w0, OfTest(TestQueued(T(i))));
    w := Goes(w, OfTest(CreatePod(P(i), T(i))));
  }

  /** The first pass over a Test creates its Pod and makes it Starting. */
  lemma GetsPod(w0: World, i: nat) returns (w: World)
    requires Reached(w0) && Untouched(w0, i)
    ensures Reached(w) && HasPod(w0, w, i, TestStarting, PodPending)
  {
    w := CreatesPod(w0, i);
    assert ChildOf(w, P(i), T(i)) && Live(w, T(i)) && TestInProgress(w, T(i));
    w := Goes(w, OfTest(TestMoves(T(i), TestStarting)));
  }

  lemma PodJudged(w0: World, t: Key, p: Key) returns (w: World)
    requires Reached(w0) && GuardTest(w0, Judge(t, p))
    ensures Reached(w) && w == w0.(tests := w0.tests[t := w0.tests[t].(phase := Verdict(w0.pods[p].phase))])
  {
    w := Goes(w0, OfTest(Judge(t, p)));
  }

  /** The Pod finishes, and the next pass gives the Test its verdict. */
  lemma GetsVerdict(w0: World, i: nat, phase: PodPhase) returns (w: World)
    requires Reached(w0) && Untouched(w0, i) && phase.IsFinished()
    ensures Reached(w) && Concluded(w0, w, i, Verdict(phase))
  {
    w := GetsPod(w0, i);
    w := Goes(w, Env(PodMoves(P(i), phase)));
    assert ChildOf(w, P(i), T(i)) && Live(w, T(i)) && TestInProgress(w, T(i));
    w := PodJudged(w, T(i), P(i));
  }

  /** The first Test has passed and the second failed. */
  ghost predicate BothConcluded(w: World) {
    && RUN in w.meta && w.meta[RUN] == Meta([TestRunController], false)
    && RUN in w.runs && w.runs[RUN] == Run(Always, TWO, RunStarting, [])
    && (forall k :: k in w.meta && ChildOf(w, k, RUN) ==> k == T(0) || k == T(1))
    && (forall i: nat :: i < 2 ==> LiveInSlot(w, RUN, T(i), i))
    && w.tests[T(0)].phase == TestPassed && w.tests[T(1)].phase == TestFailed
  }

  lemma FreshPod(w: World, templates: seq<string>, n: nat, i: nat)
    requires WellBorn(w) && NewTests(w, templates, n) && i < n
    ensures Untouched(w, i)
  {
    assert NewTest(w, i) && forall q :: q in w.meta ==> q in w.birth;
    forall q | q in w.meta ensures !ChildOf(w, q, T(i)) { assert ChildOf(w, q, T(i)) ==> Fits(q.kind, T(i).kind); }
  }

  lemma OtherUntouched(w: World, w': World, verdict: TestPhase)
    requires Untouched(w, 1) && NewTest(w, 0) && Concluded(w, w', 0, verdict)
    ensures Untouched(w', 1)
  {
    NamesDiffer(0, 1);
  }

  lemma RunUntouched(w: World, w1: World, w2: World)
    requires NewTests(w, TWO, 2) && Concluded(w, w1, 0, TestPassed) && Concluded(w1, w2, 1, TestFailed)
    ensures RUN in w2.meta && w2.meta[RUN] == Meta([TestRunController], false)
    ensures RUN in w2.runs && w2.runs[RUN] == Run(Always, TWO, RunStarting, [])
  {
  }

  lemma IsConcluded(w: World, w1: World, w2: World, i: nat)
    requires NewTest(w, i) && T(0) != T(1) && Concluded(w, w1, 0, TestPassed) && Concluded(w1, w2, 1, TestFailed)
    requires Slot(w, T(i)) == Some(i)
    ensures LiveInSlot(w2, RUN, T(i), i)
    ensures i < 2 ==> w2.tests[T(i)].phase == if i == 0 then TestPassed else TestFailed
  {
  }

  lemma IsOneOfTwo(w: World, w1: World, w2: World, k: Key)
    requires WellBorn(w) && NewTests(w, TWO, 2) && Concluded(w, w1, 0, TestPassed) && Concluded(w1, w2, 1, TestFailed)
    requires k in w2.meta && ChildOf(w2, k, RUN)
    ensures k == T(0) || k == T(1)
  {
    var i: nat :| i < 2 && k == T(i);
  }

  lemma AreConcluded(w: World, w1: World, w2: World)
    requires WellBorn(w) && NewTests(w, TWO, 2) && Slot(w, T(0)) == Some(0) && Slot(w, T(1)) == Some(1)
    requires Concluded(w, w1, 0, TestPassed) && Concluded(w1, w2, 1, TestFailed)
    ensures BothConcluded(w2)
  {
    NamesDiffer(0, 1);
    assert NewTest(w, 0) && NewTest(w, 1);
    IsConcluded(w, w1, w2, 0);
    IsConcluded(w, w1, w2, 1);
    RunUntouched(w, w1, w2);
    forall k | k in w2.meta && ChildOf(w2, k, RUN) ensures k == T(0) || k == T(1) { IsOneOfTwo(w, w1, w2, k); }
  }

  lemma BothConclude() returns (w: World)
    ensures Reached(w) && BothConcluded(w)
  {
    var w0 := GetsTests(TWO, 2);
    ReachedOwned(w0);
    FreshPod(w0, TWO, 2, 0);
    FreshPod(w0, TWO, 2, 1);
    SlotOfNew(w0, 0);
    SlotOfNew(w0, 1);
    var w1 := GetsVerdict(w0, 0, PodSucceeded);
    OtherUntouched(w0, w1, TestPassed);
    w := GetsVerdict(w1, 1, PodFailed);
    AreConcluded(w0, w1, w);
  }

  lemma MappedAcross(w: World)
    requires BothConcluded(w)
    ensures MappedSlots(w, [T(1), T(0)], 2) == [Some(T(1)), Some(T(0))]
    ensures Results(w, [Some(T(1)), Some(T(0))], TWO) == FAILED
    ensures InBounds(w, [T(1), T(0)], 2)
  {
    var items := [T(1), T(0)];
    assert Slot(w, items[0]) == Some(1) && Slot(w, items[1]) == Some(0);
    assert Named(w, items, 0) && Named(w, items, 1);
    var slots := [Some(T(1)), Some(T(0))];
    assert slots[..1] == [Some(T(1))] && slots[..1][..0] == [];
    assert Results(w, slots[..1], TWO) == [TestResult("first", T(1), false)];
  }

  lemma ListedAcross(w: World)
    requires BothConcluded(w)
    ensures Listed(w, RUN, [T(1), T(0)], 2)
  {
    NamesDiffer(0, 1);
    var items := [T(1), T(0)];
    assert T(1) in items && T(0) in items;
  }

  lemma FailedAcross(w: World)
    requires BothConcluded(w)
    ensures Outcome(w, [Some(T(1)), Some(T(0))], FAILED) == RunFailed
  {
    assert FAILED[..1] == [FAILED[0]] && !FAILED[0].passed;
    assert Passes(FAILED) == 1;
  }

  lemma MayTally(w: World)
    requires BothConcluded(w)
    ensures GuardRun(w, Tally(RUN, [T(1), T(0)], RunFailed, FAILED))
  {
    MappedAcross(w);
    ListedAcross(w);
    FailedAcross(w);
    assert RunInProgress(w, RUN);
  }

  /** Where the list is out of slot order, each line of the results describes the template of the other Test. */
  lemma LinesChangePlaces() returns (w: World)
    ensures Reached(w) && RUN in w.runs && w.runs[RUN] == Run(Always, TWO, RunFailed, FAILED)
    ensures Slot(w, T(0)) == Some(0) && w.tests[T(0)].phase == TestPassed
    ensures Slot(w, T(1)) == Some(1) && w.tests[T(1)].phase == TestFailed
  {
    var w0 := BothConclude();
    MayTally(w0);
    w := Goes(w0, OfRun(Tally(RUN, [T(1), T(0)], RunFailed, FAILED)));
  }

  // ----- more than ten templates: results that shrink

  /** Of `m` live Tests the first has passed and the others have no verdict; the first ten name the ten slots. */
  ghost predicate OneDone(w: World, templates: seq<string>, m: nat) {
    && 10 < m && 10 < |templates|
    && RUN in w.meta && w.meta[RUN] == Meta([TestRunController], false)
    && RUN in w.runs && w.runs[RUN].templates == templates && w.runs[RUN].phase in {RunStarting, RunRunning}
    && (forall k :: k in w.birth && k.kind == TestKind ==> exists i: nat :: i < m && k == T(i))
    && forall i: nat :: i < m ==> IsThere(w, i)
  }

  ghost predicate IsThere(w: World, i: nat) {
    && T(i) in LiveTestsOf(w, RUN) && T(i) in w.tests
    && w.tests[T(i)].phase == (if i == 0 then TestPassed else TestUnset)
    && Slot(w, T(i)).Some? && (i < 10 ==> Slot(w, T(i)) == Some(i))
  }

  lemma FirstDone(w: World, w': World, templates: seq<string>)
    requires WellBorn(w) && NewTests(w, templates, 11) && Concluded(w, w', 0, TestPassed) && 10 < |templates|
    ensures OneDone(w', templates, 11)
  {
    forall i: nat | i < 11 ensures IsThere(w', i) {
      NamesDiffer(0, i);
      SlotOfNew(w, i);
    }
    forall k | k in w'.birth && k.kind == TestKind ensures exists i: nat :: i < 11 && k == T(i) { assert k in w.birth; }
  }

  // The Tests that a pass creates before it tallies: one for each template from the eleventh on.

  lemma MayCreate(w: World, templates: seq<string>, m: nat, index: nat)
    requires WellBorn(w) && OneDone(w, templates, m) && 10 <= index < |templates|
    ensures GuardRun(w, CreateTest(T(m), RUN, index))
  {
    forall p: nat | p < 10 ensures SlotFilled(w, RUN, p) { assert IsThere(w, p) && LiveInSlot(w, RUN, T(p), p); }
    CountsFilled(w, RUN, 10);
    forall i: nat | i < m ensures T(m) != T(i) { NamesDiffer(m, i); }
    assert RunInProgress(w, RUN);
  }

  lemma OneCreated(w: World, w': World, templates: seq<string>, m: nat, index: nat)
    requires OneDone(w, templates, m) && GuardRun(w, CreateTest(T(m), RUN, index))
    requires w' == ApplyRun(w, CreateTest(T(m), RUN, index))
    ensures OneDone(w', templates, m + 1)
  {
    forall i: nat | i < m + 1 ensures IsThere(w', i) {
      NamesDiffer(i, m);
      ParseGenerated(RUN, index);
      if i < m { assert IsThere(w, i); }
    }
    forall k | k in w'.birth && k.kind == TestKind ensures exists i: nat :: i < m + 1 && k == T(i) {
      if k != T(m) {
        var i: nat :| i < m && k == T(i);
        assert i < m + 1;
      }
    }
  }

  lemma {:induction false} CreatesLast(w0: World, w: World, templates: seq<string>, m: nat, index: nat)
    returns (w': World, m': nat)
    requires Leads(w0, w) && OneDone(w, templates, m) && 10 <= index <= |templates|
    ensures Leads(w0, w') && OneDone(w', templates, m') && m <= m'
    decreases |templates| - index
  {
    if index == |templates| {
      w', m' := w, m;
    } else {
      assert WellBorn(w) by { LeadsOn(w0, w); }
      MayCreate(w, templates, m, index);
      w' := GoesOn(w0, w, OfRun(CreateTest(T(m), RUN, index)));
      OneCreated(w, w', templates, m, index);
      w', m' := CreatesLast(w0, w', templates, m + 1, index + 1);
    }
  }

  /** The first `m` Tests in their order, or with the first and the eleventh in each other's place. */
  function Listing(m: nat, inOrder: bool): (items: seq<Key>)
    ensures |items| == m && forall i :: 0 <= i < m ==> items[i] == T(Entry(inOrder, i))
  {
    seq(m, i requires 0 <= i < m => T(Entry(inOrder, i)))
  }

  function Entry(inOrder: bool, i: nat): nat { if inOrder then i else if i == 0 then 10 else if i == 10 then 0 else i }

  /** The list that the pass has read before it created further Tests. */
  lemma IsListed(w: World, templates: seq<string>, m: nat, k: nat, inOrder: bool)
    requires WellBorn(w) && OneDone(w, templates, m) && 10 < k <= m
    ensures Listed(w, RUN, Listing(k, inOrder), |templates|) && InBounds(w, Listing(k, inOrder), |templates|)
  {
    var items := Listing(k, inOrder);
    forall i | 0 <= i < k ensures IsThere(w, Entry(inOrder, i)) && items[i] == T(Entry(inOrder, i)) {}
    forall i, j | 0 <= i < j < k ensures items[i] != items[j] { NamesDiffer(Entry(inOrder, i), Entry(inOrder, j)); }
    forall t | t in w.meta && ChildOf(w, t, RUN) && Live(w, t)
      ensures t in items || (t in w.tests && w.tests[t].phase == TestUnset)
    {
      assert Fits(t.kind, RUN.kind);
      IsListedOrNew(w, templates, m, k, inOrder, t);
    }
  }

  lemma IsListedOrNew(w: World, templates: seq<string>, m: nat, k: nat, inOrder: bool, t: Key)
    requires OneDone(w, templates, m) && 10 < k <= m && t in w.birth && t.kind == TestKind
    ensures t in Listing(k, inOrder) || (t in w.tests && w.tests[t].phase == TestUnset)
  {
    var i: nat :| i < m && t == T(i);
    assert IsThere(w, i);
    if i == 0 { assert Listing(k, inOrder)[if inOrder then 0 else 10] == T(0); }
  }

  /** Only the first slot counts, and only if the first Test is at the first position: the eleventh is never named. */
  lemma FirstCounts(w: World, templates: seq<string>, m: nat, k: nat, inOrder: bool, p: nat)
    requires OneDone(w, templates, m) && 10 < k <= m && p < |templates|
    ensures Counts(w, Mapped(w, Listing(k, inOrder), p)) <==> inOrder && p == 0
    ensures inOrder && p == 0 ==> Mapped(w, Listing(k, inOrder), p) == Some(T(0))
  {
    var items := Listing(k, inOrder);
    if p < k {
      assert items[p] == T(Entry(inOrder, p)) && IsThere(w, Entry(inOrder, p));
    }
    if inOrder && p == 0 {
      assert items[0] == T(0) && IsThere(w, 0);
      assert Named(w, items, 0);
    }
  }

  function Shown(templates: seq<string>, inOrder: bool): seq<TestResult>
    requires templates != []
  {
    if inOrder then [TestResult(templates[0], T(0), true)] else []
  }

  lemma {:induction false} LinesOf(w: World, slots: seq<Option<Key>>, templates: seq<string>, inOrder: bool)
    requires 0 < |slots| <= |templates| && forall p :: 0 <= p < |slots| ==> (Counts(w, slots[p]) <==> inOrder && p == 0)
    requires inOrder ==> slots[0] == Some(T(0)) && T(0) in w.tests && w.tests[T(0)].phase == TestPassed
    ensures Results(w, slots, templates) == Shown(templates, inOrder)
  {
    if |slots| > 1 {
      LinesOf(w, slots[..|slots| - 1], templates, inOrder);
    } else {
      assert slots[..0] == [];
    }
  }

  lemma MayShow(w: World, templates: seq<string>, m: nat, k: nat, inOrder: bool)
    requires WellBorn(w) && OneDone(w, templates, m) && 10 < k <= m
    ensures GuardRun(w, Tally(RUN, Listing(k, inOrder), RunRunning, Shown(templates, inOrder)))
  {
    var slots := MappedSlots(w, Listing(k, inOrder), |templates|);
    IsListed(w, templates, m, k, inOrder);
    forall p | 0 <= p < |templates|
      ensures Counts(w, slots[p]) <==> inOrder && p == 0
      ensures inOrder && p == 0 ==> slots[p] == Some(T(0))
    {
      FirstCounts(w, templates, m, k, inOrder, p);
    }
    assert IsThere(w, 0);
    LinesOf(w, slots, templates, inOrder);
    assert !Counts(w, slots[1]);
    assert RunInProgress(w, RUN);
  }

  /** A pass without failures creates a Test for each template from the eleventh on, and writes what it has counted. */
  lemma Shows(w: World, templates: seq<string>, m: nat, inOrder: bool) returns (w': World, m': nat)
    requires Leads(w, w) && OneDone(w, templates, m)
    ensures Leads(w, w') && OneDone(w', templates, m')
    ensures RUN in w'.runs && w'.runs[RUN].results == Shown(templates, inOrder)
  {
    w', m' := CreatesLast(w, w, templates, m, 10);
    var w1 := w';
    assert WellBorn(w1) by { LeadsOn(w, w1); }
    MayShow(w1, templates, m', m, inOrder);
    w' := GoesOn(w, w1, OfRun(Tally(RUN, Listing(m, inOrder), RunRunning, Shown(templates, inOrder))));
    forall i: nat | i < m' ensures IsThere(w', i) { assert IsThere(w1, i); }
  }

  /** In a run of more than ten templates a Test once among the results drops out if the list comes in another order. */
  lemma ResultsShrink(templates: seq<string>) returns (w: World, w': World)
    requires 10 < |templates|
    ensures Leads(w, w') && Reported(w, RUN, T(0), true) && !Reported(w', RUN, T(0), true)
    ensures Live(w', T(0)) && T(0) !in w'.outside
  {
    var w0 := GetsTests(templates, 11);
    ReachedOwned(w0);
    assert NewTest(w0, 0);
    FreshPod(w0, templates, 11, 0);
    var w1 := GetsVerdict(w0, 0, PodSucceeded);
    FirstDone(w0, w1, templates);
    Stays(w1);
    var m;
    w, m := Shows(w1, templates, 11, true);
    LeadsOn(w1, w);
    Stays(w);
    w', m := Shows(w, templates, m, false);
    assert IsLineOf(w.runs[RUN].results[0], T(0), true) && IsThere(w', 0);
    LeadsOn(w, w');
    if T(0) in w'.outside { AskedIsNotLive(w', T(0)); }
  }
}
