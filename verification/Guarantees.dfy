/** The main guarantees: what holds in every world that a legal history reaches, whatever failed in it. */
module Guarantees {
  import opened Prelude
  import opened Store
  import opened Effects
  import opened Invariants
  import opened Slots
  import opened Verdicts
  import opened Conclusions
  import opened SuiteStates
  import opened Histories

  // ----- ownership

  /** No owner goes before its children: it is stored, and its own controller holds it. */
  lemma OwnerOutlives(w: World, c: Key, p: Key)
    requires Reached(w) && Stored(w, c) && ChildOf(w, c, p) && !MayOutlive(w, c)
    ensures Stored(w, p) && Holds(w, p, OwnFinalizer(p.kind)) && Fits(c.kind, p.kind)
  {
    ReachedOwned(w);
    assert HeldByOwner(w, c, p);
  }

  // ----- verdicts

  /** A Test of slot `p` of the run that has this verdict, which rests on one of its own Pods. */
  ghost predicate Concluded(w: World, r: Key, t: Key, p: nat, verdict: TestPhase) {
    && ChildOf(w, t, r) && Slot(w, t) == Some(p) && t in w.tests && w.tests[t].phase == verdict
    && match verdict
       case TestPassed => SawPod(w, t, PodSucceeded)
       case TestFailed => SawPod(w, t, PodFailed)
       case _ => false
  }

  ghost predicate SlotConcluded(w: World, r: Key, p: nat, verdict: TestPhase) {
    exists t :: Concluded(w, r, t, p, verdict)
  }

  /**
   A run that has passed has, for each template, a Test that passed on a Pod that succeeded. A run that has failed has
   a verdict for each template, one of them on a Pod that failed. A run of more than ten templates is never final.
   */
  lemma VerdictsRestOnPods(w: World, r: Key)
    requires Reached(w) && r in w.runs && w.runs[r].phase.IsFinal()
    ensures |w.runs[r].templates| <= 10
    ensures forall p: nat :: p < |w.runs[r].templates| ==>
              || SlotConcluded(w, r, p, TestPassed)
              || (w.runs[r].phase == RunFailed && SlotConcluded(w, r, p, TestFailed))
    ensures w.runs[r].phase == RunFailed ==> exists p: nat :: SlotConcluded(w, r, p, TestFailed)
  {
    ReachedVerdicts(w);
    assert RunSound(w, r);
    forall p: nat | p < |w.runs[r].templates|
      ensures SlotConcluded(w, r, p, TestPassed) || (w.runs[r].phase == RunFailed && SlotConcluded(w, r, p, TestFailed))
    {
      assert SlotReported(w, w.runs[r].results, p);
      var k :| 0 <= k < |w.runs[r].results| && Slot(w, w.runs[r].results[k].test) == Some(p);
      ResultConcludes(w, r, k, p);
    }
    if w.runs[r].phase == RunFailed {
      var k :| 0 <= k < |w.runs[r].results| && !w.runs[r].results[k].passed;
      ResultSlot(w, r, k);
      ResultConcludes(w, r, k, Slot(w, w.runs[r].results[k].test).value);
    }
  }

  lemma ResultSlot(w: World, r: Key, k: nat)
    requires SlotsValid(w) && WellFormed(w) && RunSound(w, r) && r in w.runs && k < |w.runs[r].results|
    ensures Slot(w, w.runs[r].results[k].test).Some?
  {
    assert ResultSound(w, r, w.runs[r].results[k]);
  }

  lemma ResultConcludes(w: World, r: Key, k: nat, p: nat)
    requires RunSound(w, r) && TestVerdictsSound(w) && r in w.runs && k < |w.runs[r].results|
    requires Slot(w, w.runs[r].results[k].test) == Some(p)
    ensures SlotConcluded(w, r, p, if w.runs[r].results[k].passed then TestPassed else TestFailed)
  {
    var t := w.runs[r].results[k].test;
    assert ResultSound(w, r, w.runs[r].results[k]) && VerdictSound(w, t);
    assert Concluded(w, r, t, p, w.tests[t].phase);
  }

  // ----- one Test a slot, one Pod a Test

  /** Live Tests of one run name different slots, all of them below the number of templates. */
  lemma DifferentSlots(w: World, r: Key, t: Key, u: Key)
    requires Reached(w) && r in w.runs && |w.runs[r].templates| <= 10 && t != u
    requires Live(w, t) && ChildOf(w, t, r) && Live(w, u) && ChildOf(w, u, r)
    ensures ValidSlot(w, t, |w.runs[r].templates|) && Slot(w, t) != Slot(w, u)
  {
    ReachedSlots(w);
    assert Fits(t.kind, r.kind) && Fits(u.kind, r.kind);
    assert !SameSlot(w, t, u, r);
  }

  /** A Test never has two live Pods. */
  lemma OneLivePod(w: World, t: Key, p: Key, q: Key)
    requires Reached(w) && t.kind == TestKind
    requires Live(w, p) && ChildOf(w, p, t) && Live(w, q) && ChildOf(w, q, t)
    ensures p == q
  {
    ReachedSlots(w);
    assert Fits(p.kind, t.kind) && Fits(q.kind, t.kind);
    assert BothLivePods(w, p, q, t) ==> p == q;
  }

  // ----- suites

  /** Between reconciliations the books of a suite balance, and its conditions say what its phase and run say. */
  lemma BooksBalance(w: World, s: Key)
    requires Reached(w) && s in w.suites && w.suites[s].account.awaiting == None
    ensures var x := w.suites[s];
            var needs := x.status.phase == SuiteRunning && x.status.current == None;
            var tracks := x.status.phase == SuiteRunning && x.status.current.Some?;
            && x.account.creations == x.account.assignments + x.account.losses
            && x.account.triggers == x.account.assignments + One(needs)
            && x.account.assignments + x.account.adoptions == x.account.completions + One(tracks)
            && (x.status.phase != SuiteRunning ==> x.status.current == None)
            && (IsTrue(x.status.conditions, NeedsRun) <==> needs)
            && (IsTrue(x.status.conditions, RunStarted) ==> tracks)
            && (x.status.nextRun.Some? ==> IsTrue(x.status.conditions, HasSchedule))
  {
    ReachedSuites(w);
    assert StateSound(w.suites[s]);
  }

  /** The tracked run of a suite that no user has deleted is live if and only if no user has deleted it either. */
  lemma CurrentRunIsLive(w: World, s: Key, r: Key)
    requires Reached(w) && s in w.suites && w.suites[s].status.current == Some(r)
    ensures ChildOf(w, r, s) && r.kind == RunKind
    ensures s !in w.outside ==> (Live(w, r) <==> r !in w.outside)
  {
    ReachedSuites(w);
    assert Tracked(w, s) && Fits(r.kind, s.kind);
    if r in w.outside { AskedIsNotLive(w, r); }
  }

  ghost predicate TracksLost(w: World, s: Key, r: Key) {
    && s in w.suites && w.suites[s].status.phase == SuiteRunning && w.suites[s].status.current == Some(r)
    && r in w.birth && !Live(w, r)
  }

  lemma SuiteWriteKeepsLost(w: World, e: SuiteWrite, s: Key, r: Key)
    requires GuardSuite(w, e) && TracksLost(w, s, r) && e.s == s
    ensures NextSuite(w.suites[s], e).status.phase == SuiteRunning
    ensures NextSuite(w.suites[s], e).status.current == Some(r)
  {
  }

  lemma LostStaysLost(w: World, e: Event, w': World, s: Key, r: Key)
    requires WellFormed(w) && Steps(w, e, w') && TracksLost(w, s, r)
    ensures r in w'.birth && !Live(w', r) && s in w'.suites
  {
    EventDoes(w, e, w');
    SuitesRemain(w, e, w', s);
    if Live(w', r) { LiveBefore(w, e, w', r); }
  }

  lemma LostStep(w: World, e: Event, w': World, s: Key, r: Key)
    requires WellFormed(w) && Steps(w, e, w') && TracksLost(w, s, r)
    ensures TracksLost(w', s, r)
  {
    LostStaysLost(w, e, w', s, r);
    if e.OfSuite? {
      SuiteWritten(w, e, w');
      if e.s.s == s { SuiteWriteKeepsLost(w, e.s, s, r); }
    } else {
      OthersKeepStatus(w, e, w');
    }
  }

  lemma {:induction false} LostAlong(early: seq<Event>, late: seq<Event>, s: Key, r: Key)
    requires Legal(late) && early <= late && Legal(early) && TracksLost(After(early), s, r)
    ensures TracksLost(After(late), s, r)
  {
    if early != late {
      var before := late[..|late| - 1];
      assert early <= before;
      LostAlong(early, before, s, r);
      Reachable(before);
      LastStep(late);
      LostStep(After(before), late[|late| - 1], After(late), s, r);
    }
  }

  /** A suite whose current run has been deleted stays Running with that run, whatever happens afterwards. */
  lemma StuckForever(w: World, w': World, s: Key, r: Key)
    requires Leads(w, w') && TracksLost(w, s, r)
    ensures TracksLost(w', s, r)
  {
    var early, late := LogsOf(w, w');
    LostAlong(early, late, s, r);
  }

  // ----- progress

  /** A verdict is for good: phase and results of a final run do not change, and it gets no more Tests. */
  lemma FinalRunStays(w: World, w': World, r: Key)
    requires Leads(w, w') && r in w.runs && w.runs[r].phase.IsFinal()
    ensures r in w'.runs && w'.runs[r] == w.runs[r]
    ensures forall t :: ChildOf(w', t, r) <==> ChildOf(w, t, r)
  {
    LeadsOn(w, w');
    assert HasBody(w, r) && r.kind == RunKind;
    forall t ensures ChildOf(w', t, r) <==> ChildOf(w, t, r) {}
  }

  /** The same for a Test and its Pods. */
  lemma FinalTestStays(w: World, w': World, t: Key)
    requires Leads(w, w') && t in w.tests && w.tests[t].phase.IsFinal()
    ensures t in w'.tests && w'.tests[t] == w.tests[t]
    ensures forall p :: ChildOf(w', p, t) <==> ChildOf(w, p, t)
  {
    LeadsOn(w, w');
    assert HasBody(w, t) && t.kind == TestKind;
    forall p ensures ChildOf(w', p, t) <==> ChildOf(w, p, t) {}
  }

  lemma TallyKeepsResults(w: World, e: RunWrite, t: Key)
    requires Invariant(w) && GuardRun(w, e) && e.Tally? && |w.runs[e.r].templates| <= 10
    requires t in TestsOf(w.runs[e.r].results) && t !in w.outside
    ensures t in TestsOf(e.results)
  {
    var r, n := e.r, |w.runs[e.r].templates|;
    assert ResultStays(w, t, r) && RunSound(w, r);
    var k :| 0 <= k < |w.runs[r].results| && w.runs[r].results[k].test == t;
    assert ResultSound(w, r, w.runs[r].results[k]);
    assert t in e.items;
    TallyMeaning(w, r, e.items);
    ResultsCover(w, MappedSlots(w, e.items, n), w.runs[r].templates);
    assert t in Members(e.items);
  }

  lemma ResultsStep(w: World, e: Event, w': World, r: Key, t: Key)
    requires Invariant(w) && Steps(w, e, w') && r in w.runs && |w.runs[r].templates| <= 10
    requires t in TestsOf(w.runs[r].results) && t !in w.outside
    ensures r in w'.runs && t in TestsOf(w'.runs[r].results)
  {
    EventGrows(w, e, w');
    if !e.OfRun? {
      OthersAddRuns(w, e, w');
    } else if e.r.Tally? && e.r.r == r {
      TallyWrites(w, e, w');
      TallyKeepsResults(w, e.r, t);
    } else {
      OnlyTallied(w, e, w', r);
    }
  }

  lemma StillShort(w0: World, w: World, w': World, r: Key, t: Key)
    requires Grows(w0, w) && MetaAdvances(w, w') && r in w0.runs && |w0.runs[r].templates| <= 10 && t !in w'.outside
    ensures r in w.runs && |w.runs[r].templates| <= 10 && t !in w.outside
  {
  }

  lemma {:induction false} ResultsAlong(early: seq<Event>, late: seq<Event>, r: Key, t: Key)
    requires Legal(late) && early <= late && Legal(early)
    requires r in After(early).runs && |After(early).runs[r].templates| <= 10
    requires t in TestsOf(After(early).runs[r].results) && t !in After(late).outside
    ensures r in After(late).runs && t in TestsOf(After(late).runs[r].results)
  {
    if early != late {
      var before := late[..|late| - 1];
      assert early <= before;
      HistoryAdvances(before, late);
      HistoryAdvances(early, before);
      StillShort(After(early), After(before), After(late), r, t);
      ResultsAlong(early, before, r, t);
      Reachable(before);
      LastStep(late);
      ResultsStep(After(before), late[|late| - 1], After(late), r, t);
    }
  }

  predicate IsLineOf(x: TestResult, t: Key, passed: bool) { x.test == t && x.passed == passed }

  /** Some result of the run names the Test and gives it this verdict. */
  ghost predicate Reported(w: World, r: Key, t: Key, passed: bool) {
    r in w.runs && exists k :: 0 <= k < |w.runs[r].results| && IsLineOf(w.runs[r].results[k], t, passed)
  }

  lemma StillAmongResults(w: World, w': World, r: Key, t: Key)
    requires Leads(w, w') && r in w.runs && |w.runs[r].templates| <= 10
    requires t in TestsOf(w.runs[r].results) && t !in w'.outside
    ensures r in w'.runs && t in TestsOf(w'.runs[r].results)
  {
    var early, late := LogsOf(w, w');
    ResultsAlong(early, late, r, t);
  }

  lemma SoundInBoth(w: World, w': World, r: Key)
    requires Leads(w, w')
    ensures Grows(w, w') && RunSound(w, r) && RunSound(w', r)
  {
    LeadsOn(w, w');
    ReachedVerdicts(w);
    ReachedVerdicts(w');
  }

  lemma SameLine(w: World, w': World, r: Key, t: Key, passed: bool)
    requires Grows(w, w') && RunSound(w, r) && RunSound(w', r) && Reported(w, r, t, passed)
    requires r in w'.runs && t in TestsOf(w'.runs[r].results)
    ensures Reported(w', r, t, passed)
  {
    var k :| 0 <= k < |w.runs[r].results| && IsLineOf(w.runs[r].results[k], t, passed);
    var k' :| 0 <= k' < |w'.runs[r].results| && w'.runs[r].results[k'].test == t;
    assert ResultSound(w, r, w.runs[r].results[k]) && ResultSound(w', r, w'.runs[r].results[k']);
  }

  /** Results do not shrink: a Test once counted stays counted, with its verdict, unless a user deletes it. */
  lemma ResultsGrow(w: World, w': World, r: Key, t: Key, passed: bool)
    requires Leads(w, w') && Reported(w, r, t, passed) && |w.runs[r].templates| <= 10 && t !in w'.outside
    ensures Reported(w', r, t, passed)
  {
    assert t in TestsOf(w.runs[r].results);
    StillAmongResults(w, w', r, t);
    SoundInBoth(w, w', r);
    SameLine(w, w', r, t, passed);
  }
}
