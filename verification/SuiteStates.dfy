/** What every reachable world keeps about TestSuites: phase, conditions, accounts, the tracked run, NextRun. */
module SuiteStates {
  import opened Prelude
  import opened Store
  import opened Effects
  import opened Invariants
  import opened Conclusions

  predicate IsTrue(conditions: map<Condition, bool>, c: Condition) { c in conditions && conditions[c] }

  function One(b: bool): nat { if b then 1 else 0 }

  /** The phase, the conditions and the current run agree, and the account balances. */
  predicate StateSound(x: Suite) {
    var needs := x.status.phase == SuiteRunning && x.status.current == None;
    var tracks := x.status.phase == SuiteRunning && x.status.current.Some?;
    var a := x.account;
    && (x.status.current.Some? ==> x.status.phase == SuiteRunning)
    && (x.status.nextRun.Some? ==> IsTrue(x.status.conditions, HasSchedule))
    && (IsTrue(x.status.conditions, NeedsRun) <==> needs)
    && (IsTrue(x.status.conditions, RunStarted) ==> tracks)
    && (a.awaiting.Some? ==> needs)
    && a.creations == a.assignments + a.losses + One(a.awaiting.Some?)
    && a.triggers == a.assignments + One(needs)
    && a.assignments + a.adoptions == a.completions + One(tracks)
  }

  ghost predicate SuitesSound(w: World) {
    forall s :: s in w.suites ==> StateSound(w.suites[s])
  }

  lemma WriteKeepsState(w: World, e: SuiteWrite)
    requires GuardSuite(w, e) && e.s in w.suites && StateSound(w.suites[e.s])
    ensures StateSound(NextSuite(w.suites[e.s], e))
  {
  }

  /** What a user does to a suite leaves its state alone. */
  lemma OutsideKeepsState(w: World, o: Outside, s: Key)
    requires GuardOutside(w, o) && s in ApplyOutside(w, o).suites
    requires s in w.suites ==> StateSound(w.suites[s])
    ensures StateSound(ApplyOutside(w, o).suites[s])
  {
  }

  lemma SuitesSoundKept(w: World, e: Event, w': World)
    requires SuitesSound(w) && Steps(w, e, w')
    ensures SuitesSound(w')
  {
    match e
    case Env(o) =>
      EnvStep(w, e, w');
      forall s | s in w'.suites ensures StateSound(w'.suites[s]) { OutsideKeepsState(w, o, s); }
    case OfSuite(x) =>
      SuiteWritten(w, e, w');
      WriteKeepsState(w, x);
    case _ => OthersKeepSuites(w, e, w');
  }

  // ----- suites go only when users delete them

  ghost predicate SuitesStay(w: World) {
    forall s :: s in w.birth && s.kind == SuiteKind ==> Live(w, s) || s in w.outside
  }

  lemma NoReasonToDeleteSuite(w: World, s: Key)
    requires WellBorn(w) && s.kind == SuiteKind
    ensures !MayDelete(w, s)
  {
  }

  lemma SuitesStayKept(w: World, e: Event, w': World)
    requires WellFormed(w) && SuitesStay(w) && Steps(w, e, w')
    ensures SuitesStay(w')
  {
    EventDoes(w, e, w');
    forall s | s in w.birth && s.kind == SuiteKind ensures Live(w', s) || s in w'.outside {
      SuiteStays(w, e, w', s);
    }
    NewSuitesAreLive(w, EffectOf(e), w');
  }

  lemma NewSuitesAreLive(w: World, x: Effect, w': World)
    requires Does(w, x, w')
    requires forall s :: s in w.birth && s.kind == SuiteKind ==> Live(w', s) || s in w'.outside
    ensures SuitesStay(w')
  {
  }

  lemma SuiteStays(w: World, e: Event, w': World, s: Key)
    requires WellFormed(w) && s.kind == SuiteKind && (Live(w, s) || s in w.outside) && Steps(w, e, w')
    ensures Live(w', s) || s in w'.outside
  {
    if Live(w, s) {
      LivesOn(w, e, w', s);
      NoReasonToDeleteSuite(w, s);
    } else {
      EventDoes(w, e, w');
    }
  }

  // ----- the tracked run

  ghost predicate Tracked(w: World, s: Key) {
    s in w.suites && w.suites[s].status.current.Some? ==>
      var r := w.suites[s].status.current.value;
      ChildOf(w, r, s) && (Live(w, r) || r in w.outside || s in w.outside)
  }

  /** A suite's current run is one of its own, and is live unless a user deleted the run or the suite. */
  ghost predicate CurrentTracked(w: World) { forall s :: Tracked(w, s) }

  /** No controller deletes the run that a suite is tracking. */
  lemma CurrentIsNotDeleted(w: World, s: Key, r: Key)
    requires WellFormed(w) && SuitesSound(w) && SuitesStay(w) && s in w.suites
    requires w.suites[s].status.current == Some(r) && ChildOf(w, r, s) && s !in w.outside
    ensures !MayDelete(w, r)
  {
    assert HasBody(w, s);
    assert Live(w, s) && Fits(r.kind, s.kind) && StateSound(w.suites[s]);
  }

  lemma NewlyTracked(w: World, e: SuiteWrite)
    requires GuardSuite(w, e) && NextSuite(w.suites[e.s], e).status.current != w.suites[e.s].status.current
    ensures e.Focus? || e.Assign? || NextSuite(w.suites[e.s], e).status.current == None
    ensures e.Focus? || e.Assign? ==>
              NextSuite(w.suites[e.s], e).status.current == Some(e.r) && Live(w, e.r) && ChildOf(w, e.r, e.s)
  {
  }

  /** Suites keep their status and account, but for new ones that track nothing. */
  ghost predicate StatusesKept(w: World, w': World) {
    forall s :: s in w'.suites ==>
      if s in w.suites then w'.suites[s].status == w.suites[s].status && w'.suites[s].account == w.suites[s].account
      else w'.suites[s].status.current == None
  }

  lemma OutsideKeepsStatus(w: World, o: Outside)
    requires WellBodied(w) && GuardOutside(w, o)
    ensures StatusesKept(w, ApplyOutside(w, o))
  {
    assert o.UserCreateSuite? ==> !HasBody(w, o.k);
  }

  lemma OthersKeepStatus(w: World, e: Event, w': World)
    requires WellBodied(w) && Steps(w, e, w') && !e.OfSuite?
    ensures StatusesKept(w, w')
  {
    match e
    case Env(o) =>
      EnvStep(w, e, w');
      OutsideKeepsStatus(w, o);
    case _ => OthersKeepSuites(w, e, w');
  }

  lemma CommonKeepsSuites(w: World, c: Common)
    requires GuardCommon(w, c)
    ensures ApplyCommon(w, c).suites == w.suites
  {
  }

  lemma TestKeepsSuites(w: World, t: TestWrite)
    requires GuardTest(w, t)
    ensures ApplyTest(w, t).suites == w.suites
  {
  }

  lemma RunKeepsSuites(w: World, r: RunWrite)
    requires GuardRun(w, r)
    ensures ApplyRun(w, r).suites == w.suites
  {
  }

  /** The other controllers do not write to suites. */
  lemma OthersKeepSuites(w: World, e: Event, w': World)
    requires Steps(w, e, w') && (e.All? || e.OfTest? || e.OfRun?)
    ensures w'.suites == w.suites
  {
    match e
    case All(c) =>
      CommonStep(w, e, w');
      CommonKeepsSuites(w, c);
    case OfTest(t) =>
      TestStep(w, e, w');
      TestKeepsSuites(w, t);
    case OfRun(r) =>
      RunStep(w, e, w');
      RunKeepsSuites(w, r);
  }

  lemma CurrentTrackedKept(w: World, e: Event, w': World)
    requires WellFormed(w) && SuitesSound(w) && SuitesStay(w) && CurrentTracked(w) && Steps(w, e, w')
    ensures CurrentTracked(w')
  {
    EventDoes(w, e, w');
    if e.OfSuite? { SuiteStep(w, e, w'); } else { OthersKeepStatus(w, e, w'); }
    forall s ensures Tracked(w', s) {
      assert Tracked(w, s);
      if s in w.suites && w.suites[s].status.current.Some? { TrackedStays(w, e, w', s); }
      if e.OfSuite? { TrackedBySuite(w, e.s, w', s); }
    }
  }

  lemma TrackedBySuite(w: World, e: SuiteWrite, w': World, s: Key)
    requires GuardSuite(w, e) && w' == ApplySuite(w, e)
    requires s in w.suites && w.suites[s].status.current.Some? ==> StillTracked(w', s, w.suites[s].status.current.value)
    ensures Tracked(w', s)
  {
    if s == e.s && NextSuite(w.suites[s], e).status.current != w.suites[s].status.current {
      NewlyTracked(w, e);
    }
  }

  ghost predicate StillTracked(w: World, s: Key, r: Key) {
    ChildOf(w, r, s) && (Live(w, r) || r in w.outside || s in w.outside)
  }

  lemma TrackedStays(w: World, e: Event, w': World, s: Key)
    requires WellFormed(w) && SuitesSound(w) && SuitesStay(w) && Tracked(w, s) && Steps(w, e, w')
    requires s in w.suites && w.suites[s].status.current.Some?
    ensures StillTracked(w', s, w.suites[s].status.current.value)
  {
    var r := w.suites[s].status.current.value;
    EventDoes(w, e, w');
    if Live(w, r) {
      LivesOn(w, e, w', r);
      if s !in w.outside { CurrentIsNotDeleted(w, s, r); }
      assert ChildOf(w', r, s);
    } else {
      GoneStaysGone(w, EffectOf(e), w', s, r);
    }
  }

  lemma GoneStaysGone(w: World, x: Effect, w': World, s: Key, r: Key)
    requires Does(w, x, w') && ChildOf(w, r, s) && (r in w.outside || s in w.outside)
    ensures StillTracked(w', s, r)
  {
  }

  lemma OneSuiteChanges(w: World, e: SuiteWrite)
    requires GuardSuite(w, e)
    ensures e.s in w.suites && ApplySuite(w, e).suites == w.suites[e.s := NextSuite(w.suites[e.s], e)]
  {
  }

  /** No event takes a suite's record away. */
  lemma SuitesRemain(w: World, e: Event, w': World, s: Key)
    requires WellFormed(w) && Steps(w, e, w') && s in w.suites
    ensures s in w'.suites
  {
    EventDoes(w, e, w');
    assert HasBody(w, s) && HasBody(w', s);
  }

  /** A step of the suite reconciler, seen from the suite. */
  lemma SuiteWritten(w: World, e: Event, w': World)
    requires Steps(w, e, w') && e.OfSuite?
    ensures GuardSuite(w, e.s) && e.s.s in w.suites && w'.suites == w.suites[e.s.s := NextSuite(w.suites[e.s.s], e.s)]
  {
    SuiteStep(w, e, w');
    OneSuiteChanges(w, e.s);
  }

  // ----- rounds

  /** How many runs of the suite have completed. */
  function Rounds(w: World, s: Key): nat { if s in w.suites then w.suites[s].account.completions else 0 }

  ghost predicate Tracks(w: World, s: Key) { SuiteIsRunning(w, s) && w.suites[s].status.current.Some? }

  lemma RoundsGrow(w: World, e: Event, w': World, s: Key)
    requires WellFormed(w) && Steps(w, e, w') && s in w.suites
    ensures s in w'.suites && Rounds(w, s) <= Rounds(w', s)
    ensures SuiteIsRunning(w, s) ==> SuiteIsRunning(w', s) || Rounds(w, s) < Rounds(w', s)
    ensures Tracks(w, s) ==> Tracks(w', s) || Rounds(w, s) < Rounds(w', s)
  {
    SuitesRemain(w, e, w', s);
    if e.OfSuite? { SuiteWritten(w, e, w'); } else { OthersKeepStatus(w, e, w'); }
  }

  lemma StillNoneOpen(w: World, w': World, s: Key)
    requires NoneOpen(w, s) && w'.birth == w.birth && w'.meta == w.meta && w'.runs == w.runs
    ensures NoneOpen(w', s)
  {
    forall r ensures !OpenRun(w', s, r) { assert !OpenRun(w, s, r); }
  }
}
