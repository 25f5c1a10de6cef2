/**
 Histories of one suite in which something promised does not hold. The writes come in the order in which passes of the
 reconcilers issue them; a pass that fails stops, or goes on as the program does.
 */
module SuiteExamples {
  import opened Prelude
  import opened Store
  import opened Invariants
  import opened Histories
  import opened TestSuiteControllers
  import opened Guarantees
  import opened Schedules
  import opened Releases

  const SUITE := Key(SuiteKind, "suite")
  const A := Key(RunKind, "a")
  const B := Key(RunKind, "b")
  const C := Key(RunKind, "c")
  const HELD := Meta([TestSuiteController], false)

  function SpecOf(schedule: Schedule): SuiteSpec { SuiteSpec(1, Always, [], schedule) }

  /** The one suite, held by its controller. */
  ghost predicate SuiteIs(w: World, schedule: Schedule, phase: SuitePhase, current: Option<Key>, awaiting: Option<Key>,
      nextRun: Option<nat>)
  {
    && SUITE in w.meta && w.meta[SUITE] == HELD
    && SUITE in w.suites
    && var x := w.suites[SUITE];
       && x.spec == SpecOf(schedule) && x.activeSchedule == schedule && !x.needsRun && x.account.awaiting == awaiting
       && x.status.phase == phase && x.status.current == current && x.status.nextRun == nextRun
  }

  /** The suite is all there is. */
  ghost predicate Alone(w: World) {
    w.birth == map[SUITE := Birth(None, 0)] && w.meta == map[SUITE := HELD] && w.now == 0 && w.outside == {}
  }

  // ----- a suite without a schedule

  lemma Created(schedule: Schedule) returns (log: seq<Event>, w: World)
    ensures Reaches(log, w) && Alone(w)
    ensures var status := SuiteStatus(SuiteUnset, None, None, map[]);
            w.suites == map[SUITE := Suite(SpecOf(schedule), NoSchedule, false, status, NO_ACCOUNT)]
  {
    Starts();
    log, w := Appends([], EMPTY, Env(UserCreateSuite(SUITE, SpecOf(schedule))));
    var none: seq<Finalizer> := [];
    assert none + [TestSuiteController] == [TestSuiteController];
    assert w.meta == map[SUITE := Meta(none, false)];
    log, w := Appends(log, w, All(Hold(SUITE)));
  }

  /** A new suite becomes pending and then ready. */
  lemma BecomesReady(before: seq<Event>, w0: World) returns (log: seq<Event>, w: World)
    requires Reaches(before, w0) && Live(w0, SUITE)
    requires SUITE in w0.suites && w0.suites[SUITE].status.phase == SuiteUnset
    ensures Reaches(log, w) && |log| == |before| + 2
    ensures var x := w0.suites[SUITE];
            w == w0.(suites := w0.suites[SUITE := Patched(x, x.status.(phase := SuiteReady))])
  {
    log, w := Appends(before, w0, OfSuite(MarkPending(SUITE)));
    log, w := Appends(log, w, OfSuite(MarkReady(SUITE)));
  }

  /** The first pass over a suite. */
  lemma Ready() returns (log: seq<Event>, w: World)
    ensures Reaches(log, w) && Alone(w) && SuiteIs(w, NoSchedule, SuiteReady, None, None, None)
    ensures w.suites[SUITE].account.triggers == 0
  {
    log, w := Created(NoSchedule);
    log, w := Appends(log, w, OfSuite(DropSchedule(SUITE)));
    log, w := BecomesReady(log, w);
  }

  lemma Asked() returns (log: seq<Event>, w: World)
    ensures Reaches(log, w) && log != [] && log[|log| - 1] == Env(UserTrigger(SUITE)) && Alone(w)
    ensures SUITE in w.suites && w.suites[SUITE].account.triggers == 0
    ensures var x := w.suites[SUITE];
            var calm := w.(suites := map[SUITE := x.(needsRun := false)]);
            x.needsRun && SuiteIs(calm, NoSchedule, SuiteReady, None, None, None)
  {
    log, w := Ready();
    log, w := Appends(log, w, Env(UserTrigger(SUITE)));
  }

  /** If the patch to Running fails after the trigger was reset, a trigger by hand is forgotten. */
  lemma TriggerLost() returns (log: seq<Event>, w: World)
    ensures Reaches(log, w) && Env(UserTrigger(SUITE)) in log
    ensures Alone(w) && SuiteIs(w, NoSchedule, SuiteReady, None, None, None)
    ensures w.suites[SUITE].account.triggers == 0
  {
    log, w := Asked();
    var n := |log| - 1;
    log, w := Appends(log, w, OfSuite(DropSchedule(SUITE)));
    log, w := Appends(log, w, OfSuite(ResetTrigger(SUITE)));
    assert log[n] == Env(UserTrigger(SUITE));
  }

  /** The pass after a trigger by hand, if nothing fails in it. */
  lemma Running() returns (log: seq<Event>, w: World)
    ensures Reaches(log, w) && Alone(w) && SuiteIs(w, NoSchedule, SuiteRunning, None, None, None)
  {
    log, w := TriggerLost();
    log, w := Appends(log, w, OfSuite(Trigger(SUITE, Manual)));
  }

  ghost predicate HasNewRun(w: World, w': World, r: Key) {
    && w'.birth == w.birth[r := Birth(Some(SUITE), w.now)] && w'.now == w.now
    && w'.meta == w.meta[r := HELD] && w'.outside == w.outside
    && w'.runs == w.runs[r := Run(Always, [], RunUnset, [])]
  }

  /** A pass over a running suite that needs a run creates one. */
  lemma CreatesRun(before: seq<Event>, w0: World, r: Key, schedule: Schedule, next: Option<nat>)
    returns (log: seq<Event>, w: World)
    requires Reaches(before, w0) && SuiteIs(w0, schedule, SuiteRunning, None, None, next)
    requires Fresh(w0, r, RunKind)
    ensures Reaches(log, w) && before <= log && SuiteIs(w, schedule, SuiteRunning, None, Some(r), next)
    ensures HasNewRun(w0, w, r)
  {
    log, w := Appends(before, w0, OfSuite(CreateRun(r, SUITE)));
  }

  /** Then it makes it the current one. */
  lemma AssignsRun(before: seq<Event>, w0: World, r: Key, schedule: Schedule, next: Option<nat>)
    returns (log: seq<Event>, w: World)
    requires Reaches(before, w0) && SuiteIs(w0, schedule, SuiteRunning, None, Some(r), next)
    requires Live(w0, r) && ChildOf(w0, r, SUITE)
    ensures Reaches(log, w) && before <= log && SuiteIs(w, schedule, SuiteRunning, Some(r), None, next)
    ensures w == w0.(suites := w.suites)
  {
    log, w := Appends(before, w0, OfSuite(Assign(SUITE, r)));
  }

  /** Such a pass in which the patch of the status fails, so that the run is lost. */
  lemma LosesRun(before: seq<Event>, w0: World, r: Key) returns (log: seq<Event>, w: World)
    requires Reaches(before, w0) && SuiteIs(w0, NoSchedule, SuiteRunning, None, None, None)
    requires Fresh(w0, r, RunKind)
    ensures Reaches(log, w) && SuiteIs(w, NoSchedule, SuiteRunning, None, None, None)
    ensures HasNewRun(w0, w, r)
  {
    log, w := Appends(before, w0, OfSuite(DropSchedule(SUITE)));
    log, w := CreatesRun(log, w, r, NoSchedule, None);
    log, w := Appends(log, w, OfSuite(LoseRun(SUITE)));
  }

  /** Such a pass that succeeds. */
  lemma TracksRun(before: seq<Event>, w0: World, r: Key) returns (log: seq<Event>, w: World)
    requires Reaches(before, w0) && SuiteIs(w0, NoSchedule, SuiteRunning, None, None, None)
    requires Fresh(w0, r, RunKind)
    ensures Reaches(log, w) && before <= log && SuiteIs(w, NoSchedule, SuiteRunning, Some(r), None, None)
    ensures HasNewRun(w0, w, r)
  {
    log, w := Appends(before, w0, OfSuite(DropSchedule(SUITE)));
    log, w := CreatesRun(log, w, r, NoSchedule, None);
    log, w := AssignsRun(log, w, r, NoSchedule, None);
  }

  /** A user's deletion of the current run leaves the suite tracking a run that is not live. */
  lemma LosesTrack() returns (log: seq<Event>, w: World)
    ensures Reaches(log, w) && TracksLost(w, SUITE, A)
  {
    log, w := Running();
    log, w := TracksRun(log, w, A);
    log, w := Appends(log, w, Env(UserDelete(A)));
  }

  // ----- two lost runs

  /** Two runs of the suite that it has lost, created at different times. */
  ghost predicate TwoRuns(w: World, later: nat) {
    && w.birth == map[SUITE := Birth(None, 0), A := Birth(Some(SUITE), 0), B := Birth(Some(SUITE), later)]
    && w.meta == map[SUITE := HELD, A := HELD, B := HELD]
    && A in w.runs && w.runs[A] == Run(Always, [], RunUnset, [])
    && B in w.runs && w.runs[B] == Run(Always, [], RunUnset, [])
  }

  lemma LosesTwo(later: nat) returns (log: seq<Event>, w: World)
    ensures Reaches(log, w) && TwoRuns(w, later) && SuiteIs(w, NoSchedule, SuiteRunning, None, None, None)
  {
    log, w := Running();
    log, w := LosesRun(log, w, A);
    log, w := Appends(log, w, Env(Tick(later)));
    log, w := LosesRun(log, w, B);
  }

  lemma DeletesTwo() returns (log: seq<Event>, w: World)
    ensures Reaches(log, w)
    ensures w.birth == map[SUITE := Birth(None, 0), A := Birth(Some(SUITE), 0), B := Birth(Some(SUITE), 0)]
    ensures var a := Meta([TestSuiteController], true);
            var b := Meta([TestSuiteController, TestRunController], true);
            w.meta == map[SUITE := HELD, A := a, B := b]
  {
    log, w := LosesTwo(0);
    assert [TestSuiteController] + [TestRunController] == [TestSuiteController, TestRunController];
    log, w := Appends(log, w, All(Hold(B)));
    log, w := Appends(log, w, Env(UserDelete(A)));
    log, w := Appends(log, w, Env(UserDelete(B)));
  }

  /**
   Both runs are deleted and wait for the suite's controller, and the controller of runs holds one of them as well. Then
   two passes need not let go of both.
   */
  lemma TwoPassesAreTooFew() returns (log: seq<Event>, w: World)
    ensures Reaches(log, w) && Waiting(w, SUITE) == {A, B} && !Suffice(w, SUITE, 2)
  {
    log, w := DeletesTwo();
    assert Waiting(w, SUITE) == {A, B} by { assert DeletedRun(w, SUITE, A) && DeletedRun(w, SUITE, B); }
    assert Holds(w, B, TestRunController) && !NothingElseHolds(w, SUITE);
    ReachesIsReached(log, w);
    LetGoWithinPasses(w, SUITE);
  }

  lemma NothingToTally(w: World, r: Key)
    requires r.kind == RunKind && Live(w, r) && r in w.runs && w.runs[r] == Run(Always, [], RunStarting, [])
    requires forall t :: t in w.birth ==> t.kind != TestKind
    requires WellBorn(w)
    ensures GuardRun(w, Tally(r, [], RunPassed, []))
  {
    assert RunInProgress(w, r);
    assert MappedSlots(w, [], 0) == [];
    forall t ensures !ChildOf(w, t, r) { assert ChildOf(w, t, r) ==> Fits(t.kind, r.kind); }
  }

  /** The pass of the other controller over a new run without templates: it passes. */
  lemma PassesRun(before: seq<Event>, w0: World, r: Key) returns (log: seq<Event>, w: World)
    requires Reaches(before, w0) && r in w0.meta && r.kind == RunKind
    requires w0.meta[r] == HELD
    requires r in w0.runs && w0.runs[r] == Run(Always, [], RunUnset, [])
    requires forall t :: t in w0.birth ==> t.kind != TestKind
    ensures Reaches(log, w) && before <= log
    ensures w == w0.(meta := w0.meta[r := Meta([TestSuiteController, TestRunController], false)],
                     runs := w0.runs[r := Run(Always, [], RunPassed, [])])
  {
    assert [TestSuiteController] + [TestRunController] == [TestSuiteController, TestRunController];
    log, w := Appends(before, w0, All(Hold(r)));
    log, w := Appends(log, w, OfRun(RunStarts(r)));
    assert WellBorn(w) by {
      ReachesIsReached(log, w);
      ReachedOwned(w);
    }
    NothingToTally(w, r);
    log, w := Appends(log, w, OfRun(Tally(r, [], RunPassed, [])));
  }

  /** The run the suite tracks has passed: the suite is ready again. */
  lemma Completes(before: seq<Event>, w0: World, r: Key, schedule: Schedule, next: Option<nat>)
    returns (log: seq<Event>, w: World)
    requires Reaches(before, w0) && SuiteIs(w0, schedule, SuiteRunning, Some(r), None, next)
    requires Live(w0, r) && ChildOf(w0, r, SUITE)
    requires r in w0.runs && w0.runs[r].phase == RunPassed
    ensures Reaches(log, w) && before <= log && SuiteIs(w, schedule, SuiteReady, None, None, next)
    ensures w == w0.(suites := w.suites)
  {
    log, w := Appends(before, w0, OfSuite(Complete(SUITE)));
  }

  /** The pass over the suite after that. */
  lemma NoticesEnd(before: seq<Event>, w0: World, r: Key) returns (log: seq<Event>, w: World)
    requires Reaches(before, w0) && SuiteIs(w0, NoSchedule, SuiteRunning, Some(r), None, None)
    requires Live(w0, r) && ChildOf(w0, r, SUITE)
    requires r in w0.runs && w0.runs[r].phase == RunPassed
    ensures Reaches(log, w) && before <= log && SuiteIs(w, NoSchedule, SuiteReady, None, None, None)
    ensures w == w0.(suites := w.suites)
  {
    log, w := Appends(before, w0, OfSuite(DropSchedule(SUITE)));
    log, w := Completes(log, w, r, NoSchedule, None);
  }

  /** A suite that is ready again with two unfinished runs, created in different seconds. */
  lemma TwoOpenRuns() returns (log: seq<Event>, w: World)
    ensures Reaches(log, w) && SuiteIs(w, NoSchedule, SuiteReady, None, None, None)
    ensures OpenRun(w, SUITE, A) && OpenRun(w, SUITE, B) && !OneSecond(w, SUITE)
  {
    log, w := LosesTwo(SECOND);
    log, w := TracksRun(log, w, C);
    log, w := PassesRun(log, w, C);
    log, w := NoticesEnd(log, w, C);
    OpenAndApart(w);
  }

  lemma OpenAndApart(w: World)
    requires SUITE in w.suites && Live(w, A) && Live(w, B) && ChildOf(w, A, SUITE) && ChildOf(w, B, SUITE)
    requires RunInProgress(w, A) && RunInProgress(w, B)
    requires w.birth[A].created == 0 && w.birth[B].created == SECOND
    ensures OpenRun(w, SUITE, A) && OpenRun(w, SUITE, B) && !OneSecond(w, SUITE)
  {
    assert Stamp(w, A) == 0 && Stamp(w, B) == 1;
  }

  // ----- a suite with a schedule

  const OLD := Cron("old", true)
  const NEW := Cron("new", true)

  lemma ComputedNow(before: seq<Event>, w: World, s: Key, at: nat)
    requires Reaches(before, w) && GuardSuite(w, ScheduleNext(s, at)) && s in w.suites
    ensures var log := before + [OfSuite(ScheduleNext(s, at))];
            Legal(log) && ComputedFrom(log, s) == w.suites[s].spec.schedule
  {
    var log, w' := Appends(before, w, OfSuite(ScheduleNext(s, at)));
    ReachesIsReached(before, w);
    ReachesIsReached(log, w');
    assert log[..|log| - 1] == before;
  }

  /** The first pass over a suite that asks for a schedule. */
  lemma Scheduled() returns (log: seq<Event>, w: World)
    ensures Reaches(log, w) && Alone(w) && SuiteIs(w, OLD, SuiteReady, None, None, Some(1))
    ensures Legal(log) && ComputedFrom(log, SUITE) == OLD
  {
    log, w := Created(OLD);
    log, w := BecomesReady(log, w);
    log, w := Appends(log, w, OfSuite(Annotate(SUITE)));
    ComputedNow(log, w, SUITE, 1);
    log, w := Appends(log, w, OfSuite(ScheduleNext(SUITE, 1)));
  }

  lemma NotRecomputed(before: seq<Event>, log: seq<Event>, e: Event, s: Key)
    requires Legal(before) && Legal(log) && log == before + [e] && !SetsNextRun(e, s)
    ensures ComputedFrom(log, s) == ComputedFrom(before, s)
  {
    assert log[..|log| - 1] == before;
  }

  /** If the patch that clears NextRun fails, the time computed from the old schedule outlives it. */
  lemma StaleNextRun() returns (log: seq<Event>, w: World)
    ensures Reaches(log, w) && Legal(log) && SuiteIs(w, NEW, SuiteReady, None, None, Some(1)) && !UpToDate(log, SUITE)
  {
    var before, w0 := Scheduled();
    var edited, w1 := Appends(before, w0, Env(UserEdit(SUITE, SpecOf(NEW))));
    log, w := Appends(edited, w1, OfSuite(Annotate(SUITE)));
    ReachesIsReached(before, w0);
    ReachesIsReached(edited, w1);
    ReachesIsReached(log, w);
    NotRecomputed(before, edited, Env(UserEdit(SUITE, SpecOf(NEW))), SUITE);
    NotRecomputed(edited, log, OfSuite(Annotate(SUITE)), SUITE);
    assert OLD.expr[0] != NEW.expr[0];
  }

  /** A schedule that is removed is forgotten before NextRun is cleared, so for a moment NextRun belongs to neither. */
  lemma RemovedBeforeCleared() returns (log: seq<Event>, w: World, n: nat)
    ensures Reaches(log, w) && n < |log| && log[n] == OfSuite(Annotate(SUITE)) && !ClearedAt(log, n, SUITE)
    ensures SuiteIs(w, NoSchedule, SuiteReady, None, None, None)
  {
    var before, w0 := Scheduled();
    var edited, w1 := Appends(before, w0, Env(UserEdit(SUITE, SpecOf(NoSchedule))));
    n := |edited|;
    var recorded, w2 := Appends(edited, w1, OfSuite(Annotate(SUITE)));
    log, w := Appends(recorded, w2, OfSuite(DropSchedule(SUITE)));
    ReachesIsReached(edited, w1);
    assert log[..n] == edited;
  }

  lemma FiresNow(before: seq<Event>, w: World, s: Key, v: nat)
    requires Reaches(before, w) && s in w.suites && w.suites[s].status.nextRun == Some(v)
    ensures FiresAt(before + [OfSuite(Trigger(s, Reason.Scheduled))], |before|, s, v)
  {
    ReachesIsReached(before, w);
    assert (before + [OfSuite(Trigger(s, Reason.Scheduled))])[..|before|] == before;
  }

  /** The schedule triggers the suite on time. */
  lemma Fires() returns (log: seq<Event>, w: World, i: nat)
    ensures Reaches(log, w) && FiresAt(log, i, SUITE, 1)
    ensures SuiteIs(w, OLD, SuiteRunning, None, None, Some(1)) && w.now == 1
    ensures w.birth == map[SUITE := Birth(None, 0)] && w.meta == map[SUITE := HELD]
  {
    log, w := Scheduled();
    log, w := Appends(log, w, Env(Tick(1)));
    FiresNow(log, w, SUITE, 1);
    i := |log|;
    log, w := Appends(log, w, OfSuite(Trigger(SUITE, Reason.Scheduled)));
  }

  lemma StillFires(early: seq<Event>, late: seq<Event>, i: nat, s: Key, v: nat)
    requires FiresAt(early, i, s, v) && early <= late
    ensures FiresAt(late, i, s, v)
  {
    assert late[..i] == early[..i];
  }

  /** The run that was started on time ends at once. */
  lemma FiredAndCompleted() returns (log: seq<Event>, w: World, i: nat)
    ensures Reaches(log, w) && FiresAt(log, i, SUITE, 1) && NoneOpen(w, SUITE)
    ensures SuiteIs(w, OLD, SuiteReady, None, None, Some(1)) && w.now == 1
  {
    log, w, i := Fires();
    var fired := log;
    log, w := CreatesRun(log, w, A, OLD, Some(1));
    log, w := AssignsRun(log, w, A, OLD, Some(1));
    log, w := PassesRun(log, w, A);
    log, w := Completes(log, w, A, OLD, Some(1));
    StillFires(fired, log, i, SUITE, 1);
  }

  /** A scheduled trigger leaves NextRun where it is, so one scheduled time triggers two runs. */
  lemma FiresTwice() returns (log: seq<Event>, w: World, i: nat, j: nat)
    ensures Reaches(log, w) && i < j && FiresAt(log, i, SUITE, 1) && FiresAt(log, j, SUITE, 1)
  {
    log, w, i := FiredAndCompleted();
    var before := log;
    FiresNow(log, w, SUITE, 1);
    j := |log|;
    log, w := Appends(log, w, OfSuite(Trigger(SUITE, Reason.Scheduled)));
    StillFires(before, log, i, SUITE, 1);
  }
}
