/** Histories that meet what is assumed of them where progress and the deletion cascade are proved. */
module FairExamples {
  import opened Prelude
  import opened Store
  import opened Histories
  import opened TestSuiteControllers
  import opened Cascades
  import opened Completions
  import opened SuiteExamples

  // ----- progress

  /** The suite is ready again after its one run, and nothing is left to do. */
  ghost predicate AtRest(w: World) {
    && w.birth == map[SUITE := Birth(None, 0), A := Birth(Some(SUITE), 0)]
    && w.meta == map[SUITE := HELD, A := Meta([TestSuiteController, TestRunController], false)]
    && A in w.runs && w.runs[A] == Run(Always, [], RunPassed, [])
    && SuiteIs(w, NoSchedule, SuiteReady, None, None, None) && w.outside == {}
  }

  /** A suite that has been triggered gets a run, which passes. */
  lemma RunsOnce() returns (w0: World, w: World)
    ensures Leads(w0, w0) && Leads(w0, w) && Leads(w, w)
    ensures Alone(w0) && SuiteIs(w0, NoSchedule, SuiteRunning, None, None, None) && AtRest(w)
  {
    var early: seq<Event>, late: seq<Event>;
    early, w0 := Running();
    late, w := TracksRun(early, w0, A);
    late, w := PassesRun(late, w, A);
    late, w := SuiteExamples.Completes(late, w, A, NoSchedule, None);
    ReachesIsReached(early, w0);
    ReachesIsReached(late, w);
    PassesThrough(early, early);
    PassesThrough(early, late);
    PassesThrough(late, late);
  }

  lemma NothingToDo(w: World, k: Key)
    requires AtRest(w)
    ensures Worked(w, w, k) && !OpenRun(w, SUITE, k)
  {
    if k == SUITE {
      assert RunOrder(w, SUITE, [A]);
      assert NoneOpen(w, SUITE) && HistoryTrimmed(w, w, SUITE);
      assert PassFrom(w.suites[SUITE], w, w, SUITE, Done, false);
      assert Pass(w, w, SUITE, Done);
    }
  }

  /** In the one world at the start, in the other from then on. */
  function TwoWorlds(w0: World, w: World): Course { (i: nat) => if i == 0 then w0 else w }

  lemma AlwaysActive(w0: World, w: World)
    requires AtRest(w)
    ensures Active(TwoWorlds(w0, w))
  {
    var c := TwoWorlds(w0, w);
    forall i: nat, k: Key ensures WorkedSince(c, i, k) {
      NothingToDo(w, k);
      assert WorkedAt(c, i + 1, k);
    }
  }

  lemma Calm(w0: World, w: World)
    requires Alone(w0) && SuiteIs(w0, NoSchedule, SuiteRunning, None, None, None) && AtRest(w)
    ensures var c := TwoWorlds(w0, w);
            && Undisturbed(c, SUITE) && NoneStuck(c, SUITE) && Settled(c, SUITE)
            && ShortRuns(c, SUITE) && PodsEnd(c, SUITE)
  {
    var c := TwoWorlds(w0, w);
    forall i: nat, r ensures !OpenRun(c(i), SUITE, r) { NothingToDo(w, r); }
  }

  /** Some favourable course starts with a running suite. */
  lemma MayBeFavourable() returns (c: Course)
    ensures Favourable(c, SUITE) && SuiteIsRunning(c(0), SUITE)
  {
    var w0, w := RunsOnce();
    c := TwoWorlds(w0, w);
    assert Coherent(c);
    AlwaysActive(w0, w);
    Calm(w0, w);
  }

  // ----- the cascade

  /** A user deletes a suite that has a run. */
  lemma Deleted() returns (log: seq<Event>, w: World)
    ensures Reaches(log, w) && w.meta == map[SUITE := Meta([TestSuiteController], true), A := HELD]
    ensures w.birth == map[SUITE := Birth(None, 0), A := Birth(Some(SUITE), 0)]
  {
    log, w := Running();
    log, w := TracksRun(log, w, A);
    log, w := Appends(log, w, Env(UserDelete(SUITE)));
  }

  lemma RunRemoved(early: seq<Event>, w0: World) returns (late: seq<Event>, w: World)
    requires Reaches(early, w0) && w0.meta == map[SUITE := Meta([TestSuiteController], true), A := HELD]
    requires w0.birth == map[SUITE := Birth(None, 0), A := Birth(Some(SUITE), 0)]
    ensures Reaches(late, w) && early <= late && w.birth == w0.birth
    ensures w.meta == map[SUITE := Meta([TestSuiteController], true)]
  {
    var held := [TestSuiteController];
    assert Without(held[1..], TestSuiteController) == [] && Without(held, TestSuiteController) == [];
    assert ChildOf(w0, A, SUITE) && ReasonToDelete(w0, A, SUITE);
    late, w := Appends(early, w0, All(Delete(A)));
    late, w := Appends(late, w, All(Release(A, TestSuiteController)));
  }

  /** The suite's controller removes both. */
  lemma Removed(early: seq<Event>, w0: World) returns (late: seq<Event>, w: World)
    requires Reaches(early, w0) && w0.meta == map[SUITE := Meta([TestSuiteController], true), A := HELD]
    requires w0.birth == map[SUITE := Birth(None, 0), A := Birth(Some(SUITE), 0)]
    ensures Reaches(late, w) && early <= late && w.meta == map[]
  {
    late, w := RunRemoved(early, w0);
    var held := [TestSuiteController];
    assert Without(held[1..], TestSuiteController) == [] && Without(held, TestSuiteController) == [];
    late, w := Appends(late, w, All(Release(SUITE, TestSuiteController)));
  }

  lemma AlwaysFair(h: History)
    requires forall i: nat :: 0 < i ==> At(h, i).meta == map[]
    ensures Fair(h)
  {
    forall i: nat, k: Key ensures ReconciledSince(h, i, k) { assert ReconciledAt(h, i + 1, k); }
  }

  lemma NeverForeign(h: History)
    requires forall i: nat, k, g :: Holds(At(h, i), k, g) ==> g == TestSuiteController
    ensures NothingForeignFrom(h, 0, SUITE)
  {
    forall i: nat, k ensures NothingForeign(At(h, i), k) {
      forall g | k in At(h, i).meta && g in At(h, i).meta[k].finalizers ensures !g.Foreign? {
        assert Holds(At(h, i), k, g);
      }
    }
  }

  /** Some fair history starts with a deleted suite that has a live run, and no other program holds anything in it. */
  lemma MayBeFair() returns (h: History)
    ensures Growing(h) && Fair(h) && NothingForeignFrom(h, 0, SUITE)
    ensures Deleting(At(h, 0), SUITE) && ChildOf(At(h, 0), A, SUITE) && Live(At(h, 0), A)
  {
    var early, w0 := Deleted();
    var late, w := Removed(early, w0);
    ReachesIsReached(early, w0);
    ReachesIsReached(late, w);
    h := (i: nat) => if i == 0 then early else late;
    AlwaysFair(h);
    NeverForeign(h);
  }
}
