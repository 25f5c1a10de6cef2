# Konfirm's reconcilers, verified

Konfirm runs test suites inside a Kubernetes cluster. A **TestSuite** owns **TestRuns**, a TestRun owns **Tests**,
a Test owns **Pods**. Three reconcilers drive them: each reads one object and its children from the API server, loops
over them, and issues writes that may fail. This project models the three reconcilers as imperative Dafny over one
object store, proves what every pass of them computes, and proves what every history of the whole system keeps, for any
interleaving of reconciliations, users, Pod phases, other programs' finalizers, clock ticks and failed writes.

`dafny verify dfyconfig.toml` checks everything.

## How the model is built

- **The store** (`Store.dfy`). A `World` holds the metadata of stored objects (finalizers, deletion mark), the facts fixed
  at birth (owner, creation time) and the bodies. Births and bodies stay when an object goes, so later worlds still tell what
  a vanished Test concluded. Deleting marks an object while finalizers remain; a marked object goes with its last finalizer;
  nothing is put on a marked object. Every write is an event with a *guard* (what held in the store when it was issued) and
  an effect. A log is *legal* if each event happened when its guard held.
- **The API** (`Clusters.dfy`). `Cluster` holds the present world and, as ghost state, the legal log that led to it. A
  write does all it asks for or nothing; unless the cluster is `reliable`, it may fail for no reason. Because `Write` requires
  the guard, verifying a reconciler shows that every write it issues meets the guard, so the theorems about all legal logs
  hold of everything the reconcilers can do.
- **The reconcilers** (`TestSuiteControllers.dfy`, `TestRunControllers.dfy`, `TestControllers.dfy`, with `Helpers.dfy` and
  `Compaction.dfy`) are classes whose methods follow the loops, branches and early returns of the program, and whose contracts
  say what one pass comes to, also when writes fail.
- **The theorems** are lemmas over the worlds that legal logs reach and pass through (`Guarantees.dfy`, `Gaps.dfy`,
  `LostVerdicts.dfy`, `Triggers.dfy`, `Retention.dfy`), over logs where the order of events matters (`Schedules.dfy`, and `Writes.dfy` for what one pass writes), and over fair infinite
  histories (`Cascades.dfy` for deletion, `Completions.dfy` for progress). `Invariants.dfy`, `Verdicts.dfy`,
  `Conclusions.dfy`, `SuiteStates.dfy` and `Histories.dfy` carry the invariant behind them. `RunExamples.dfy` and
  `SuiteExamples.dfy` hold the histories in which something promised fails, write by write in program order;
  `FairExamples.dfy` holds histories that meet what progress and the deletion cascade assume.

## What turned out not to hold

Each of these is kept as the program has it, shown by a concrete history, and bounded by an exact condition.

- The mapping loop of the TestRun reconciler reads an index that shadows the loop variable, and uses it on both sides of the
  assignment. It panics if and only if some live Test of the run names a slot at or above the number of its live Tests
  (`Gaps.ReconcileRun`), and that lasts until the run or that Test is deleted (`Gaps.PanicStays`). In a run of at most ten
  templates this is so exactly if some slot without a live Test lies before a slot with one (`Gaps.BeyondIffGap`). Deleting
  the first of two Tests is enough (`RunExamples.DeletingTheFirstTest`), and nothing but a user's deletion makes such a gap
  (`Gaps.GapsAreMadeByUsers`). A longer run may have a gap and not panic (`RunExamples.GapWithoutPanic`).
- When the loop does not panic, it agrees with the intended mapping slot by slot if and only if the list is in slot order
  (`Slots.AgreesInSlotOrder`); otherwise the lines of the results describe the wrong templates
  (`RunExamples.LinesChangePlaces`). The counts and the verdict are always the intended ones (`Slots.TallyIgnoresOrder`).
- Only the last digit of an index is read back, so a run becomes final only if it has at most ten templates
  (`Guarantees.VerdictsRestOnPods`), and one with more gets ever more Tests (`RunExamples.EverMoreTests`). Results that have
  been reported stay if there are at most ten templates (`Guarantees.ResultsGrow`); for every list of more than ten templates
  there is a history in which a passed Test drops out of them (`RunExamples.ResultsShrink`).
- Compaction releases the wrong entry inside its inner loop. The slice it leaves is right, but `k` waiting runs need not be
  let go within `k` passes (`SuiteExamples.TwoPassesAreTooFew`). They are, for every order in which the passes list the runs,
  if and only if none waits, or all deleted runs wait and either only one does or nothing else holds any of them
  (`Releases.LetGoWithinPasses`). One pass makes progress in every order if and only if all deleted runs wait
  (`Releases.ProgressInEveryOrder`).
- The loop that focuses a suite on its oldest unfinished run has no break, so it ends with a newest one, which is an oldest
  one if and only if all unfinished runs were created in the same second (`TestSuiteControllers.FocusesOnOldest`;
  `SuiteExamples.TwoOpenRuns` is a case in which they were not).
- If clearing NextRun fails after the schedule was changed, the old time survives under the new schedule
  (`SuiteExamples.StaleNextRun`). NextRun belongs to the active schedule throughout a history if and only if every change of
  schedule finds it cleared (`Schedules.UpToDateThroughout`). A pass without failures finds it cleared exactly if a schedule is
  asked for, or there was no NextRun (`TestSuiteControllers.TestSuiteReconciler.Reconcile`): a schedule that was removed is
  forgotten first, so that for a moment NextRun belongs to neither (`SuiteExamples.RemovedBeforeCleared`).
- A scheduled trigger does not advance NextRun, so one scheduled time can trigger two runs (`SuiteExamples.FiresTwice`).
  Between two triggers for one time a run completes within ten seconds of it (`Schedules.TwoFirings`), and after a run that the
  schedule started has completed its time may fire again if and only if that was so (`Schedules.FiresAgainWithinGrace`).
- A suite whose current run was deleted stays Running for ever (`Guarantees.StuckForever`, `SuiteExamples.LosesTrack`). The
  tracked run of a suite that no user has deleted is live if and only if no user has deleted that run
  (`Guarantees.CurrentRunIsLive`).
- A finished Pod that was marked is let go before its verdict is stored, so the verdict can be lost
  (`LostVerdicts.VerdictLost`). A finished Pod is sure to stay until its Test has a verdict, whatever fails, if and only if it
  is not marked (`LostVerdicts.SafeUnlessMarked`).
- A trigger by hand is reset before the suite becomes Running, so it can be lost (`SuiteExamples.TriggerLost`). A pass forgets
  it exactly if its reset was written and Running was not (`TestSuiteControllers.TestSuiteReconciler.DecideTrigger`). Whatever
  fails, a suite that has been asked to run is sure to stay so until it is triggered or completes a run, if and only if
  it is Running or no longer live (`Triggers.StaysAskedWhileRunning`).

## Model

| member | source | states |
|---|---|---|
| `Guarantees.OwnerOutlives` | controllers/testrun_controller.go:92-148 | In every reachable world a stored run or Test, and a Pod that is live or still held by the Test controller, has its owner stored and held by the owner's own controller's finalizer, whatever failed before. |
| `Invariants.OwnedKept` | controllers/testsuite_controller.go:143-171 | Every event keeps ownership: no owner is let go while a child needs it. |
| `Histories.Reachable` | controllers/testrun_controller.go:62-201 | Every legal log leads to a world that satisfies the whole invariant: ownership, slots, verdicts, counted results, suite states. |
| `Histories.HistoryAdvances` | controllers/testsuite_controller.go:143-162 | From an earlier to a later world: what is gone stays gone, marks stay, marked objects get no finalizers, verdicts stay, and only live owners that are not final get children. |
| `Cascades.Cascade` | controllers/testsuite_controller.go:143-162 | Once a suite is deleted, every fair history reaches a world from which on neither the suite nor any run, Test or Pod under it is stored, provided that from some time on no other program's finalizers hold them. |
| `Cascades.ReconcileOnce` | controllers/test_controller.go:123-152 | The three reconcilers, run without failures, do to a deleted object what fairness in the cascade assumes. |
| `FairExamples.MayBeFair` | controllers/testsuite_controller.go:143-162 | Some fair history in which no other program holds anything starts with a deleted suite that has a live run. |
| `Cascades.RunsDoomed` | controllers/testsuite_controller.go:143-150 | All runs of a deleted suite come to be marked and free of the suite's finalizer, and it gets no new ones. |
| `Cascades.TestsMarked` | controllers/testrun_controller.go:125-132 | Then none of their Tests stays live. |
| `Cascades.TestsGone` | controllers/test_controller.go:124-151 | Then their Tests and the Pods of these go. |
| `Cascades.RunsGone` | controllers/testrun_controller.go:133-147 | Then the runs go. |
| `Completions.Completes` | controllers/testsuite_controller.go:552-674 | A suite that is Running comes to have one more completion, in every history in which each object is reconciled without failure again and again, users delete neither the suite nor the run it tracks nor, from the start on, anything under its unfinished runs, and these have at most ten templates, do not panic at the start and see their Pods end. |
| `Completions.RunFinishes` | controllers/testrun_controller.go:236-372 | In such a history every run of the suite becomes final or goes. |
| `Completions.TestFinishes` | controllers/test_controller.go:236-418 | In such a history every live Test gets its verdict, unless its run is over before. |
| `Completions.WorkOnce` | controllers/test_controller.go:154-194 | The three reconcilers, run without failures, do to a live object what this progress assumes. |
| `FairExamples.MayBeFavourable` | controllers/testsuite_controller.go:552-674 | Some such history starts with a running suite. |
| `Guarantees.VerdictsRestOnPods` | controllers/testrun_controller.go:236-352 | A Passed run has, for each template, a Test of that slot that passed on one of its own Pods that succeeded; a Failed one has a verdict for each template and one on a Pod that failed; no run of more than ten templates is final. |
| `Conclusions.AllDoneCovers` | controllers/testrun_controller.go:327-352 | When every slot counts, there are at most ten, the results are one line a template in template order, and every slot is reported. |
| `Conclusions.TallyMeaning` | controllers/testrun_controller.go:207-234 | The list a tally is made from is one live Test a slot, and the slots filled from it hold exactly these Tests, each once. |
| `Guarantees.DifferentSlots` | controllers/testrun_controller.go:245-275 | Live Tests of a run of at most ten templates have different slots, all below the number of templates. |
| `Guarantees.OneLivePod` | controllers/test_controller.go:236-296 | A Test never has two live Pods. |
| `Guarantees.BooksBalance` | controllers/testsuite_controller.go:604-657 | Runs created are those assigned plus those lost to a failed status patch; triggers are assignments plus a pending need; assignments plus adoptions are completions plus a tracked run; the conditions agree with phase and current run; a NextRun implies that HasSchedule is True. |
| `SuiteStates.WriteKeepsState` | controllers/testsuite_controller.go:531-545 | Every write of the suite reconciler keeps these equations. |
| `Guarantees.CurrentRunIsLive` | controllers/testsuite_controller.go:558-571 | The run a suite tracks is its own, and if no user deleted the suite, that run is live if and only if no user deleted it. |
| `SuiteStates.CurrentIsNotDeleted` | controllers/testsuite_controller.go:337-349 | No controller may delete the tracked run. |
| `Guarantees.StuckForever` | controllers/testsuite_controller.go:565-570 | A suite whose current run is no longer live stays Running with it in every later world. |
| `SuiteExamples.LosesTrack` | controllers/testsuite_controller.go:641-674 | A history after which a suite tracks a run that a user has deleted. |
| `Guarantees.FinalRunStays` | controllers/testrun_controller.go:196-200 | A final run keeps phase and results in every later world, and gets no new Test. |
| `Guarantees.FinalTestStays` | controllers/test_controller.go:187-191 | A final Test keeps its verdict in every later world, and gets no new Pod. |
| `Guarantees.ResultsGrow` | controllers/testrun_controller.go:277-325 | A Test once among the results of a run of at most ten templates stays among them in every later world, with the same verdict, unless a user deletes it. |
| `Retention.ChildrenRetained` | controllers/testrun_controller.go:375-385 | Under a live Test or run that is final and keeps its children (Always, or OnFailure and Failed), a live child stays live unless a user deletes it. |
| `Retention.ApplyOnce` | controllers/test_controller.go:447-467 | One failure-free pass over a live Test or run that is final sweeps every live child if the policy is Never, or OnFailure and the verdict Passed, and leaves every live child as it is if the policy is Always, or OnFailure and the verdict Failed. |
| `Retention.TestHasPolicyOfRun` | controllers/testrun_controller.go:264-267 | In every reachable world each Test of a run has the policy of the run. |
| `Retention.RunFollowsTemplate` | controllers/testsuite_controller.go:599-602 | Every run of a suite has the policy and the templates that the suite asked for when the run was created. |
| `Gaps.ReconcileRun` | controllers/testrun_controller.go:203-373 | The pass over a live run in progress, of any number of templates, panics only if some live Test names a slot at or above the number of live Tests, and without failures whenever one does; a pass that ends leaves the run in the phase that its live Tests called for, and, with at most ten templates, exactly one live Test for each slot. |
| `Gaps.InBoundsUnlessBeyond` | controllers/testrun_controller.go:210-217 | For every order in which the live Tests may be listed, the loop stays in bounds if and only if no live Test names a slot at or above their number. |
| `Gaps.PanicsExactlyBeyond` | controllers/testrun_controller.go:207-234 | Some order panics if and only if some live Test names such a slot, and then none gets to a tally. |
| `Gaps.PanicStays` | controllers/testrun_controller.go:207-234 | A run that panics goes on to, and stays in progress, until it is deleted or a user deletes the Test that names such a slot. |
| `Gaps.BeyondIffGap` | controllers/testrun_controller.go:210-217 | In a run of at most ten templates some live Test names such a slot if and only if some slot without a live Test lies before one with. |
| `Gaps.InBoundsIffNoGap` | controllers/testrun_controller.go:210-217 | For a run of at most ten templates and every order in which its live Tests may be listed, the loop stays in bounds if and only if there is no such gap. |
| `Gaps.TallyIsDue` | controllers/testrun_controller.go:295-352 | For any number of templates, a tally makes the run Running unless every slot has a live Test with a verdict, Passed if all of these passed, and Failed otherwise. |
| `Gaps.GapsAreMadeByUsers` | controllers/testrun_controller.go:236-275 | Where a slot is empty before a filled one, and in an earlier world this was not so, a user has since deleted a Test of that slot; failures do not make gaps. |
| `Gaps.GapStays` | controllers/testrun_controller.go:207-234 | In a run of at most ten templates a gap lasts, and the run stays in progress, until the run is deleted or a user deletes the later Test. |
| `RunExamples.DeletingTheFirstTest` | controllers/testrun_controller.go:215-217 | A history in which a user's deletion of one of two Tests leads to that panic. |
| `RunExamples.GapWithoutPanic` | controllers/testrun_controller.go:213-234 | For every list of more than ten templates, a history in which a user's deletion leaves a gap at which no pass panics, and a later pass fills it. |
| `RunExamples.LinesChangePlaces` | controllers/testrun_controller.go:279-290 | A history in which the list is out of slot order, and each result line carries the description of the other Test's template. |
| `RunExamples.EverMoreTests` | controllers/testrun_controller.go:213-275 | Histories in which a run of more than ten templates has any number of live Tests that name its first slot. |
| `RunExamples.ResultsShrink` | controllers/testrun_controller.go:277-325 | For every list of more than ten templates, a history in which a live Test is among the results as passed and after a later tally is not. |
| `LostVerdicts.SafeUnlessMarked` | controllers/test_controller.go:204-226 | A finished Pod that the Test controller holds stays stored and held in every later world in which its Test lives without a verdict and no user has deleted it since, if and only if it is not marked. |
| `LostVerdicts.PodAlong` | controllers/test_controller.go:236-261 | The live Pod of a Test in progress stays live and held as long as the Test lives without a verdict and no user deletes the Pod. |
| `LostVerdicts.VerdictLost` | controllers/test_controller.go:204-226 | A history after which a Pod has succeeded and is gone and the Test has neither verdict nor Pod. |
| `Slots.ParseGenerated` | controllers/testrun_controller.go:213-215 | The index read back from a generated name is the last digit, so it is the index if and only if that is below ten. |
| `Slots.PanicsUnlessSuffixMissing` | controllers/testrun_controller.go:210-217 | For one Test a slot, indexing stays in bounds if and only if the slots without a Test are the last ones. |
| `Slots.NamedArePositions` | controllers/testrun_controller.go:216-217 | If it stays in bounds, the slots named are exactly the positions of the list. |
| `Slots.AgreesInSlotOrder` | controllers/testrun_controller.go:216-217 | The mapping as written is the intended one if and only if the list is in slot order. |
| `Slots.TallyIgnoresOrder` | controllers/testrun_controller.go:236-352 | Completions, passes and the resulting phase are the same for every order of the list and for the intended mapping. |
| `Slots.TallyCounts` | controllers/testrun_controller.go:278-290 | The number of results and of passes are the numbers of final and of passed Tests in the slots. |
| `Slots.ResultsFollowSlots` | controllers/testrun_controller.go:279-290 | The results are one line for each finished slot, in template order, each with its Test's verdict. |
| `Slots.DoneWhenFull` | controllers/testrun_controller.go:296-328 | Every slot is done if and only if there are as many results as slots. |
| `Helpers.AddFinalizer` | controllers/helpers.go:61-75 | The flag says whether the finalizer was absent; only then is it appended, and an object that has it is left alone. |
| `Helpers.RemoveFinalizer` | controllers/helpers.go:81-98 | The flag says whether it was present; all occurrences go and the rest keep their order; the copy changes even if the patch fails. |
| `Helpers.RemoveUndoesAdd` | controllers/helpers.go:61-98 | Removing undoes adding when it was absent, and changes the list if and only if it was present. |
| `Helpers.WithoutKeepsOrder` | controllers/helpers.go:85-91 | What is left is the list at an increasing sequence of positions, all those of other finalizers. |
| `Helpers.CleanUp` | controllers/helpers.go:103-118 | Success means marked, without the finalizer, and gone unless another holds it; failure leaves the object at most marked; an object already gone is an error only for the patch; the flag says whether anything changed. |
| `Helpers.CleanUpAll` | controllers/helpers.go:124-135 | Every object is attempted, also after failures: as many writes fail as objects are left at most marked, and each other object is swept; there is no error if and only if none failed. |
| `Compaction.CompactedAreSurvivors` | controllers/testrun_controller.go:165-192 | The pass leaves exactly the multiset of entries that are not deleted. |
| `Compaction.CompactedInPlace` | controllers/testrun_controller.go:174-180 | A live entry in front stays at its position. |
| `Compaction.ReleasedAreDeleted` | controllers/testrun_controller.go:166-190 | Only deleted entries are released. |
| `Compaction.FirstDeletedIsReleased` | controllers/testsuite_controller.go:253-259 | The first deleted entry is released, wherever it stands. |
| `Compaction.Compact` | controllers/testsuite_controller.go:253-274 | The two-index loop on the array stays in bounds, ends, leaves the compacted list in the returned slice, sweeps exactly the released entries, and if a patch fails has swept a prefix of them and nothing else. |
| `Compaction.FillFromEnd` | controllers/testrun_controller.go:174-189 | The inner loop finds the last live entry behind the gap, puts it there and changes no other entry; its own releases do nothing. |
| `Releases.ProgressInEveryOrder` | controllers/testsuite_controller.go:260-271 | While some deleted run waits, a pass lets go of one in every order of the list if and only if every deleted run in it waits. |
| `Releases.LetGoWithinPasses` | controllers/testsuite_controller.go:244-274 | As many passes as runs wait let go of all of them, for every order in which the passes list the runs, if and only if none waits, or all deleted runs wait and either there is only one or nothing else holds them. |
| `SuiteExamples.TwoPassesAreTooFew` | controllers/testsuite_controller.go:260-271 | A history after which two runs wait and two passes need not let go of both. |
| `TestControllers.TestReconciler.ClearMarked` | controllers/test_controller.go:204-226 | Every marked Pod is attempted, also after failures: as many writes fail as marked Pods stay as they were, and the others have lost the finalizer; there is no error if and only if none failed; the other Pods are untouched. |
| `TestControllers.TestReconciler.KeepUsable` | controllers/test_controller.go:219-225 | The Pods kept are those not marked and those that finished before they were. |
| `TestControllers.UsableKeepOrder` | controllers/test_controller.go:219-225 | They stand at an increasing sequence of positions of the list, which are those of all such Pods. |
| `TestControllers.PickAmong` | controllers/test_controller.go:238-243 | The Pod picked is the first that is not marked if there is one, and otherwise the first. |
| `TestControllers.TestReconciler.Reduce` | controllers/test_controller.go:236-261 | The loop ends with that Pod and has not touched it; each other Pod of the list is swept unless its own write failed, also after failures of others, and there is no error if and only if none failed. |
| `TestControllers.TestReconciler.IsRunning` | controllers/test_controller.go:196-418 | A pass that succeeds leaves one deciding Pod (a live one as it was, else one that finished before it was marked, else a new one), sweeps the marked and all other Pods, and leaves the Test in the phase that this Pod dictates. |
| `TestControllers.PhaseTellsPod` | controllers/test_controller.go:298-415 | After such a pass the Test is Starting, Running, Passed or Failed as its Pod is Pending, Running, Succeeded or Failed. |
| `TestControllers.TestReconciler.RemovePods` | controllers/test_controller.go:447-467 | Every Pod of a Test whose policy drops them is attempted, also after failures: those whose own write did not fail are swept, and there is no error if and only if none failed. |
| `TestControllers.TestReconciler.IsComplete` | controllers/test_controller.go:420-470 | Marked Pods of a final Test are cleared; the others are swept if the policy is Never, or OnFailure and the Test passed, and otherwise stay as they are. |
| `TestControllers.TestReconciler.IsDeleted` | controllers/test_controller.go:123-152 | Without failures all Pods of a deleted Test are swept and then the Test; nothing else changes. |
| `TestControllers.TestReconciler.Reconcile` | controllers/test_controller.go:84-194 | What one reconciliation of a Test comes to: absent, deleted, in progress or final; a live Test is held by its controller afterwards. |
| `TestRunControllers.TestRunReconciler.MapSlots` | controllers/testrun_controller.go:207-234 | The loop as written, with its panic: the slots hold the entries at the positions named, misnamed Tests are cleaned up, nothing else changes. |
| `TestRunControllers.TestRunReconciler.FillAndTally` | controllers/testrun_controller.go:236-293 | Every empty slot, also past the tenth, gets exactly one Test, named for it and with the policy of the run, and the run gets no others; at every step completions are passes plus failures and the number of results; the results are those of the slots. |
| `TestRunControllers.NamesTell` | controllers/testrun_controller.go:251-252 | The generated names of different slots differ. |
| `TestRunControllers.TestRunReconciler.IsRunning` | controllers/testrun_controller.go:203-373 | A pass that ends has written the tally of the live Tests in the order listed, made one Test for each slot that this leaves empty, and left every slot below the tenth filled; a panic means that some order overruns the list, and leaves every body as it was. |
| `TestRunControllers.TestRunReconciler.IsComplete` | controllers/testrun_controller.go:375-385 | The live Tests of a final run are swept if the policy is Never, or OnFailure and the run passed, and otherwise stay as they are. |
| `TestRunControllers.TestRunReconciler.IsDeleted` | controllers/testrun_controller.go:124-148 | The Tests of a deleted run are swept, and the run stays as it is; if there are none, the run is swept. |
| `TestRunControllers.TestRunReconciler.Reconcile` | controllers/testrun_controller.go:62-201 | What one reconciliation of a TestRun comes to, with its panic as an outcome, and what becomes of the deleted Tests in its list. |
| `TestSuiteControllers.TestSuiteReconciler.Patch` | controllers/testsuite_controller.go:178-180 | A merge patch of the changed fields makes of the stored suite what the event says, and the answer replaces the copy. |
| `TestSuiteControllers.TestSuiteReconciler.FollowSchedule` | controllers/testsuite_controller.go:173-214 | A schedule that was not changed is left alone; a removed one is forgotten with NextRun and its condition; a changed one clears NextRun in the copy, and in the store unless the patch fails. Nothing else changes. |
| `TestSuiteControllers.TestSuiteReconciler.Prepare` | controllers/testsuite_controller.go:164-214 | A live suite is held by its controller and, if nothing fails, has followed a change of its schedule; a schedule that is removed is the only one recorded here. |
| `TestSuiteControllers.TestSuiteReconciler.Tidy` | controllers/testsuite_controller.go:236-280 | The deleted runs are compacted away and the live ones listed by creation second, oldest first. |
| `TestSuiteControllers.SortByAge` | controllers/testsuite_controller.go:277-280 | A permutation in the order of creation seconds; runs of the same second may come in any order. |
| `TestSuiteControllers.TestSuiteReconciler.FocusOnRuns` | controllers/testsuite_controller.go:285-298 | The loop leaves the suite focused on the last unfinished run of the list and counts one adoption, or changes nothing if there is none. |
| `TestSuiteControllers.LastOpenIsNewest` | controllers/testsuite_controller.go:285-298 | That run is a newest unfinished one. |
| `TestSuiteControllers.FocusesOnOldest` | controllers/testsuite_controller.go:285-298 | A pass focuses the suite on an oldest unfinished run if and only if all unfinished runs were created in the same second. |
| `SuiteExamples.TwoOpenRuns` | controllers/testsuite_controller.go:604-640 | A history after which a suite that is not running has two unfinished runs created in different seconds. |
| `TestSuiteControllers.TestSuiteReconciler.TrimHistory` | controllers/testsuite_controller.go:337-349 | Of the live runs, in an order by age, exactly those past the limit at the old end are swept and all others stay as they are. |
| `TestSuiteControllers.TestSuiteReconciler.SetSchedule` | controllers/testsuite_controller.go:351-408 | The schedule asked for becomes the active one; NextRun stays if it was set and otherwise lies ahead; the copy has a NextRun afterwards if and only if the schedule parses; without failures the suite is otherwise as it was, with HasSchedule True exactly if the schedule parses. |
| `TestSuiteControllers.TestSuiteReconciler.DecideSchedule` | controllers/testsuite_controller.go:501-529 | The schedule triggers only from NextRun to ten seconds after it, and leaves NextRun; a miss moves it past the present; otherwise it lies ahead. |
| `TestSuiteControllers.TestSuiteReconciler.DecideTrigger` | controllers/testsuite_controller.go:463-548 | A trigger by hand comes first and is used up; any trigger makes the suite Running without a run and counts once, and one by the schedule falls into the ten seconds after its time; none leaves the phase; a pass that fails leaves the suite as it was or forgets a trigger by hand, and it forgets one if and only if it wrote the reset and did not write Running. |
| `SuiteExamples.TriggerLost` | controllers/testsuite_controller.go:463-480 | A history after which a trigger by hand is gone and nothing was triggered. |
| `Triggers.StaysAskedWhileRunning` | controllers/testsuite_controller.go:463-480 | In every later world in which the suite has neither been triggered nor completed a run since, a trigger by hand is still set, if and only if the suite is Running or no longer live now. |
| `TestSuiteControllers.TestSuiteReconciler.StartRun` | controllers/testsuite_controller.go:572-637 | A run made from the suite's template, owned by it and held for its controller, becomes the current run; if the status patch fails the run is counted as lost and the suite still needs one. |
| `TestSuiteControllers.TestSuiteReconciler.IsRunning` | controllers/testsuite_controller.go:552-674 | By the tracked run, with the whole suite that results: a run is created and tracked if there is none; a run that is not live is an error and one in progress nothing, and the suite stays as it is; once the run is final the suite is Ready and untracked, and a trigger by hand that came meanwhile waits. |
| `TestSuiteControllers.TestSuiteReconciler.IsIdle` | controllers/testsuite_controller.go:322-550 | The history is trimmed, and the suite is Running after exactly one trigger, which a trigger by hand cannot fail to cause and the schedule causes only within ten seconds of NextRun, or Ready with its next scheduled time ahead; without failures this determines the whole suite up to the next time computed and a trigger by a release. |
| `TestSuiteControllers.ShowsSchedule` | controllers/testsuite_controller.go:370-407 | After a pass without failures over an idle suite, HasSchedule is True if and only if a schedule is asked for that parses. |
| `TestSuiteControllers.AnswersByHand` | controllers/testsuite_controller.go:463-480 | Such a pass answers a trigger by hand with one trigger and Running if the suite is idle, and in every other case leaves it set. |
| `TestSuiteControllers.FiresForTenSeconds` | controllers/testsuite_controller.go:501-529 | An idle suite is triggered by a pass that decides from NextRun to 10_000_000_000 nanoseconds after it; the schedule triggers it in that window only; before it NextRun stays, and after it a time ahead takes its place. |
| `Schedules.FiresWithinTenSeconds` | controllers/testsuite_controller.go:506-523 | In every legal log each trigger by the schedule comes from NextRun to 10_000_000_000 nanoseconds after it. |
| `TestSuiteControllers.TestSuiteReconciler.IsDeleted` | controllers/testsuite_controller.go:143-162 | The runs of a deleted suite are swept, and the suite stays as it is; if there are none, the suite is swept. |
| `TestSuiteControllers.TestSuiteReconciler.Reconcile` | controllers/testsuite_controller.go:111-320 | What one reconciliation of a TestSuite comes to, in terms of the world it started from: the pass by phase, the deleted runs that compaction lets go of, and no others; a trigger by hand that it resets it also fires. Without failures: the whole suite that results; each schedule recorded finds NextRun cleared if and only if one is asked for or there was no NextRun; NextRun belongs to the active schedule afterwards if it did before or the schedule was changed; and after a change each trigger by the schedule is for a time that the pass has computed. |
| `Writes.StaysCurrent` | controllers/testsuite_controller.go:351-389 | From any time of a history on, NextRun goes on belonging to the active schedule as long as every change of schedule finds it cleared. |
| `Schedules.NextRunMovesOn` | controllers/testsuite_controller.go:370-389 | While a suite follows one schedule that parses, NextRun never goes back and is never lost. |
| `Schedules.NextRunUpToDate` | controllers/testsuite_controller.go:174-186 | If every change of schedule finds NextRun cleared, NextRun was computed from the active schedule. |
| `Schedules.AnnotationUpToDate` | controllers/testsuite_controller.go:354-368 | If NextRun was up to date before the schedule is recorded, it is afterwards if and only if a changed schedule found it cleared. |
| `Schedules.UpToDateThroughout` | controllers/testsuite_controller.go:174-186 | NextRun belongs to the active schedule at every time of a history if and only if every change of schedule finds it cleared. |
| `SuiteExamples.StaleNextRun` | controllers/testsuite_controller.go:180-182 | A history in which a failed clearing leaves the old time under the new schedule. |
| `SuiteExamples.RemovedBeforeCleared` | controllers/testsuite_controller.go:187-214 | A history without failures in which a removed schedule is forgotten while NextRun is still set. |
| `Schedules.TwoFirings` | controllers/testsuite_controller.go:501-529 | Between two triggers by the schedule for the same NextRun a run of the suite completes, within ten seconds of it. |
| `Schedules.AwaitsAlong` | controllers/testsuite_controller.go:370-389 | Without an edit of the suite, NextRun stays at least until ten seconds after it. |
| `Schedules.FiresAgainWithinGrace` | controllers/testsuite_controller.go:517-524 | Once a run that the schedule started has completed, the same time may fire again if and only if no more than ten seconds have passed since it. |
| `SuiteExamples.FiresTwice` | controllers/testsuite_controller.go:517-524 | A history in which one scheduled time triggers two runs. |

## Assumptions

- A reconciliation is atomic with respect to other reconciliations but may stop after any prefix of its writes. Finalizer
  lists are patched without optimistic locking, so a finer interleaving would lose updates and ownership with them.
- Reads succeed and are not stale: the informer caches are up to date with the store.
- Generated names are fresh, and a name is never used twice for one kind. Names are not empty.
- Users create suites, and runs and Tests without owner, edit the spec of suites, trigger suites and delete anything. They do not
  create owned objects, write status, or edit the specs of runs and Tests.
- An object that is marked goes with its last finalizer. A real Pod lingers through its grace period after that, unless it had
  already stopped; here it goes at once, and a Pod without finalizers goes as soon as it is deleted.
- The cluster's own garbage collector does nothing that the reconcilers do not do first.
- Between reconciliations no run is created but neither assigned nor counted as lost; each reconciliation of a suite
  keeps this, and only a crash between the two writes would break it.

## Left out

- The Helm path: the watcher, the release secrets, the label and annotation writes. A Helm trigger may fire at any time, and
  acknowledging it either succeeds and refreshes the copy or ends the pass.
- Cron parsing and time zones: a schedule carries the verdict of the parser, and the next time is any time after the present;
  a schedule that never fires again (for which the library answers with the zero time) is not modelled.
- The second in which NextRun is stored is not rounded; creation timestamps are.
- Messages, events, metrics, logging, requeue delays and returned errors beyond which branch was taken.
- The conditions of Tests and TestRuns, and reasons and messages of those of suites, whose conditions are a map from type to
  status.
- Pod templates, container states and the template hash: no branch depends on them.
- The phases Unknown of Tests and Error of suites, which no reconciler writes.
- Manager set-up, watches, field indexes and rate limits: any reconciliation may run at any time.
- Crashes of the process other than the panic of the mapping loop.
- SortByAge: the library's sort is not modelled as an algorithm; the contract admits every order that its documentation does.
- NextTime: says no more than that the next time lies after the one given.
- Guarantees.ResultsGrow: speaks of runs of at most ten templates; beyond that it is false, as `RunExamples.ResultsShrink` shows.
- Cascades.Cascade: assumes that other programs' finalizers on the tree go eventually; while they do not, the tree stays.
- Completions.Completes: assumes that Pods end and that the unfinished runs have at most ten templates and do not panic at the
  start, as otherwise no verdict comes; and that users leave the suite, its tracked run and what is under its unfinished runs
  alone, as a gap or a lost run would stop it.
