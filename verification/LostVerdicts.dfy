/**
 A verdict can be lost. The Test reconciler lets go of a marked Pod before it stores what the Pod's outcome
 says, so if that later write fails the Pod is gone and the Test runs again. A Pod that is not marked is safe
 from this, whatever fails.
 */
module LostVerdicts {
  import opened Prelude
  import opened Store
  import opened Effects
  import opened Invariants
  import opened Verdicts
  import opened Conclusions
  import opened Histories

  // ----- when a finished Pod is safe

  /** The Test lives and has no verdict yet; its Pod has finished, and the Test controller holds it. */
  ghost predicate AwaitsVerdict(w: World, t: Key, p: Key) {
    && t.kind == TestKind && Live(w, t) && TestInProgress(w, t)
    && ChildOf(w, p, t) && Holds(w, p, TestController) && p in w.pods && w.pods[p].phase.IsFinished()
  }

  /** Whatever happens, as long as the Test lives without a verdict and no user deletes the Pod, the Pod waits. */
  ghost predicate KeptForVerdict(w: World, t: Key, p: Key) {
    forall w' ::
      Leads(w, w') && Live(w', t) && TestInProgress(w', t) && (p in w'.outside ==> p in w.outside) ==>
        AwaitsVerdict(w', t, p)
  }

  /** No controller has reason to delete the one live Pod of a live Test in progress. */
  lemma NoReasonToDeletePod(w: World, t: Key, p: Key)
    requires WellFormed(w) && OnePodPerTest(w) && t.kind == TestKind && Live(w, t) && TestInProgress(w, t)
    requires ChildOf(w, p, t) && Live(w, p)
    ensures !MayDelete(w, p)
  {
    assert Fits(p.kind, t.kind);
    forall q | q != p && ChildOf(w, q, t) ensures !Live(w, q) {
      assert Fits(q.kind, t.kind);
      assert BothLivePods(w, p, q, t) ==> p == q;
    }
  }

  /** Controllers take their finalizers off marked objects only. */
  lemma StaysHeld(w: World, e: Event, w': World, k: Key, f: Finalizer)
    requires WellBorn(w) && Steps(w, e, w') && Live(w, k) && Live(w', k) && Holds(w, k, f) && !f.Foreign?
    ensures Holds(w', k, f)
  {
    EventDoes(w, e, w');
    if EffectOf(e).TakesOff? && e.All? { CommonStep(w, e, w'); }
  }

  ghost predicate LivePod(w: World, t: Key, p: Key) {
    t.kind == TestKind && Live(w, t) && TestInProgress(w, t) && ChildOf(w, p, t) && Live(w, p)
  }

  lemma PodStep(w: World, e: Event, w': World, t: Key, p: Key)
    requires WellFormed(w) && OnePodPerTest(w) && Steps(w, e, w') && LivePod(w, t, p)
    requires Live(w', t) && TestInProgress(w', t) && p !in w'.outside
    ensures LivePod(w', t, p) && (Holds(w, p, TestController) ==> Holds(w', p, TestController))
  {
    NoReasonToDeletePod(w, t, p);
    LivesOn(w, e, w', p);
    if Holds(w, p, TestController) { StaysHeld(w, e, w', p, TestController); }
  }

  lemma StillInProgress(w0: World, w: World, w': World, t: Key)
    requires WellBorn(w) && Grows(w0, w) && Advances(w, w')
    requires t in w0.birth && t in w0.tests && Live(w', t) && TestInProgress(w', t)
    ensures Live(w, t) && TestInProgress(w, t)
  {
    LiveEarlier(w, w', t);
  }

  /** The live Pod of a Test in progress stays, held as it was, as long as the Test lives and no user deletes it. */
  lemma {:induction false} PodAlong(early: seq<Event>, late: seq<Event>, t: Key, p: Key)
    requires Legal(late) && early <= late && Legal(early) && LivePod(After(early), t, p)
    requires Live(After(late), t) && TestInProgress(After(late), t) && p !in After(late).outside
    ensures LivePod(After(late), t, p)
    ensures Holds(After(early), p, TestController) ==> Holds(After(late), p, TestController)
  {
    if early != late {
      var before := late[..|late| - 1];
      assert early <= before;
      HistoryAdvances(before, late);
      HistoryAdvances(early, before);
      Reachable(early);
      Reachable(before);
      StillInProgress(After(early), After(before), After(late), t);
      PodAlong(early, before, t, p);
      LastStep(late);
      PodStep(After(before), late[|late| - 1], After(late), t, p);
    }
  }

  lemma ReleasedPod(w: World, t: Key, p: Key)
    requires t.kind == TestKind && p.kind == PodKind && GuardCommon(w, Release(p, TestController))
    ensures var w' := ApplyCommon(w, Release(p, TestController));
            && !Holds(w', p, TestController) && (Live(w', t) <==> Live(w, t))
            && w'.tests == w.tests && w'.outside == w.outside
  {
  }

  /** A reconciliation that fails half-way may let go of a marked Pod and do nothing else. */
  lemma MarkedMayGo(w: World, t: Key, p: Key)
    requires Reached(w) && AwaitsVerdict(w, t, p) && !Live(w, p)
    ensures !KeptForVerdict(w, t, p)
  {
    ReachedOwned(w);
    assert Fits(p.kind, t.kind);
    var w' := Goes(w, All(Release(p, TestController)));
    ReleasedPod(w, t, p);
    assert Leads(w, w') && !AwaitsVerdict(w', t, p);
  }

  /**
   A finished Pod waits until its Test has a verdict, whatever fails or is deleted besides the two, if and only if it is
   not marked.
   */
  lemma SafeUnlessMarked(w: World, t: Key, p: Key)
    requires Reached(w) && AwaitsVerdict(w, t, p)
    ensures KeptForVerdict(w, t, p) <==> Live(w, p)
  {
    if Live(w, p) {
      forall w' | Leads(w, w') && Live(w', t) && TestInProgress(w', t) && (p in w'.outside ==> p in w.outside)
        ensures AwaitsVerdict(w', t, p)
      {
        var early, late := LogsOf(w, w');
        if p in w.outside { AskedIsNotLive(w, p); }
        PodAlong(early, late, t, p);
        LeadsOn(w, w');
      }
    } else {
      MarkedMayGo(w, t, p);
    }
  }

  // ----- a verdict lost

  const TEST := Key(TestKind, "test")
  const POD := Key(PodKind, "pod")

  ghost predicate HasPod(w: World, meta: Meta, phase: PodPhase) {
    && w.birth == map[TEST := Birth(None, 0), POD := Birth(Some(TEST), 0)]
    && w.meta == map[TEST := Meta([TestController], false), POD := meta]
    && w.tests == map[TEST := Test("test", Always, TestPending)] && w.pods == map[POD := Pod(phase)]
  }

  lemma TestHeld() returns (w: World)
    ensures Reached(w)
    ensures && w.birth == map[TEST := Birth(None, 0)] && w.meta == map[TEST := Meta([TestController], false)]
            && w.now == 0
            && w.tests == map[TEST := Test("test", Always, TestUnset)] && w.pods == map[]
  {
    Begins();
    w := Goes(EMPTY, Env(UserCreateTest(TEST, "test", Always)));
    var none: seq<Finalizer> := [];
    assert none + [TestController] == [TestController];
    assert w.meta == map[TEST := Meta(none, false)];
    w := Goes(w, All(Hold(TEST)));
  }

  lemma PodCreated() returns (w: World)
    ensures Reached(w) && HasPod(w, Meta([TestController], false), PodPending)
  {
    w := TestHeld();
    w := Goes(w, OfTest(TestQueued(TEST)));
    w := Goes(w, OfTest(CreatePod(POD, TEST)));
  }

  lemma PodFinished() returns (w: World)
    ensures Reached(w) && HasPod(w, Meta([TestController], true), PodSucceeded)
  {
    w := PodCreated();
    w := Goes(w, Env(PodMoves(POD, PodSucceeded)));
    w := Goes(w, Env(UserDelete(POD)));
  }

  /** The Pod succeeded and is gone; the Test has no verdict, and no Pod left to get one from. */
  lemma VerdictLost() returns (w: World)
    ensures Reached(w) && Live(w, TEST) && TestInProgress(w, TEST)
    ensures SawPod(w, TEST, PodSucceeded)
    ensures forall p :: ChildOf(w, p, TEST) ==> !Stored(w, p)
  {
    w := PodFinished();
    var held := [TestController];
    assert Without(held[1..], TestController) == [] && Without(held, TestController) == [];
    w := Goes(w, All(Release(POD, TestController)));
    assert ChildOf(w, POD, TEST);
  }
}
