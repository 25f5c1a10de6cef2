/**
 A running suite gets on. Suppose that every object is reconciled without failure again and again; that users leave
 alone the suite, its tracked run and what is under its unfinished runs; and that these have at most ten templates, do
 not panic to begin with, and see their Pods end. Then a run of the suite completes.

 Anything else may still happen in between: reconciliations that fail half-way, edits, deletions of other objects,
 finalizers of other programs.
 */
module Completions {
  import opened Prelude
  import opened Store
  import opened Effects
  import opened Invariants
  import opened Verdicts
  import opened Conclusions
  import opened SuiteStates
  import opened Histories
  import opened Clusters
  import opened Cascades
  import opened Gaps
  import opened LostVerdicts
  import opened Guarantees
  import TestControllers
  import TestRunControllers
  import opened TestSuiteControllers

  // ----- what is assumed of a history

  /** What a reconciliation without failures does to a live object, as the reconcilers' contracts have it. */
  ghost predicate Worked(w: World, w': World, k: Key) {
    Live(w, k) ==>
      match k.kind
      case SuiteKind =>
        k in w.suites && w.suites[k].account.awaiting == None ==> exists out :: Pass(w, w', k, out)
      case RunKind =>
        RunInProgress(w, k) && !TestRunControllers.Overruns(w, k) ==>
          TestRunControllers.Tallied(w, w', k) && TestRunControllers.SlotsFilled(w', k)
      case TestKind => TestInProgress(w, k) ==> TestControllers.Stepped(w, w', k)
      case PodKind => true
  }

  /** Running an object's reconciler against a server that does not fail does this. */
  method WorkOnce(api: Cluster, k: Key)
    requires api.Valid() && api.reliable
    requires k in api.w.suites ==> api.w.suites[k].account.awaiting == None
    modifies api
    ensures api.Valid() && old(api.log) <= api.log
    ensures Worked(old(api.w), api.w, k)
  {
    match k.kind {
      case SuiteKind =>
        var r := new TestSuiteControllers.TestSuiteReconciler(api);
        var out := r.Reconcile(k);
      case RunKind =>
        var r := new TestRunControllers.TestRunReconciler(api);
        var out := r.Reconcile(k);
      case TestKind =>
        var r := new TestControllers.TestReconciler(api);
        var ok := r.Reconcile(k);
      case PodKind =>
    }
  }

  /** The worlds between reconciliations, in their order. */
  type Course = nat -> World

  /** Every world of the course leads to all later ones. */
  ghost predicate Coherent(c: Course) { forall i: nat, j: nat :: i <= j ==> Leads(c(i), c(j)) }

  /** The history from time `n` on, at the times between its reconciliations. */
  ghost function From(h: History, n: nat): Course { (i: nat) => At(h, n + i) }

  lemma LeadsAlong(h: History, i: nat, j: nat)
    requires Growing(h) && i <= j
    ensures Leads(At(h, i), At(h, j))
  {
    assert h(i) <= h(j);
    PassesThrough(h(i), h(j));
  }

  lemma HistoryIsCoherent(h: History, n: nat)
    requires Growing(h)
    ensures Coherent(From(h, n))
  {
    var c := From(h, n);
    forall i: nat, j: nat | i <= j ensures Leads(c(i), c(j)) { LeadsAlong(h, n + i, n + j); }
  }

  ghost predicate WorkedAt(c: Course, i: nat, k: Key) { Worked(c(i), c(i + 1), k) }

  ghost predicate WorkedSince(c: Course, i: nat, k: Key) { exists j: nat :: i <= j && WorkedAt(c, j, k) }

  /** Every object is reconciled without failure again and again. */
  ghost predicate Active(c: Course) { forall i: nat, k: Key :: WorkedSince(c, i, k) }

  /** A Test of the run, or a Pod of one. */
  ghost predicate Under(w: World, r: Key, k: Key) {
    ChildOf(w, k, r) || exists t :: ChildOf(w, k, t) && ChildOf(w, t, r)
  }

  ghost predicate IsCurrent(w: World, s: Key, r: Key) { s in w.suites && w.suites[s].status.current == Some(r) }

  /** Users delete neither the suite nor the run it tracks, and from the start on nothing under its unfinished runs. */
  ghost predicate Undisturbed(c: Course, s: Key) {
    && (forall i: nat :: s !in c(i).outside)
    && (forall i: nat, r :: IsCurrent(c(i), s, r) ==> r !in c(i).outside)
    && (forall i: nat, r, k :: OpenRun(c(i), s, r) && Under(c(i), r, k) && k in c(i).outside ==> k in c(0).outside)
  }

  /** At the start no unfinished run of the suite makes each pass over it panic. */
  ghost predicate NoneStuck(c: Course, s: Key) { forall r :: OpenRun(c(0), s, r) ==> !NamesBeyond(c(0), r) }

  /** No run of the suite is left created but neither assigned nor counted as lost. */
  ghost predicate Settled(c: Course, s: Key) {
    forall i: nat :: s in c(i).suites ==> c(i).suites[s].account.awaiting == None
  }

  ghost predicate ShortRuns(c: Course, s: Key) {
    forall i: nat, r :: OpenRun(c(i), s, r) ==> |c(i).runs[r].templates| <= 10
  }

  ghost predicate Finished(w: World, p: Key) { p in w.pods && w.pods[p].phase.IsFinished() }

  /** The Pod has finished, or is on its way out. */
  ghost predicate Ended(w: World, p: Key) { Finished(w, p) || !Live(w, p) }

  ghost predicate EndsSince(c: Course, i: nat, p: Key) { exists j: nat :: i <= j && Ended(c(j), p) }

  /** Every Pod under an unfinished run of the suite comes to an end. */
  ghost predicate PodsEnd(c: Course, s: Key) {
    forall i: nat, r, p :: OpenRun(c(i), s, r) && Under(c(i), r, p) && p.kind == PodKind ==> EndsSince(c, i, p)
  }

  /** All of this; spelled out only where `Unsealed` is mentioned. */
  ghost predicate Favourable(c: Course, s: Key) {
    forall k {:trigger Unsealed(k)} :: Unsealed(k) ==>
      && s.kind == SuiteKind && Coherent(c) && Active(c)
      && Undisturbed(c, s) && NoneStuck(c, s) && Settled(c, s) && ShortRuns(c, s) && PodsEnd(c, s)
  }

  lemma GoesOn(c: Course, s: Key, i: nat, j: nat)
    requires Favourable(c, s) && i <= j
    ensures s.kind == SuiteKind && Leads(c(i), c(j))
  {
    assert Unsealed(0);
  }

  lemma WorkDue(c: Course, s: Key, n: nat, k: Key) returns (j: nat)
    requires Favourable(c, s)
    ensures n <= j && WorkedAt(c, j, k)
  {
    assert Unsealed(0);
    assert WorkedSince(c, n, k);
    j :| n <= j && WorkedAt(c, j, k);
  }

  lemma SuiteIsKept(c: Course, s: Key, i: nat)
    requires Favourable(c, s)
    ensures s !in c(i).outside
    ensures forall r :: IsCurrent(c(i), s, r) ==> r !in c(i).outside
  {
    assert Unsealed(0);
  }

  /** What has been live since the start, under a run that is unfinished now, no user has deleted. */
  lemma NotDeleted(c: Course, s: Key, n: nat, i: nat, r: Key, k: Key)
    requires Favourable(c, s) && Live(c(n), k) && OpenRun(c(i), s, r) && Under(c(i), r, k)
    ensures k !in c(i).outside
  {
    assert Unsealed(0);
    if k in c(0).outside {
      GoesOn(c, s, 0, n);
      LeadsOn(c(0), c(n));
      AskedIsNotLive(c(n), k);
    }
  }

  /** A user who has deleted something under an unfinished run did so before the start. */
  lemma NoneDeletedSince(c: Course, s: Key, i: nat, r: Key, p: nat)
    requires Favourable(c, s) && OpenRun(c(i), s, r)
    ensures !DeletedSince(c(0), c(i), r, p)
  {
    assert Unsealed(0);
    forall t | ChildOf(c(i), t, r) && t in c(i).outside ensures t in c(0).outside { assert Under(c(i), r, t); }
  }

  lemma NotStuck(c: Course, s: Key, r: Key)
    requires Favourable(c, s) && OpenRun(c(0), s, r)
    ensures !NamesBeyond(c(0), r)
  {
    assert Unsealed(0);
  }

  lemma IsSettled(c: Course, s: Key, i: nat)
    requires Favourable(c, s) && s in c(i).suites
    ensures c(i).suites[s].account.awaiting == None
  {
    assert Unsealed(0);
  }

  lemma IsShort(c: Course, s: Key, i: nat, r: Key)
    requires Favourable(c, s) && OpenRun(c(i), s, r)
    ensures Short(c(i), r)
  {
    assert Unsealed(0);
  }

  lemma PodDue(c: Course, s: Key, i: nat, r: Key, t: Key, p: Key) returns (j: nat)
    requires Favourable(c, s) && OpenRun(c(i), s, r) && ChildOf(c(i), t, r) && ChildOf(c(i), p, t) && p.kind == PodKind
    ensures i <= j && Ended(c(j), p)
  {
    assert Unsealed(0);
    assert Under(c(i), r, p);
    assert EndsSince(c, i, p);
    j :| i <= j && Ended(c(j), p);
  }

  // ----- while the suite tracks a run

  /** No run of the suite completes on the way to the later world, and its runs stay. */
  ghost predicate SameRound(w: World, w': World, s: Key) {
    && Tracks(w', s)
    && (forall r :: ChildOf(w', r, s) <==> ChildOf(w, r, s))
    && (forall r :: ChildOf(w, r, s) && Live(w, r) && r !in w'.outside && s !in w'.outside ==> Live(w', r))
  }

  /** A suite that tracks a run gets no other. */
  lemma NoNewRun(w: World, e: Event, w': World, s: Key, r: Key)
    requires WellFormed(w) && Steps(w, e, w') && Tracks(w, s) && s.kind == SuiteKind && ChildOf(w', r, s)
    ensures ChildOf(w, r, s)
  {
    EventDoes(w, e, w');
    if r !in w.birth {
      OwnerAtBirth(w, e, w');
      NotRunOf(w, e, w', s);
    }
  }

  lemma NotRunOf(w: World, e: Event, w': World, s: Key)
    requires Steps(w, e, w') && Tracks(w, s) && s.kind == SuiteKind && EffectOf(e).Creates?
    ensures EffectOf(e).owner != Some(s)
  {
    match e
    case OfTest(_) => TestStep(w, e, w');
    case OfRun(_) => RunStep(w, e, w');
    case OfSuite(_) => SuiteStep(w, e, w');
    case _ =>
  }

  /** While the suite tracks one of its runs, no controller deletes any of them. */
  lemma NoReasonToDeleteRun(w: World, s: Key, r: Key)
    requires WellFormed(w) && Tracks(w, s) && s.kind == SuiteKind && Live(w, s) && ChildOf(w, r, s)
    ensures !MayDelete(w, r)
  {
    assert Fits(r.kind, s.kind);
  }

  lemma RoundStep(w: World, e: Event, w': World, s: Key)
    requires WellFormed(w) && SuitesStay(w) && Steps(w, e, w') && Tracks(w, s) && s.kind == SuiteKind
    requires Rounds(w', s) == Rounds(w, s)
    ensures SameRound(w, w', s)
  {
    RoundsGrow(w, e, w', s);
    EventDoes(w, e, w');
    forall r ensures ChildOf(w', r, s) <==> ChildOf(w, r, s) {
      if ChildOf(w', r, s) { NoNewRun(w, e, w', s, r); }
    }
    forall r | ChildOf(w, r, s) && Live(w, r) && r !in w'.outside && s !in w'.outside ensures Live(w', r) {
      LivesOn(w, e, w', r);
      assert HasBody(w, s);
      NoReasonToDeleteRun(w, s, r);
    }
  }

  lemma SameRoundTransitively(a: World, b: World, c: World, s: Key)
    requires SameRound(a, b, s) && SameRound(b, c, s) && b.outside <= c.outside
    ensures SameRound(a, c, s)
  {
  }

  lemma {:induction false} RoundsAlong(early: seq<Event>, late: seq<Event>, s: Key)
    requires Legal(late) && early <= late && Legal(early) && s.kind == SuiteKind && s in After(early).suites
    ensures s in After(late).suites && Rounds(After(early), s) <= Rounds(After(late), s)
    ensures Rounds(After(late), s) == Rounds(After(early), s) ==>
              && (SuiteIsRunning(After(early), s) ==> SuiteIsRunning(After(late), s))
              && (Tracks(After(early), s) ==> SameRound(After(early), After(late), s))
  {
    if early != late {
      var before := late[..|late| - 1];
      assert early <= before;
      RoundsAlong(early, before, s);
      Reachable(before);
      LastStep(late);
      RoundsGrow(After(before), late[|late| - 1], After(late), s);
      if Tracks(After(early), s) && Rounds(After(late), s) == Rounds(After(early), s) {
        RoundStep(After(before), late[|late| - 1], After(late), s);
        HistoryAdvances(before, late);
        SameRoundTransitively(After(early), After(before), After(late), s);
      }
    }
  }

  lemma RoundsLater(w: World, w': World, s: Key)
    requires Leads(w, w') && s.kind == SuiteKind && s in w.suites
    ensures s in w'.suites && Rounds(w, s) <= Rounds(w', s)
    ensures Rounds(w', s) == Rounds(w, s) ==>
              (SuiteIsRunning(w, s) ==> SuiteIsRunning(w', s)) && (Tracks(w, s) ==> SameRound(w, w', s))
  {
    var early, late := LogsOf(w, w');
    RoundsAlong(early, late, s);
  }

  // ----- a Test gets its verdict

  ghost predicate LiveTest(w: World, s: Key, r: Key, t: Key) {
    t.kind == TestKind && Live(w, t) && ChildOf(w, t, r) && ChildOf(w, r, s)
  }

  ghost predicate HasVerdict(w: World, t: Key) { t in w.tests && w.tests[t].phase.IsFinal() }

  /** The Test has its verdict, or its run is over. */
  ghost predicate TestOver(w: World, s: Key, r: Key, t: Key) { !OpenRun(w, s, r) || HasVerdict(w, t) }

  lemma RunBeforeThat(a: World, b: World, r: Key)
    requires WellFormed(a) && Advances(a, b) && r in a.birth && r.kind == RunKind && Live(b, r) && RunInProgress(b, r)
    ensures Live(a, r) && RunInProgress(a, r)
  {
    LiveEarlier(a, b, r);
    assert HasBody(a, r);
  }

  /** A live Test stays as long as its run is in progress. */
  lemma {:induction false} TestAlong(early: seq<Event>, late: seq<Event>, r: Key, t: Key)
    requires Legal(late) && early <= late && Legal(early) && r.kind == RunKind && t.kind == TestKind
    requires ChildOf(After(early), t, r) && Live(After(early), t) && r in After(early).birth
    requires Live(After(late), r) && RunInProgress(After(late), r) && t !in After(late).outside
    ensures Live(After(late), t)
  {
    if early != late {
      var before := late[..|late| - 1];
      assert early <= before;
      HistoryAdvances(early, before);
      HistoryAdvances(before, late);
      Reachable(before);
      RunBeforeThat(After(before), After(late), r);
      TestAlong(early, before, r, t);
      LastStep(late);
      assert HasBody(After(before), t);
      ChildStays(After(before), late[|late| - 1], After(late), t, r);
    }
  }

  lemma TestStays(w: World, w': World, s: Key, r: Key, t: Key)
    requires Leads(w, w') && LiveTest(w, s, r, t) && OpenRun(w', s, r) && t !in w'.outside
    ensures LiveTest(w', s, r, t)
  {
    LeadsOn(w, w');
    var early, late := LogsOf(w, w');
    TestAlong(early, late, r, t);
  }

  lemma PodStays(w: World, w': World, t: Key, p: Key)
    requires Leads(w, w') && LivePod(w, t, p) && Live(w', t) && TestInProgress(w', t) && p !in w'.outside
    ensures LivePod(w', t, p)
  {
    var early, late := LogsOf(w, w');
    PodAlong(early, late, t, p);
  }

  lemma InProgressIfNotOver(w: World, s: Key, r: Key, t: Key)
    requires Reached(w) && LiveTest(w, s, r, t) && !TestOver(w, s, r, t)
    ensures TestInProgress(w, t)
  {
    ReachedOwned(w);
    assert HasBody(w, t);
  }

  lemma GrowsOn(w: World, w': World)
    requires Leads(w, w')
    ensures Grows(w, w') && WellFormed(w) && OnePodPerTest(w)
  {
    LeadsOn(w, w');
    ReachedSlots(w);
  }

  /** After a pass over a Test it has a verdict or a live Pod. */
  lemma PodOrVerdict(w: World, w': World, t: Key)
    requires Grows(w, w') && t.kind == TestKind && TestControllers.Stepped(w, w', t) && Live(w', t)
    requires TestInProgress(w', t)
    ensures exists p :: LivePod(w', t, p)
  {
    var p :| TestControllers.Picked(w, w', t, p)
             && TestControllers.Follows(TestControllers.Started(w.tests[t].phase), w'.pods[p].phase, w'.tests[t].phase);
    assert Live(w', p);
    assert LivePod(w', t, p);
  }

  /** After a pass over a Test whose live Pod has finished it has its verdict. */
  lemma VerdictOfPod(w: World, w': World, t: Key, p: Key)
    requires WellFormed(w) && OnePodPerTest(w) && Grows(w, w')
    requires TestControllers.Stepped(w, w', t) && LivePod(w, t, p) && Finished(w, p)
    ensures HasVerdict(w', t)
  {
    var q :| TestControllers.Picked(w, w', t, q)
             && TestControllers.Follows(TestControllers.Started(w.tests[t].phase), w'.pods[q].phase, w'.tests[t].phase);
    assert Live(w, q) && ChildOf(w, q, t);
    assert Fits(p.kind, t.kind) && BothLivePods(w, p, q, t);
  }

  lemma PodSeen(w: World, w': World, t: Key)
    requires Leads(w, w') && t.kind == TestKind && TestControllers.Stepped(w, w', t) && Live(w', t)
    requires TestInProgress(w', t)
    ensures exists p :: LivePod(w', t, p)
  {
    GrowsOn(w, w');
    PodOrVerdict(w, w', t);
  }

  lemma VerdictSeen(w: World, w': World, t: Key, p: Key)
    requires Leads(w, w') && TestControllers.Stepped(w, w', t) && LivePod(w, t, p) && Finished(w, p)
    ensures HasVerdict(w', t)
  {
    GrowsOn(w, w');
    VerdictOfPod(w, w', t, p);
  }

  lemma ChildStill(w: World, w': World, k: Key, p: Key)
    requires Leads(w, w') && ChildOf(w, k, p)
    ensures ChildOf(w', k, p)
  {
    LeadsOn(w, w');
  }

  /** At a later time at which it has no verdict yet, the Test is still there. */
  lemma TestStillDue(c: Course, s: Key, r: Key, t: Key, n: nat, i: nat)
    requires Favourable(c, s) && n <= i && LiveTest(c(n), s, r, t) && !TestOver(c(i), s, r, t)
    ensures LiveTest(c(i), s, r, t) && TestInProgress(c(i), t)
  {
    GoesOn(c, s, n, i);
    ChildStill(c(n), c(i), t, r);
    NotDeleted(c, s, n, i, r, t);
    TestStays(c(n), c(i), s, r, t);
    LeadsOn(c(n), c(i));
    InProgressIfNotOver(c(i), s, r, t);
  }

  lemma PodStillDue(c: Course, s: Key, r: Key, t: Key, p: Key, n: nat, i: nat)
    requires Favourable(c, s) && n <= i && LivePod(c(n), t, p) && LiveTest(c(i), s, r, t) && !TestOver(c(i), s, r, t)
    requires TestInProgress(c(i), t)
    ensures LivePod(c(i), t, p)
  {
    GoesOn(c, s, n, i);
    ChildStill(c(n), c(i), p, t);
    NotDeleted(c, s, n, i, r, p);
    PodStays(c(n), c(i), t, p);
  }

  lemma StaysEnded(w: World, w': World, p: Key)
    requires Leads(w, w') && Ended(w, p) && p in w.birth && Live(w', p)
    ensures Finished(w', p)
  {
    LeadsOn(w, w');
    LiveEarlier(w, w', p);
  }

  lemma PodIsPod(w: World, w': World, t: Key, p: Key)
    requires Leads(w, w') && LivePod(w, t, p)
    ensures p.kind == PodKind
  {
    BothReached(w, w');
    ReachedOwned(w);
    assert Fits(p.kind, t.kind);
  }

  /** Once a Test has a live Pod, its verdict comes. */
  lemma PodEnds(c: Course, s: Key, r: Key, t: Key, p: Key, n: nat) returns (i: nat)
    requires Favourable(c, s) && LiveTest(c(n), s, r, t) && LivePod(c(n), t, p) && OpenRun(c(n), s, r)
    ensures n <= i && TestOver(c(i), s, r, t)
  {
    GoesOn(c, s, n, n);
    PodIsPod(c(n), c(n), t, p);
    var k := PodDue(c, s, n, r, t, p);
    i := WorkDue(c, s, k, t);
    if !TestOver(c(i), s, r, t) {
      TestStillDue(c, s, r, t, n, i);
      PodStillDue(c, s, r, t, p, n, i);
      GoesOn(c, s, n, k);
      ChildStill(c(n), c(k), p, t);
      GoesOn(c, s, k, i);
      StaysEnded(c(k), c(i), p);
      GoesOn(c, s, i, i + 1);
      VerdictSeen(c(i), c(i + 1), t, p);
      i := i + 1;
    }
  }

  /** Every live Test of a run in progress gets its verdict, unless the run is over before. */
  lemma TestFinishes(c: Course, s: Key, r: Key, t: Key, n: nat) returns (i: nat)
    requires Favourable(c, s) && LiveTest(c(n), s, r, t)
    ensures n <= i && TestOver(c(i), s, r, t)
  {
    i := WorkDue(c, s, n, t);
    if !TestOver(c(i), s, r, t) {
      TestStillDue(c, s, r, t, n, i);
      i := i + 1;
      if !TestOver(c(i), s, r, t) {
        TestStillDue(c, s, r, t, n, i);
        GoesOn(c, s, i - 1, i);
        PodSeen(c(i - 1), c(i), t);
        var p :| LivePod(c(i), t, p);
        i := PodEnds(c, s, r, t, p, i);
      }
    }
  }

  // ----- a run comes to its end

  lemma SameTemplates(w: World, w': World, r: Key)
    requires Leads(w, w') && r in w.runs
    ensures r in w'.runs && w'.runs[r].templates == w.runs[r].templates
  {
    LeadsOn(w, w');
  }

  lemma OwnerIsBorn(w: World, w': World, r: Key, q: nat)
    requires Leads(w, w') && SlotFilled(w, r, q)
    ensures r in w.birth
  {
    BothReached(w, w');
    ReachedOwned(w);
    var t :| LiveInSlot(w, r, t, q);
  }

  lemma WasOpenBefore(w: World, w': World, s: Key, r: Key)
    requires Leads(w, w') && OpenRun(w', s, r) && r in w.birth
    ensures OpenRun(w, s, r)
  {
    LeadsOn(w, w');
    RunBeforeThat(w, w', r);
  }

  /** An unfinished run with a gap was an unfinished run whenever the gap was there before. */
  lemma WasOpen(w: World, w': World, s: Key, r: Key, p: nat, q: nat)
    requires Leads(w, w') && OpenRun(w', s, r) && Short(w', r) && Gap(w, r, p, q)
    ensures OpenRun(w, s, r) && NamesBeyond(w, r)
  {
    OwnerIsBorn(w, w', r, q);
    WasOpenBefore(w, w', s, r);
    SameTemplates(w, w', r);
    assert HasGap(w, r);
    BeyondIsGap(w, w', r);
  }

  /** No pass over the run panics: without a user's deletion no gap comes up. */
  lemma NoOverrun(c: Course, s: Key, r: Key, i: nat)
    requires Favourable(c, s) && OpenRun(c(i), s, r)
    ensures Short(c(i), r) && !TestRunControllers.Overruns(c(i), r)
  {
    GoesOn(c, s, 0, i);
    IsShort(c, s, i, r);
    PanicsExactlyBeyond(c(i), c(i), r);
    GoesOn(c, s, i, i);
    BeyondIsGap(c(i), c(i), r);
    if HasGap(c(i), r) {
      var p: nat, q: nat :| Gap(c(i), r, p, q);
      NoneDeletedSince(c, s, i, r, p);
      if Gap(c(0), r, p, q) {
        WasOpen(c(0), c(i), s, r, p, q);
        NotStuck(c, s, r);
      } else {
        GapsAreMadeByUsers(c(0), c(i), r, p, q);
      }
    }
  }

  lemma ReadyIsOver(w: World, w': World, s: Key, r: Key)
    requires Leads(w, w') && Short(w, r) && EverySlotDone(w, r) && TestRunControllers.Tallied(w, w', r)
    ensures !OpenRun(w', s, r)
  {
    BothReached(w, w');
    ReachedSlots(w);
    var items :| TestRunControllers.TalliedBy(w, w', r, items);
    TallyIsDue(w, w', r, items);
  }

  lemma SameSlot(w: World, w': World, t: Key, p: nat)
    requires Leads(w, w') && Slot(w, t) == Some(p)
    ensures Slot(w', t) == Some(p)
  {
    LeadsOn(w, w');
  }

  lemma SlotStill(w: World, w': World, s: Key, r: Key, t: Key, p: nat)
    requires Leads(w, w') && LiveInSlot(w, r, t, p) && ChildOf(w, r, s) && OpenRun(w', s, r) && t !in w'.outside
    ensures LiveInSlot(w', r, t, p)
  {
    TestStays(w, w', s, r, t);
    SameSlot(w, w', t, p);
  }

  /** If the Tests of a full run all have a verdict later, every slot of the run is done. */
  lemma BecomesDone(w: World, w': World, s: Key, r: Key)
    requires Leads(w, w') && Short(w, r) && TestRunControllers.SlotsFilled(w, r) && ChildOf(w, r, s)
    requires OpenRun(w', s, r)
    requires forall t :: t in LiveTestsOf(w, r) ==> HasVerdict(w', t) && t !in w'.outside
    ensures EverySlotDone(w', r)
  {
    SameTemplates(w, w', r);
    forall p: nat | p < |w'.runs[r].templates| ensures SlotDone(w', r, p) {
      assert SlotFilled(w, r, p);
      var t :| LiveInSlot(w, r, t, p);
      assert t in LiveTestsOf(w, r);
      SlotStill(w, w', s, r, t, p);
    }
  }

  lemma VerdictStays(w: World, w': World, t: Key)
    requires Leads(w, w') && HasVerdict(w, t)
    ensures HasVerdict(w', t)
  {
    LeadsOn(w, w');
  }

  /** What is over for a Test stays so. */
  lemma StaysOver(w: World, w': World, s: Key, r: Key, t: Key)
    requires Leads(w, w') && ChildOf(w, r, s) && TestOver(w, s, r, t)
    ensures TestOver(w', s, r, t)
  {
    if HasVerdict(w, t) { VerdictStays(w, w', t); } else { StaysClosed(w, w', s, r); }
  }

  lemma StaysClosed(w: World, w': World, s: Key, r: Key)
    requires Leads(w, w') && ChildOf(w, r, s) && !OpenRun(w, s, r)
    ensures !OpenRun(w', s, r)
  {
    if OpenRun(w', s, r) { WasOpenBefore(w, w', s, r); }
  }

  /** The Tests of a run all get their verdicts, unless the run is over before. */
  lemma TestsFinish(c: Course, s: Key, r: Key, n: nat) returns (i: nat)
    requires Favourable(c, s) && ChildOf(c(n), r, s)
    ensures n <= i && forall t :: t in LiveTestsOf(c(n), r) ==> TestOver(c(i), s, r, t)
  {
    var ts := LiveTestsOf(c(n), r);
    var over := (j: nat, t: Key) => n <= j && TestOver(c(j), s, r, t);
    forall j: nat, k: nat, t | j <= k && t in ts && over(j, t) ensures over(k, t) {
      GoesOn(c, s, n, j);
      ChildStill(c(n), c(j), r, s);
      GoesOn(c, s, j, k);
      StaysOver(c(j), c(k), s, r, t);
    }
    forall t | t in ts ensures exists j: nat :: n <= j && over(j, t) {
      var j := TestFinishes(c, s, r, t, n);
      assert over(j, t);
    }
    i := EventuallyAll(over, n, ts);
    forall t | t in ts ensures TestOver(c(i), s, r, t) { assert over(i, t); }
  }

  lemma AllDoneBy(c: Course, s: Key, r: Key, n: nat, k: nat, i: nat)
    requires Favourable(c, s) && TestRunControllers.SlotsFilled(c(n), r) && ChildOf(c(n), r, s) && n <= k <= i
    requires OpenRun(c(i), s, r) && forall t :: t in LiveTestsOf(c(n), r) ==> TestOver(c(k), s, r, t)
    ensures EverySlotDone(c(i), r)
  {
    GoesOn(c, s, n, i);
    if !OpenRun(c(n), s, r) { StaysClosed(c(n), c(i), s, r); }
    IsShort(c, s, n, r);
    GoesOn(c, s, n, k);
    ChildStill(c(n), c(k), r, s);
    forall t | t in LiveTestsOf(c(n), r) ensures HasVerdict(c(i), t) && t !in c(i).outside {
      DoneBy(c, s, r, t, n, k, i);
    }
    BecomesDone(c(n), c(i), s, r);
  }

  lemma DoneBy(c: Course, s: Key, r: Key, t: Key, n: nat, k: nat, i: nat)
    requires Favourable(c, s) && n <= k <= i && ChildOf(c(n), t, r) && Live(c(n), t) && ChildOf(c(k), r, s)
    requires OpenRun(c(i), s, r) && TestOver(c(k), s, r, t)
    ensures HasVerdict(c(i), t) && t !in c(i).outside
  {
    GoesOn(c, s, k, i);
    StaysOver(c(k), c(i), s, r, t);
    GoesOn(c, s, n, i);
    ChildStill(c(n), c(i), t, r);
    NotDeleted(c, s, n, i, r, t);
  }

  lemma FullRunFinishes(c: Course, s: Key, r: Key, n: nat) returns (i: nat)
    requires Favourable(c, s) && TestRunControllers.SlotsFilled(c(n), r) && ChildOf(c(n), r, s)
    ensures n <= i && !OpenRun(c(i), s, r)
  {
    var k := TestsFinish(c, s, r, n);
    i := WorkDue(c, s, k, r);
    if OpenRun(c(i), s, r) {
      NoOverrun(c, s, r, i);
      AllDoneBy(c, s, r, n, k, i);
      GoesOn(c, s, i, i + 1);
      ReadyIsOver(c(i), c(i + 1), s, r);
      i := i + 1;
    }
  }

  /** Every run of the suite comes to its end. */
  lemma RunFinishes(c: Course, s: Key, r: Key, n: nat) returns (i: nat)
    requires Favourable(c, s) && ChildOf(c(n), r, s)
    ensures n <= i && !OpenRun(c(i), s, r)
  {
    var j := WorkDue(c, s, n, r);
    i := j;
    if OpenRun(c(j), s, r) {
      NoOverrun(c, s, r, j);
      GoesOn(c, s, j, j + 1);
      ChildStill(c(j), c(j + 1), r, s);
      i := FullRunFinishes(c, s, r, j + 1);
    }
  }

  // ----- the suite completes the run

  lemma IsLiveSuite(c: Course, s: Key, i: nat)
    requires Favourable(c, s) && s in c(i).suites
    ensures Live(c(i), s)
  {
    GoesOn(c, s, i, i);
    LeadsOn(c(i), c(i));
    ReachedSuites(c(i));
    SuiteIsKept(c, s, i);
    assert HasBody(c(i), s);
  }

  lemma CurrentIsLive(c: Course, s: Key, i: nat) returns (r: Key)
    requires Favourable(c, s) && Tracks(c(i), s)
    ensures c(i).suites[s].status.current == Some(r) && r.kind == RunKind && ChildOf(c(i), r, s) && Live(c(i), r)
  {
    r := c(i).suites[s].status.current.value;
    GoesOn(c, s, i, i);
    LeadsOn(c(i), c(i));
    CurrentRunIsLive(c(i), s, r);
    SuiteIsKept(c, s, i);
    assert IsCurrent(c(i), s, r);
  }

  /** A pass over a suite whose current run is final completes it. */
  lemma PassCompletes(w: World, w': World, s: Key, r: Key)
    requires Live(w, s) && s.kind == SuiteKind && Tracks(w, s) && w.suites[s].account.awaiting == None
    requires Worked(w, w', s)
    requires w.suites[s].status.current == Some(r) && r.kind == RunKind && ChildOf(w, r, s) && Live(w, r)
    requires !OpenRun(w, s, r)
    ensures Rounds(w', s) > Rounds(w, s)
  {
  }

  /** A pass over a suite that needs a run makes it track one. */
  lemma PassStarts(w: World, w': World, s: Key)
    requires Live(w, s) && s.kind == SuiteKind && SuiteNeedsRun(w, s) && w.suites[s].account.awaiting == None
    requires Worked(w, w', s)
    ensures Tracks(w', s)
  {
    var out :| Pass(w, w', s, out);
    var y :| OnlySchedule(w.suites[s], y) && PassFrom(y, w, w', s, out, false);
    StartsRun(y, w, w', s, out);
  }

  lemma StartsRun(y: Suite, w: World, w': World, s: Key, out: Ending)
    requires s in w.suites && SuiteNeedsRun(w, s) && OnlySchedule(w.suites[s], y) && PassFrom(y, w, w', s, out, false)
    ensures Tracks(w', s)
  {
    assert RunFollowed(y, w, w', s, out);
  }

  /** While no run completes, the suite goes on tracking one of the runs it had. */
  lemma StillTracks(c: Course, s: Key, n: nat, i: nat)
    requires Favourable(c, s) && n <= i && Tracks(c(n), s) && Rounds(c(i), s) <= Rounds(c(n), s)
    ensures SameRound(c(n), c(i), s)
  {
    GoesOn(c, s, n, i);
    RoundsLater(c(n), c(i), s);
  }

  lemma AllRunsFinish(c: Course, s: Key, n: nat) returns (i: nat)
    requires Favourable(c, s)
    ensures n <= i && forall r :: r in ChildrenOf(c(n), s) ==> !OpenRun(c(i), s, r)
  {
    var rs := ChildrenOf(c(n), s);
    var over := (j: nat, r: Key) => n <= j && !OpenRun(c(j), s, r);
    forall j: nat, k: nat, r | j <= k && r in rs && over(j, r) ensures over(k, r) {
      GoesOn(c, s, n, j);
      ChildStill(c(n), c(j), r, s);
      GoesOn(c, s, j, k);
      StaysClosed(c(j), c(k), s, r);
    }
    forall r | r in rs ensures exists j: nat :: n <= j && over(j, r) {
      var j := RunFinishes(c, s, r, n);
      assert over(j, r);
    }
    i := EventuallyAll(over, n, rs);
    forall r | r in rs ensures !OpenRun(c(i), s, r) { assert over(i, r); }
  }

  lemma SuiteWorked(c: Course, s: Key, r: Key, n: nat, m: nat)
    requires Favourable(c, s) && n <= m && WorkedAt(c, m, s) && s in c(n).suites && Tracks(c(m), s)
    requires c(m).suites[s].status.current == Some(r) && r.kind == RunKind && ChildOf(c(m), r, s) && Live(c(m), r)
    requires !OpenRun(c(m), s, r)
    ensures Rounds(c(m + 1), s) > Rounds(c(n), s)
  {
    GoesOn(c, s, n, m);
    RoundsLater(c(n), c(m), s);
    IsLiveSuite(c, s, m);
    IsSettled(c, s, m);
    PassCompletes(c(m), c(m + 1), s, r);
  }

  /** Once the suite tracks a run, a run of it completes. */
  lemma TrackedCompletes(c: Course, s: Key, n: nat) returns (m: nat)
    requires Favourable(c, s) && Tracks(c(n), s)
    ensures n <= m && Rounds(c(m), s) > Rounds(c(n), s)
  {
    var i := AllRunsFinish(c, s, n);
    m := WorkDue(c, s, i, s);
    if Rounds(c(m), s) <= Rounds(c(n), s) {
      StillTracks(c, s, n, m);
      var r := CurrentIsLive(c, s, m);
      assert r in ChildrenOf(c(n), s);
      GoesOn(c, s, n, i);
      ChildStill(c(n), c(i), r, s);
      GoesOn(c, s, i, m);
      StaysClosed(c(i), c(m), s, r);
      SuiteWorked(c, s, r, n, m);
      m := m + 1;
    }
  }

  /** A suite that has been triggered goes on until one of its runs has completed. */
  lemma Completes(c: Course, s: Key, n: nat) returns (m: nat)
    requires Favourable(c, s) && SuiteIsRunning(c(n), s)
    ensures n <= m && Rounds(c(m), s) > Rounds(c(n), s)
  {
    m := WorkDue(c, s, n, s);
    GoesOn(c, s, n, m);
    RoundsLater(c(n), c(m), s);
    if Rounds(c(m), s) == Rounds(c(n), s) {
      var j := m;
      if !Tracks(c(m), s) {
        IsLiveSuite(c, s, m);
        IsSettled(c, s, m);
        PassStarts(c(m), c(m + 1), s);
        GoesOn(c, s, m, m + 1);
        RoundsLater(c(m), c(m + 1), s);
        j := m + 1;
      }
      m := TrackedCompletes(c, s, j);
    }
  }
}
