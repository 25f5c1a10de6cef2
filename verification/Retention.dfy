/**
 Retention: policies are handed down from a suite's template to its runs and from a run to its Tests, and decide what
 stays of the children of a Test or run that has its verdict.
 */
module Retention {
  import opened Prelude
  import opened Store
  import opened Effects
  import opened Invariants
  import opened Verdicts
  import opened Conclusions
  import opened Histories
  import opened Clusters
  import opened Helpers
  import TestControllers
  import TestRunControllers

  // ----- policies are handed down

  ghost predicate HandedDown(w: World, t: Key, r: Key) {
    ChildOf(w, t, r) && t.kind == TestKind ==>
      t in w.tests && r in w.runs && w.tests[t].retention == w.runs[r].retention
  }

  lemma HandedDownKept(w: World, e: Event, w': World, t: Key, r: Key)
    requires WellFormed(w) && SlotsValid(w) && Steps(w, e, w') && HandedDown(w, t, r)
    ensures HandedDown(w', t, r)
  {
    EventGrows(w, e, w');
    if ChildOf(w', t, r) && t.kind == TestKind && t !in w.birth {
      NewTestSlot(w, e, w', t, r);
      RunStep(w, e, w');
    }
  }

  lemma {:induction false} HandedDownAlong(log: seq<Event>, t: Key, r: Key)
    requires Legal(log)
    ensures HandedDown(After(log), t, r)
  {
    if log != [] {
      var before := log[..|log| - 1];
      HandedDownAlong(before, t, r);
      Reachable(before);
      LastStep(log);
      HandedDownKept(After(before), log[|log| - 1], After(log), t, r);
    }
  }

  /** Every Test of a run has the policy of the run. */
  lemma TestHasPolicyOfRun(w: World, t: Key, r: Key)
    requires Reached(w) && ChildOf(w, t, r) && t.kind == TestKind
    ensures t in w.tests && r in w.runs && w.tests[t].retention == w.runs[r].retention
  {
    var log := LogOf(w);
    HandedDownAlong(log, t, r);
  }

  /** The run is new, and has the templates and the policy that the suite asks for. */
  ghost predicate MadeFromTemplate(w: World, w': World, r: Key, s: Key) {
    && r !in w.birth && s in w.suites && r in w'.runs
    && w'.runs[r].templates == w.suites[s].spec.templates && w'.runs[r].retention == w.suites[s].spec.retention
  }

  lemma RunAtBirth(w: World, e: Event, w': World, r: Key, s: Key)
    requires Steps(w, e, w') && r.kind == RunKind
    requires EffectOf(e).Creates? && EffectOf(e).k == r && EffectOf(e).owner == Some(s)
    ensures e == OfSuite(CreateRun(r, s))
  {
    match e
    case OfTest(_) => TestStep(w, e, w');
    case OfRun(_) => RunStep(w, e, w');
    case _ =>
  }

  lemma FromTemplate(w: World, r: Key, s: Key)
    requires GuardSuite(w, CreateRun(r, s))
    ensures MadeFromTemplate(w, ApplySuite(w, CreateRun(r, s)), r, s)
  {
  }

  lemma NewRunFollows(w: World, e: Event, w': World, r: Key, s: Key)
    requires WellFormed(w) && Steps(w, e, w') && r.kind == RunKind && r !in w.birth && ChildOf(w', r, s)
    ensures MadeFromTemplate(w, w', r, s)
  {
    EventDoes(w, e, w');
    RunAtBirth(w, e, w', r, s);
    SuiteStep(w, e, w');
    FromTemplate(w, r, s);
  }

  lemma StillFromTemplate(w0: World, w: World, w': World, r: Key, s: Key)
    requires MadeFromTemplate(w0, w, r, s) && Grows(w, w')
    ensures MadeFromTemplate(w0, w', r, s)
  {
  }

  /** The run of the suite was made from its template when the log had `n` events. */
  ghost predicate MadeAt(log: seq<Event>, n: nat, r: Key, s: Key) {
    && n < |log| && Legal(log) && Legal(log[..n])
    && MadeFromTemplate(After(log[..n]), After(log), r, s)
  }

  lemma MadeLast(log: seq<Event>, r: Key, s: Key)
    requires Legal(log) && log != [] && r.kind == RunKind && ChildOf(After(log), r, s)
    requires Legal(log[..|log| - 1]) && r !in After(log[..|log| - 1]).birth
    ensures MadeAt(log, |log| - 1, r, s)
  {
    LastStep(log);
    Reachable(log[..|log| - 1]);
    NewRunFollows(After(log[..|log| - 1]), log[|log| - 1], After(log), r, s);
  }

  lemma LastGrows(log: seq<Event>)
    requires Legal(log) && log != []
    ensures Legal(log[..|log| - 1]) && Grows(After(log[..|log| - 1]), After(log))
  {
    LastStep(log);
    Reachable(log[..|log| - 1]);
    EventGrows(After(log[..|log| - 1]), log[|log| - 1], After(log));
  }

  lemma MadeBefore(log: seq<Event>, n: nat, r: Key, s: Key)
    requires Legal(log) && log != [] && MadeAt(log[..|log| - 1], n, r, s)
    ensures MadeAt(log, n, r, s)
  {
    LastGrows(log);
    assert log[..|log| - 1][..n] == log[..n];
    StillFromTemplate(After(log[..n]), After(log[..|log| - 1]), After(log), r, s);
  }

  lemma {:induction false} MadeSometime(log: seq<Event>, r: Key, s: Key) returns (n: nat)
    requires Legal(log) && r.kind == RunKind && ChildOf(After(log), r, s)
    ensures MadeAt(log, n, r, s)
  {
    LastGrows(log);
    if r in After(log[..|log| - 1]).birth {
      n := MadeSometime(log[..|log| - 1], r, s);
      MadeBefore(log, n, r, s);
    } else {
      n := |log| - 1;
      MadeLast(log, r, s);
    }
  }

  /** Every run of a suite has the templates and the policy that the suite asked for when the run was created. */
  lemma RunFollowsTemplate(log: seq<Event>, r: Key, s: Key) returns (n: nat)
    requires Legal(log) && r.kind == RunKind && ChildOf(After(log), r, s)
    ensures n < |log| && Legal(log[..n]) && r !in After(log[..n]).birth && s in After(log[..n]).suites
    ensures r in After(log).runs
    ensures After(log).runs[r].templates == After(log[..n]).suites[s].spec.templates
    ensures After(log).runs[r].retention == After(log[..n]).suites[s].spec.retention
  {
    n := MadeSometime(log, r, s);
  }

  // ----- what stays

  ghost predicate IsFinal(w: World, p: Key) {
    || (p.kind == RunKind && p in w.runs && w.runs[p].phase.IsFinal())
    || (p.kind == TestKind && p in w.tests && w.tests[p].phase.IsFinal())
  }

  lemma NoReasonUnderFinal(w: World, c: Key, p: Key)
    requires WellBorn(w) && ChildOf(w, c, p) && Live(w, p) && IsFinal(w, p) && !Purges(w, p)
    ensures !MayDelete(w, c)
  {
    assert Fits(c.kind, p.kind);
    forall q | ChildOf(w, c, q) ensures !ReasonToDelete(w, c, q) {
      assert q == p;
    }
  }

  lemma FinalGrows(w: World, w': World, p: Key)
    requires Grows(w, w') && IsFinal(w, p)
    ensures IsFinal(w', p) && (Purges(w', p) <==> Purges(w, p))
  {
  }

  lemma {:induction false} ChildrenAlong(early: seq<Event>, late: seq<Event>, c: Key, p: Key)
    requires Legal(late) && early <= late && Legal(early) && ChildOf(After(early), c, p) && Live(After(early), c)
    requires IsFinal(After(early), p) && !Purges(After(early), p)
    requires Live(After(late), p) && c !in After(late).outside
    ensures Live(After(late), c)
  {
    if early != late {
      var before := late[..|late| - 1];
      assert early <= before;
      HistoryAdvances(before, late);
      HistoryAdvances(early, before);
      Reachable(before);
      Reachable(early);
      var w := After(before);
      assert p in w.birth;
      LiveEarlier(w, After(late), p);
      ChildrenAlong(early, before, c, p);
      FinalGrows(After(early), w, p);
      NoReasonUnderFinal(w, c, p);
      LastStep(late);
      LivesOn(w, late[|late| - 1], After(late), c);
    }
  }

  /** The owner is final, and its policy keeps its children: always, or on failure, and it has failed. */
  ghost predicate Keeps(w: World, p: Key) {
    || (p.kind == RunKind && p in w.runs
        && var x := w.runs[p];
           || (x.retention == Always && x.phase in {RunPassed, RunFailed})
           || (x.retention == OnFailure && x.phase == RunFailed))
    || (p.kind == TestKind && p in w.tests
        && var x := w.tests[p];
           || (x.retention == Always && x.phase in {TestPassed, TestFailed})
           || (x.retention == OnFailure && x.phase == TestFailed))
  }

  /** Under a live owner whose policy keeps its children, a child stays unless a user deletes it. */
  lemma ChildrenRetained(w: World, w': World, c: Key, p: Key)
    requires Leads(w, w') && ChildOf(w, c, p) && Live(w, c) && Keeps(w, p) && Live(w', p) && c !in w'.outside
    ensures Live(w', c)
  {
    assert IsFinal(w, p) && !Purges(w, p);
    var early, late := LogsOf(w, w');
    ChildrenAlong(early, late, c, p);
  }

  /** The owner is final, and its policy removes its children: always, or after success, and it has passed. */
  ghost predicate Drops(w: World, p: Key) {
    || (p.kind == RunKind && p in w.runs
        && var x := w.runs[p];
           || (x.retention == Never && x.phase in {RunPassed, RunFailed})
           || (x.retention == OnFailure && x.phase == RunPassed))
    || (p.kind == TestKind && p in w.tests
        && var x := w.tests[p];
           || (x.retention == Never && x.phase in {TestPassed, TestFailed})
           || (x.retention == OnFailure && x.phase == TestPassed))
  }

  /** The children of an owner that drops them are swept, and those of the others are as they were. */
  ghost predicate Applied(w: World, w': World, p: Key) {
    forall c :: Live(w, c) && ChildOf(w, c, p) ==>
      if Drops(w, p) then Swept(w, w', c, OwnersFinalizer(c.kind)) else c in w'.meta && w'.meta[c] == w.meta[c]
  }

  lemma AppliedToRun(w: World, w': World, r: Key)
    requires WellBorn(w) && r.kind == RunKind && (Keeps(w, r) || Drops(w, r))
    requires TestRunControllers.TestsRetained(w, w', r)
    ensures Applied(w, w', r)
  {
    forall c | ChildOf(w, c, r) ensures c.kind == TestKind { assert Fits(c.kind, r.kind); }
  }

  lemma AppliedToTest(w: World, w': World, t: Key)
    requires WellBorn(w) && t.kind == TestKind && (Keeps(w, t) || Drops(w, t))
    requires TestControllers.PodsRetained(w, w', t)
    ensures Applied(w, w', t)
  {
    forall c | ChildOf(w, c, t) ensures c.kind == PodKind { assert Fits(c.kind, t.kind); }
  }

  method PassOverRun(api: Cluster, r: Key)
    requires api.Valid() && api.reliable && r.kind == RunKind && Live(api.w, r)
    requires Keeps(api.w, r) || Drops(api.w, r)
    modifies api
    ensures api.Valid() && old(api.log) <= api.log && Applied(old(api.w), api.w, r)
  {
    assert WellBorn(api.w) by { api.IsReachable(); }
    var reconciler := new TestRunControllers.TestRunReconciler(api);
    assert !RunInProgress(api.w, r) && !Deleting(api.w, r);
    var out := reconciler.Reconcile(r);
    AppliedToRun(old(api.w), api.w, r);
  }

  method PassOverTest(api: Cluster, t: Key)
    requires api.Valid() && api.reliable && t.kind == TestKind && Live(api.w, t)
    requires Keeps(api.w, t) || Drops(api.w, t)
    modifies api
    ensures api.Valid() && old(api.log) <= api.log && Applied(old(api.w), api.w, t)
  {
    assert WellBorn(api.w) by { api.IsReachable(); }
    var reconciler := new TestControllers.TestReconciler(api);
    assert !TestInProgress(api.w, t);
    var ok := reconciler.Reconcile(t);
    AppliedToTest(old(api.w), api.w, t);
  }

  /** One failure-free pass over such an owner sweeps its live children, and over one that keeps them, leaves them. */
  method ApplyOnce(api: Cluster, p: Key)
    requires api.Valid() && api.reliable && Live(api.w, p) && (Keeps(api.w, p) || Drops(api.w, p))
    modifies api
    ensures api.Valid() && old(api.log) <= api.log && Applied(old(api.w), api.w, p)
  {
    if p.kind == RunKind { PassOverRun(api, p); } else { PassOverTest(api, p); }
  }
}
