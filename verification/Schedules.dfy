/**
 NextRun over whole histories: that it does not go back, when it belongs to the active schedule, and how often one
 scheduled time triggers a run. A scheduled trigger leaves NextRun where it is, so the same time may trigger again; what
 decides is whether the run that it started completes within the ten seconds of grace.
 */
module Schedules {
  import opened Prelude
  import opened Store
  import opened Invariants
  import opened Effects
  import opened SuiteStates
  import opened Histories
  import opened Triggers

  // ----- NextRun never goes back

  /** The suite follows this schedule, which parses. */
  predicate Follows(x: Suite, c: Schedule) { c.Cron? && c.parses && x.spec.schedule == c && x.activeSchedule == c }

  predicate NotBefore(x: Suite, x': Suite) {
    x.status.nextRun.Some? ==> x'.status.nextRun.Some? && x.status.nextRun.value <= x'.status.nextRun.value
  }

  lemma WriteMovesOn(w: World, e: SuiteWrite, c: Schedule)
    requires GuardSuite(w, e) && e.s in w.suites && Follows(w.suites[e.s], c)
    ensures NotBefore(w.suites[e.s], NextSuite(w.suites[e.s], e))
  {
  }

  lemma EventMovesOn(w: World, e: Event, w': World, s: Key, c: Schedule)
    requires WellFormed(w) && Steps(w, e, w') && s in w.suites && Follows(w.suites[s], c)
    ensures s in w'.suites && NotBefore(w.suites[s], w'.suites[s])
  {
    SuitesRemain(w, e, w', s);
    if e.OfSuite? {
      SuiteWritten(w, e, w');
      if e.s.s == s { WriteMovesOn(w, e.s, c); }
    } else {
      OthersKeepStatus(w, e, w');
    }
  }

  lemma LastMovesOn(log: seq<Event>, s: Key, c: Schedule)
    requires Legal(log) && log != [] && Legal(log[..|log| - 1])
    requires s in After(log[..|log| - 1]).suites && Follows(After(log[..|log| - 1]).suites[s], c)
    ensures s in After(log).suites && NotBefore(After(log[..|log| - 1]).suites[s], After(log).suites[s])
  {
    Reachable(log[..|log| - 1]);
    LastStep(log);
    EventMovesOn(After(log[..|log| - 1]), log[|log| - 1], After(log), s, c);
  }

  ghost predicate FollowsAt(log: seq<Event>, n: nat, s: Key, c: Schedule)
    requires n <= |log|
  {
    Legal(log[..n]) && s in After(log[..n]).suites && Follows(After(log[..n]).suites[s], c)
  }

  /** While a suite follows one schedule, NextRun never goes back, and once known it is never lost. */
  lemma {:induction false} NextRunMovesOn(log: seq<Event>, n: nat, m: nat, s: Key, c: Schedule)
    requires Legal(log) && n <= m <= |log| && FollowsAt(log, n, s, c) && FollowsAt(log, m, s, c)
    requires forall k :: n <= k <= m ==> FollowsAt(log, k, s, c)
    ensures NotBefore(After(log[..n]).suites[s], After(log[..m]).suites[s])
    decreases m - n
  {
    if n < m {
      assert FollowsAt(log, m - 1, s, c);
      NextRunMovesOn(log, n, m - 1, s, c);
      assert log[..m][..m - 1] == log[..m - 1];
      LastMovesOn(log[..m], s, c);
    }
  }

  // ----- NextRun and a change of schedule

  predicate SetsNextRun(e: Event, s: Key) { e.OfSuite? && e.s.s == s && (e.s.ScheduleNext? || e.s.SkipMissed?) }

  /** The schedule from which NextRun was last computed. */
  ghost function ComputedFrom(log: seq<Event>, s: Key): Schedule
    requires Legal(log)
  {
    if log == [] then NoSchedule
    else
      var before := log[..|log| - 1];
      if SetsNextRun(log[|log| - 1], s) && s in After(before).suites then After(before).suites[s].spec.schedule
      else ComputedFrom(before, s)
  }

  ghost predicate UpToDate(log: seq<Event>, s: Key)
    requires Legal(log)
  {
    s in After(log).suites && After(log).suites[s].status.nextRun.Some? ==>
      ComputedFrom(log, s) == After(log).suites[s].activeSchedule
  }

  /** Every change of the active schedule finds NextRun cleared. */
  ghost predicate ClearedFirst(log: seq<Event>, s: Key) {
    forall n :: 0 <= n < |log| && log[n] == OfSuite(Annotate(s)) ==> ClearedAt(log, n, s)
  }

  ghost predicate ClearedAt(log: seq<Event>, n: nat, s: Key)
    requires n <= |log|
  {
    Legal(log[..n]) && s in After(log[..n]).suites ==>
      var x := After(log[..n]).suites[s];
      x.spec.schedule == x.activeSchedule || x.status.nextRun == None
  }

  lemma ScheduleStep(w: World, e: SuiteWrite)
    requires GuardSuite(w, e) && e.s in w.suites
    ensures var x, x' := w.suites[e.s], NextSuite(w.suites[e.s], e);
            && (SetsNextRun(OfSuite(e), e.s) ==> x'.activeSchedule == x.spec.schedule)
            && (!SetsNextRun(OfSuite(e), e.s) && !e.Annotate? ==>
                  && x'.activeSchedule == x.activeSchedule
                  && (x'.status.nextRun.Some? ==> x'.status.nextRun == x.status.nextRun))
            && (e.Annotate? ==> x'.activeSchedule == x.spec.schedule && x'.status.nextRun == x.status.nextRun)
  {
  }

  ghost predicate ScheduleKept(w: World, w': World, s: Key) {
    s in w'.suites && w'.suites[s].status.nextRun.Some? ==>
      && s in w.suites && w'.suites[s].status.nextRun == w.suites[s].status.nextRun
      && w'.suites[s].activeSchedule == w.suites[s].activeSchedule
  }

  lemma OutsideKeepsSchedule(w: World, o: Outside, s: Key)
    requires GuardOutside(w, o)
    ensures ScheduleKept(w, ApplyOutside(w, o), s)
  {
  }

  lemma OthersKeepSchedule(w: World, e: Event, w': World, s: Key)
    requires Steps(w, e, w') && !(e.OfSuite? && e.s.s == s)
    ensures ScheduleKept(w, w', s)
  {
    match e
    case Env(o) =>
      EnvStep(w, e, w');
      OutsideKeepsSchedule(w, o, s);
    case OfSuite(_) => SuiteWritten(w, e, w');
    case _ => OthersKeepSuites(w, e, w');
  }

  /** As long as every change of schedule finds NextRun cleared, NextRun belongs to the active schedule. */
  lemma {:induction false} NextRunUpToDate(log: seq<Event>, s: Key)
    requires Legal(log) && ClearedFirst(log, s)
    ensures UpToDate(log, s)
  {
    if log != [] {
      var n := |log| - 1;
      var before, e := log[..n], log[n];
      forall k | 0 <= k < n && before[k] == OfSuite(Annotate(s)) ensures ClearedAt(before, k, s) {
        assert before[..k] == log[..k] && log[k] == before[k] && ClearedAt(log, k, s);
      }
      NextRunUpToDate(before, s);
      LastStep(log);
      if e == OfSuite(Annotate(s)) {
        assert ClearedAt(log, n, s);
        AnnotationUpToDate(log, s);
      } else {
        OtherEventsKeepUpToDate(log, s);
      }
    }
  }

  lemma OtherEventsKeepUpToDate(log: seq<Event>, s: Key)
    requires Legal(log) && log != [] && log[|log| - 1] != OfSuite(Annotate(s)) && UpToDate(log[..|log| - 1], s)
    ensures UpToDate(log, s)
  {
    var before, e := log[..|log| - 1], log[|log| - 1];
    LastStep(log);
    if e.OfSuite? && e.s.s == s {
      SuiteWritten(After(before), e, After(log));
      ScheduleStep(After(before), e.s);
    } else {
      OthersKeepSchedule(After(before), e, After(log), s);
    }
  }

  /** A NextRun that was up to date is so after the schedule is recorded if and only if a change found it cleared. */
  lemma AnnotationUpToDate(log: seq<Event>, s: Key)
    requires Legal(log) && log != [] && log[|log| - 1] == OfSuite(Annotate(s)) && UpToDate(log[..|log| - 1], s)
    ensures UpToDate(log, s) <==> ClearedAt(log, |log| - 1, s)
  {
    var before, e := log[..|log| - 1], log[|log| - 1];
    LastStep(log);
    SuiteWritten(After(before), e, After(log));
    ScheduleStep(After(before), e.s);
  }

  ghost predicate UpToDateAt(log: seq<Event>, n: nat, s: Key)
    requires n <= |log|
  {
    Legal(log[..n]) ==> UpToDate(log[..n], s)
  }

  /** NextRun belongs to the active schedule throughout a history if and only if every change finds it cleared. */
  lemma UpToDateThroughout(log: seq<Event>, s: Key)
    requires Legal(log)
    ensures (forall n :: 0 <= n <= |log| ==> UpToDateAt(log, n, s)) <==> ClearedFirst(log, s)
  {
    if ClearedFirst(log, s) {
      forall n | 0 <= n <= |log| ensures UpToDateAt(log, n, s) {
        PrefixIsLegal(log, n);
        forall k | 0 <= k < n && log[..n][k] == OfSuite(Annotate(s)) ensures ClearedAt(log[..n], k, s) {
          assert log[..n][..k] == log[..k] && ClearedAt(log, k, s);
        }
        NextRunUpToDate(log[..n], s);
      }
    }
    if forall n :: 0 <= n <= |log| ==> UpToDateAt(log, n, s) {
      forall n | 0 <= n < |log| && log[n] == OfSuite(Annotate(s)) ensures ClearedAt(log, n, s) {
        PrefixIsLegal(log, n + 1);
        PrefixIsLegal(log, n);
        assert UpToDateAt(log, n, s) && UpToDateAt(log, n + 1, s);
        assert log[..n + 1][..n] == log[..n];
        AnnotationUpToDate(log[..n + 1], s);
        assert ClearedAt(log[..n + 1], n, s);
      }
    }
  }

  // ----- how often one scheduled time triggers a run

  /** The `n`th event of the log is a trigger by the schedule, for the scheduled time `v`. */
  ghost predicate FiresAt(log: seq<Event>, n: nat, s: Key, v: nat) {
    && n < |log| && log[n] == OfSuite(Trigger(s, Reason.Scheduled)) && Legal(log[..n])
    && s in After(log[..n]).suites && After(log[..n]).suites[s].status.nextRun == Some(v)
  }

  predicate Edits(e: Event, s: Key) { e.Env? && e.o.UserEdit? && e.o.k == s }

  /** From the `i`th event on, no user edits the suite. */
  ghost predicate Unedited(log: seq<Event>, i: nat, s: Key) { forall n :: i <= n < |log| ==> !Edits(log[n], s) }

  // ----- what lies between two triggers for one time

  lemma Splits(log: seq<Event>, n: nat)
    requires Legal(log) && n < |log|
    ensures Legal(log[..n]) && Legal(log[..n + 1]) && Steps(After(log[..n]), log[n], After(log[..n + 1]))
  {
    PrefixIsLegal(log, n);
    PrefixIsLegal(log, n + 1);
    LastStep(log[..n + 1]);
    assert log[..n + 1][..n] == log[..n];
  }

  /** A suite stops running only when its run completes. */
  lemma RunningOn(w: World, e: Event, w': World, s: Key)
    requires WellFormed(w) && Steps(w, e, w') && SuiteIsRunning(w, s) && e != OfSuite(Complete(s))
    ensures SuiteIsRunning(w', s)
  {
    SuitesRemain(w, e, w', s);
    if e.OfSuite? { SuiteWritten(w, e, w'); } else { OthersKeepStatus(w, e, w'); }
  }

  lemma {:induction false} CompletedBetween(log: seq<Event>, i: nat, j: nat, s: Key) returns (m: nat)
    requires Legal(log) && i <= j <= |log| && Legal(log[..i]) && Legal(log[..j])
    requires SuiteIsRunning(After(log[..i]), s) && !SuiteIsRunning(After(log[..j]), s)
    ensures i <= m < j && log[m] == OfSuite(Complete(s))
    decreases j - i
  {
    if i == j {
      m := i;
    } else if log[i] == OfSuite(Complete(s)) {
      m := i;
    } else {
      Splits(log, i);
      Reachable(log[..i]);
      RunningOn(After(log[..i]), log[i], After(log[..i + 1]), s);
      m := CompletedBetween(log, i + 1, j, s);
    }
  }

  /** A trigger by the schedule falls into the ten seconds after its time, and the suite runs from then on. */
  lemma FiresInTime(log: seq<Event>, n: nat, s: Key, v: nat)
    requires Legal(log) && FiresAt(log, n, s, v)
    ensures v <= After(log[..n]).now <= v + GRACE && !SuiteIsRunning(After(log[..n]), s)
    ensures Legal(log[..n + 1]) && SuiteIsRunning(After(log[..n + 1]), s)
    ensures var x := After(log[..n]).suites[s]; Follows(x, x.spec.schedule)
  {
    Splits(log, n);
    SuiteWritten(After(log[..n]), log[n], After(log[..n + 1]));
  }

  lemma FiresWithinTenSeconds(log: seq<Event>, n: nat, s: Key, v: nat)
    requires Legal(log) && FiresAt(log, n, s, v)
    ensures v <= After(log[..n]).now <= v + 10_000_000_000
  {
    FiresInTime(log, n, s, v);
  }

  lemma ClockAdvances(log: seq<Event>, i: nat, j: nat)
    requires Legal(log) && i <= j <= |log|
    ensures Legal(log[..i]) && Legal(log[..j]) && After(log[..i]).now <= After(log[..j]).now
  {
    PrefixIsLegal(log, j);
    assert log[..i] <= log[..j];
    HistoryAdvances(log[..i], log[..j]);
  }

  /** Between two triggers for the same scheduled time a run of the suite completes, within the grace of that time. */
  lemma TwoFirings(log: seq<Event>, i: nat, j: nat, s: Key, v: nat) returns (m: nat)
    requires Legal(log) && i < j && FiresAt(log, i, s, v) && FiresAt(log, j, s, v)
    ensures i < m < j && log[m] == OfSuite(Complete(s)) && Legal(log[..m]) && v <= After(log[..m]).now <= v + GRACE
  {
    FiresInTime(log, i, s, v);
    FiresInTime(log, j, s, v);
    m := CompletedBetween(log, i + 1, j, s);
    ClockAdvances(log, i, m);
    ClockAdvances(log, m, j);
  }

  // ----- when a time fires again

  /** The suite follows the schedule, and fires next at `v`. */
  ghost predicate Awaits(w: World, s: Key, c: Schedule, v: nat) {
    s in w.suites && Follows(w.suites[s], c) && w.suites[s].status.nextRun == Some(v)
  }

  lemma WriteKeepsTime(w: World, e: SuiteWrite, c: Schedule, v: nat)
    requires GuardSuite(w, e) && Awaits(w, e.s, c, v) && w.now <= v + GRACE
    ensures Follows(NextSuite(w.suites[e.s], e), c) && NextSuite(w.suites[e.s], e).status.nextRun == Some(v)
  {
  }

  lemma OutsideKeepsTime(w: World, o: Outside, s: Key, c: Schedule, v: nat)
    requires WellFormed(w) && GuardOutside(w, o) && Awaits(w, s, c, v) && !(o.UserEdit? && o.k == s)
    ensures Awaits(ApplyOutside(w, o), s, c, v)
  {
    assert HasBody(w, s);
  }

  lemma AwaitsStep(w: World, e: Event, w': World, s: Key, c: Schedule, v: nat)
    requires WellFormed(w) && Steps(w, e, w') && Awaits(w, s, c, v) && w'.now <= v + GRACE && !Edits(e, s)
    ensures Awaits(w', s, c, v)
  {
    EventDoes(w, e, w');
    match e
    case Env(o) =>
      EnvStep(w, e, w');
      OutsideKeepsTime(w, o, s, c, v);
    case OfSuite(_) =>
      SuiteWritten(w, e, w');
      if e.s.s == s { WriteKeepsTime(w, e.s, c, v); }
    case _ => OthersKeepSuites(w, e, w');
  }

  /** Without an edit, NextRun stays at least until its grace is over. */
  lemma {:induction false} AwaitsAlong(early: seq<Event>, late: seq<Event>, s: Key, c: Schedule, v: nat)
    requires Legal(late) && early <= late && Legal(early) && Awaits(After(early), s, c, v)
    requires Unedited(late, |early|, s) && After(late).now <= v + GRACE
    ensures Awaits(After(late), s, c, v)
  {
    if early != late {
      var before := late[..|late| - 1];
      assert early <= before;
      HistoryAdvances(before, late);
      forall n | |early| <= n < |before| ensures !Edits(before[n], s) { assert before[n] == late[n]; }
      AwaitsAlong(early, before, s, c, v);
      Reachable(before);
      LastStep(late);
      assert !Edits(late[|late| - 1], s);
      AwaitsStep(After(before), late[|late| - 1], After(late), s, c, v);
    }
  }

  /** The history may go on, without an edit of the suite, to a trigger for the time `v`. */
  ghost predicate MayFire(log: seq<Event>, s: Key, v: nat) {
    exists late :: Legal(late) && log < late && Unedited(late, |log|, s) && FiresAt(late, |late| - 1, s, v)
  }

  /** Users may delete unfinished runs, and a trigger by hand may be forgotten; then the schedule triggers. */
  lemma MayFireNow(log: seq<Event>, s: Key, c: Schedule, v: nat)
    requires Legal(log) && Awaits(After(log), s, c, v) && v <= After(log).now <= v + GRACE
    requires Live(After(log), s) && After(log).suites[s].status.phase == SuiteReady && s.kind == SuiteKind
    ensures MayFire(log, s, v)
  {
    var log1, w1 := ClosesRuns(log, After(log), s);
    if w1.suites[s].needsRun {
      var log2, w2 := Appends(log1, w1, OfSuite(ResetTrigger(s)));
      StillNoneOpen(w1, w2, s);
      FiresNext(log, log2, w2, s, c, v);
    } else {
      FiresNext(log, log1, w1, s, c, v);
    }
  }

  lemma FiresNext(log: seq<Event>, before: seq<Event>, w: World, s: Key, c: Schedule, v: nat)
    requires Reaches(before, w) && log <= before && Unedited(before, |log|, s)
    requires Awaits(w, s, c, v) && v <= w.now <= v + GRACE && Live(w, s) && SuiteIsReady(w, s) && NoneOpen(w, s)
    requires !w.suites[s].needsRun
    ensures MayFire(log, s, v)
  {
    var late, w' := Appends(before, w, OfSuite(Trigger(s, Reason.Scheduled)));
    ReachesIsReached(before, w);
    ReachesIsReached(late, w');
    assert late[..|late| - 1] == before;
    assert FiresAt(late, |late| - 1, s, v);
  }

  lemma ReadyOnceComplete(w: World, w': World, s: Key)
    requires RightKinds(w) && Steps(w, OfSuite(Complete(s)), w')
    ensures Live(w', s) && s in w'.suites && w'.suites[s].status.phase == SuiteReady && s.kind == SuiteKind
  {
    SuiteStep(w, OfSuite(Complete(s)), w');
  }

  lemma FiresAgain(log: seq<Event>, i: nat, s: Key, v: nat)
    requires Legal(log) && FiresAt(log, i, s, v) && i < |log| - 1 && log[|log| - 1] == OfSuite(Complete(s))
    requires Unedited(log, i, s) && After(log).now <= v + GRACE
    ensures MayFire(log, s, v)
  {
    assert log[..|log|] == log && log[..i] <= log;
    FiresInTime(log, i, s, v);
    ClockAdvances(log, i, |log|);
    var c := After(log[..i]).suites[s].spec.schedule;
    AwaitsAlong(log[..i], log, s, c, v);
    LastStep(log);
    Reachable(log[..|log| - 1]);
    ReadyOnceComplete(After(log[..|log| - 1]), After(log), s);
    MayFireNow(log, s, c, v);
  }

  lemma FiresWithinGrace(log: seq<Event>, late: seq<Event>, s: Key, v: nat)
    requires Legal(log) && Legal(late) && log < late && FiresAt(late, |late| - 1, s, v)
    ensures After(log).now <= v + GRACE
  {
    var before := late[..|late| - 1];
    FiresInTime(late, |late| - 1, s, v);
    assert log <= before;
    HistoryAdvances(log, before);
  }

  /**
   A time that has fired may fire again, once the run that it started has completed, if and only if that was within ten
   seconds of it.
   */
  lemma FiresAgainWithinGrace(log: seq<Event>, i: nat, s: Key, v: nat)
    requires Legal(log) && FiresAt(log, i, s, v) && i < |log| - 1 && log[|log| - 1] == OfSuite(Complete(s))
    requires Unedited(log, i, s)
    ensures MayFire(log, s, v) <==> After(log).now <= v + GRACE
  {
    if After(log).now <= v + GRACE {
      FiresAgain(log, i, s, v);
    } else if MayFire(log, s, v) {
      var late :| Legal(late) && log < late && Unedited(late, |log|, s) && FiresAt(late, |late| - 1, s, v);
      FiresWithinGrace(log, late, s, v);
    }
  }
}
