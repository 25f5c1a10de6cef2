/** What a pass over a suite adds to the history: the schedules it records and the triggers it resets and fires. */
module Writes {
  import opened Prelude
  import opened Store
  import opened Histories
  import opened Clusters
  import opened Schedules

  /** The event is among those by which the history has grown. */
  ghost predicate Written(early: seq<Event>, late: seq<Event>, e: Event) {
    exists n :: |early| <= n < |late| && late[n] == e
  }

  /** The history has grown, and the active schedule of the suite has not been written. */
  ghost predicate NoneRecorded(early: seq<Event>, late: seq<Event>, s: Key) {
    early <= late && forall n :: |early| <= n < |late| ==> late[n] != OfSuite(Annotate(s))
  }

  predicate OfTrigger(e: Event, s: Key) { e.OfSuite? && e.s.s == s && (e.s.ResetTrigger? || e.s.Trigger?) }

  /** The history has grown, and no trigger of the suite has been reset or fired. */
  ghost predicate NoneFired(early: seq<Event>, late: seq<Event>, s: Key) {
    early <= late && forall n :: |early| <= n < |late| ==> !OfTrigger(late[n], s)
  }

  /** Neither has happened. */
  ghost predicate Uneventful(early: seq<Event>, late: seq<Event>, s: Key) {
    NoneRecorded(early, late, s) && NoneFired(early, late, s)
  }

  // ----- the schedules recorded

  /** Whether each schedule that was recorded found NextRun cleared, or the same schedule active. */
  ghost predicate Recorded(early: seq<Event>, late: seq<Event>, s: Key, cleared: bool) {
    forall k {:trigger Unsealed(k)} :: Unsealed(k) ==>
      && early <= late
      && forall n :: |early| <= n < |late| && late[n] == OfSuite(Annotate(s)) ==> (ClearedAt(late, n, s) <==> cleared)
  }

  lemma NoneToRecord(early: seq<Event>, late: seq<Event>, s: Key, cleared: bool)
    requires NoneRecorded(early, late, s)
    ensures Recorded(early, late, s, cleared)
  {
  }

  lemma RecordedInTwo(a: seq<Event>, b: seq<Event>, c: seq<Event>, s: Key, cleared: bool)
    requires Recorded(a, b, s, cleared) && Recorded(b, c, s, cleared)
    ensures Recorded(a, c, s, cleared)
  {
    assert Unsealed(0);
    forall n | |a| <= n < |c| && c[n] == OfSuite(Annotate(s)) ensures ClearedAt(c, n, s) <==> cleared {
      if n < |b| {
        assert b[n] == c[n] && b[..n] == c[..n];
        assert ClearedAt(b, n, s) <==> cleared;
      }
    }
  }

  predicate FindsCleared(x: Suite) { x.spec.schedule == x.activeSchedule || x.status.nextRun == None }

  lemma RecordsOne(early: seq<Event>, w: World, late: seq<Event>, s: Key)
    requires Reaches(early, w) && s in w.suites && late == early + [OfSuite(Annotate(s))]
    ensures Recorded(early, late, s, FindsCleared(w.suites[s]))
  {
    ReachesIsReached(early, w);
    assert late[..|early|] == early;
  }

  /** NextRun belongs to the active schedule. */
  ghost predicate Current(log: seq<Event>, s: Key) {
    forall k {:trigger Unsealed(k)} :: Unsealed(k) ==> Legal(log) && UpToDate(log, s)
  }

  lemma CurrentIfNone(log: seq<Event>, w: World, s: Key)
    requires Reaches(log, w) && s in w.suites && w.suites[s].status.nextRun == None
    ensures Current(log, s)
  {
    ReachesIsReached(log, w);
  }

  lemma {:induction false} UpToDateAlong(early: seq<Event>, late: seq<Event>, s: Key)
    requires Legal(late) && early <= late && Legal(early) && UpToDate(early, s)
    requires forall n :: |early| <= n < |late| && late[n] == OfSuite(Annotate(s)) ==> ClearedAt(late, n, s)
    ensures UpToDate(late, s)
  {
    if early != late {
      var n := |late| - 1;
      var before := late[..n];
      assert early <= before;
      forall k | |early| <= k < n && before[k] == OfSuite(Annotate(s)) ensures ClearedAt(before, k, s) {
        assert before[..k] == late[..k] && late[k] == before[k] && ClearedAt(late, k, s);
      }
      UpToDateAlong(early, before, s);
      LastStep(late);
      if late[n] == OfSuite(Annotate(s)) {
        assert ClearedAt(late, n, s);
        AnnotationUpToDate(late, s);
      } else {
        OtherEventsKeepUpToDate(late, s);
      }
    }
  }

  /** As long as every change of schedule finds NextRun cleared, NextRun goes on belonging to the active schedule. */
  lemma StaysCurrent(early: seq<Event>, late: seq<Event>, w: World, s: Key)
    requires Current(early, s) && Reaches(late, w) && Recorded(early, late, s, true)
    ensures Current(late, s)
  {
    ReachesIsReached(late, w);
    assert Unsealed(0);
    UpToDateAlong(early, late, s);
  }

  // ----- the triggers fired

  /** Each trigger by the schedule was for this time. */
  ghost predicate FiresFor(early: seq<Event>, late: seq<Event>, s: Key, at: Option<nat>) {
    forall k {:trigger Unsealed(k)} :: Unsealed(k) ==>
      early <= late && forall n: nat, v: nat :: |early| <= n && FiresAt(late, n, s, v) ==> at == Some(v)
  }

  lemma NoneToFire(early: seq<Event>, late: seq<Event>, s: Key, at: Option<nat>)
    requires NoneFired(early, late, s)
    ensures FiresFor(early, late, s, at)
  {
  }

  lemma FiresOne(early: seq<Event>, w: World, late: seq<Event>, s: Key, reason: Reason)
    requires Reaches(early, w) && s in w.suites && late == early + [OfSuite(Trigger(s, reason))]
    ensures FiresFor(early, late, s, w.suites[s].status.nextRun)
  {
    ReachesIsReached(early, w);
    assert late[..|early|] == early;
  }

  lemma FiresLater(a: seq<Event>, b: seq<Event>, c: seq<Event>, s: Key, at: Option<nat>)
    requires NoneFired(a, b, s) && FiresFor(b, c, s, at)
    ensures FiresFor(a, c, s, at)
  {
    assert Unsealed(0);
    forall n: nat, v: nat | |a| <= n && FiresAt(c, n, s, v) ensures at == Some(v) {
      assert |b| <= n;
    }
  }

  /** Each trigger by the schedule was for a time that has been computed since the first of these times. */
  ghost predicate FiresAnew(early: seq<Event>, late: seq<Event>, s: Key) {
    forall k {:trigger Unsealed(k)} :: Unsealed(k) ==>
      && early <= late
      && forall n: nat, v: nat :: |early| <= n && FiresAt(late, n, s, v) ==>
           exists m :: |early| <= m < n && late[m] == OfSuite(ScheduleNext(s, v))
  }

  lemma NoneFiresAnew(early: seq<Event>, late: seq<Event>, s: Key)
    requires FiresFor(early, late, s, None)
    ensures FiresAnew(early, late, s)
  {
    assert Unsealed(0);
  }

  lemma ComputedThenFired(a: seq<Event>, b: seq<Event>, c: seq<Event>, s: Key, v: nat)
    requires NoneFired(a, b, s) && Written(a, b, OfSuite(ScheduleNext(s, v))) && FiresFor(b, c, s, Some(v))
    ensures FiresAnew(a, c, s)
  {
    assert Unsealed(0);
    var m :| |a| <= m < |b| && b[m] == OfSuite(ScheduleNext(s, v));
    forall n: nat, u: nat | |a| <= n && FiresAt(c, n, s, u)
      ensures exists m :: |a| <= m < n && c[m] == OfSuite(ScheduleNext(s, u))
    {
      assert |b| <= n;
      assert c[m] == b[m];
    }
  }

  lemma FiresAnewLater(a: seq<Event>, b: seq<Event>, c: seq<Event>, s: Key)
    requires NoneFired(a, b, s) && FiresAnew(b, c, s)
    ensures FiresAnew(a, c, s)
  {
    assert Unsealed(0);
    forall n: nat, v: nat | |a| <= n && FiresAt(c, n, s, v)
      ensures exists m :: |a| <= m < n && c[m] == OfSuite(ScheduleNext(s, v))
    {
      assert |b| <= n;
    }
  }

  // ----- triggers by hand

  /** A trigger by hand that was reset has been fired. */
  ghost predicate ResetIsFired(early: seq<Event>, late: seq<Event>, s: Key) {
    early <= late && (Written(early, late, OfSuite(ResetTrigger(s))) ==>
      Written(early, late, OfSuite(Trigger(s, Manual))))
  }

  lemma NoneReset(early: seq<Event>, late: seq<Event>, s: Key)
    requires NoneFired(early, late, s)
    ensures ResetIsFired(early, late, s)
  {
  }

  lemma ResetLater(a: seq<Event>, b: seq<Event>, c: seq<Event>, s: Key)
    requires NoneFired(a, b, s) && ResetIsFired(b, c, s)
    ensures ResetIsFired(a, c, s)
  {
    if Written(a, c, OfSuite(ResetTrigger(s))) {
      var n :| |a| <= n < |c| && c[n] == OfSuite(ResetTrigger(s));
      assert |b| <= n;
      var m :| |b| <= m < |c| && c[m] == OfSuite(Trigger(s, Manual));
      assert c[m] == OfSuite(Trigger(s, Manual));
    }
  }

  lemma FiresOther(early: seq<Event>, late: seq<Event>, s: Key, reason: Reason, at: Option<nat>)
    requires late == early + [OfSuite(Trigger(s, reason))] && reason != Scheduled
    ensures FiresFor(early, late, s, at)
  {
  }

  // ----- a whole pass

  lemma MetaIsUneventful(early: seq<Event>, late: seq<Event>, s: Key)
    requires MetaWrites(early, late)
    ensures Uneventful(early, late, s)
  {
  }

  /** What a pass writes once the copy `x` of the suite has followed a change of the schedule. */
  ghost predicate PassWrites(early: seq<Event>, late: seq<Event>, s: Key, x: Suite, reliable: bool, ended: bool) {
    && early <= late
    && (x.spec.schedule == NoSchedule ==> NoneRecorded(early, late, s))
    && (reliable ==> Recorded(early, late, s, true))
    && (reliable && x.status.nextRun == None ==> FiresAnew(early, late, s))
    && (ended ==> ResetIsFired(early, late, s))
  }

  lemma NothingWritten(early: seq<Event>, late: seq<Event>, s: Key, x: Suite, reliable: bool, ended: bool)
    requires Uneventful(early, late, s)
    ensures PassWrites(early, late, s, x, reliable, ended)
  {
    NoneToRecord(early, late, s, true);
    NoneToFire(early, late, s, None);
    NoneFiresAnew(early, late, s);
    NoneReset(early, late, s);
  }

  lemma WritesLater(a: seq<Event>, b: seq<Event>, c: seq<Event>, s: Key, x: Suite, x': Suite, reliable: bool,
      ended: bool)
    requires Uneventful(a, b, s) && PassWrites(b, c, s, x', reliable, ended)
    requires x'.spec == x.spec && (reliable ==> x'.status.nextRun == x.status.nextRun)
    ensures PassWrites(a, c, s, x, reliable, ended)
  {
    NoneToRecord(a, b, s, true);
    if reliable { RecordedInTwo(a, b, c, s, true); }
    if reliable && x.status.nextRun == None { FiresAnewLater(a, b, c, s); }
    if ended { ResetLater(a, b, c, s); }
  }

  /** A schedule that is asked for is recorded only once NextRun has been cleared; one that is removed, before that. */
  predicate MayRecord(x: Suite) { x.spec.schedule.Cron? || x.status.nextRun == None }

  /**
   What a whole pass without failures writes. A schedule that it records finds NextRun cleared exactly if one is asked
   for or there was no NextRun. NextRun belongs to the active schedule afterwards if it did before, or if the schedule
   was changed. And where it was changed, each trigger by the schedule is for a time computed anew.
   */
  ghost predicate WholeWrites(early: seq<Event>, late: seq<Event>, s: Key, x: Suite) {
    && Recorded(early, late, s, MayRecord(x))
    && (Current(early, s) || x.spec.schedule != x.activeSchedule ==> Current(late, s))
    && (x.spec.schedule != x.activeSchedule ==> FiresAnew(early, late, s))
  }

  lemma WritesAfterFollowing(a: seq<Event>, b: seq<Event>, c: seq<Event>, s: Key, w: World, w': World, x: Suite,
      y: Suite)
    requires NoneFired(a, b, s) && Recorded(a, b, s, MayRecord(x)) && PassWrites(b, c, s, y, true, true)
    requires Reaches(b, w) && Reaches(c, w') && s in w.suites && w.suites[s] == y && y.spec == x.spec
    requires x.spec.schedule == NoSchedule || x.spec.schedule != x.activeSchedule ==> y.status.nextRun == None
    ensures WholeWrites(a, c, s, x)
  {
    if x.spec.schedule == NoSchedule { NoneToRecord(b, c, s, MayRecord(x)); }
    RecordedInTwo(a, b, c, s, MayRecord(x));
    if y.status.nextRun == None {
      CurrentIfNone(b, w, s);
      FiresAnewLater(a, b, c, s);
    } else if Current(a, s) {
      StaysCurrent(a, b, w, s);
    }
    if Current(b, s) { StaysCurrent(b, c, w', s); }
  }
}
