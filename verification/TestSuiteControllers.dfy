/** The TestSuite reconciler: the schedule, the history of runs, triggers and the run that a suite tracks. */
module TestSuiteControllers {
  import opened Prelude
  import opened Store
  import opened Effects
  import opened Invariants
  import opened SuiteStates
  import opened Clusters
  import opened Helpers
  import opened Compaction
  import opened Writes

  datatype Ending = Done | Stopped | RunMissing

  // ----- merge patches

  /** One field of a merge patch (section 2 of RFC 7396): it is sent only if the copy was changed; lists go whole. */
  function Merge<T(==)>(stored: T, orig: T, local: T): T { if local == orig then stored else local }

  function MergeStatus(stored: SuiteStatus, orig: SuiteStatus, local: SuiteStatus): SuiteStatus {
    SuiteStatus(
      Merge(stored.phase, orig.phase, local.phase),
      Merge(stored.current, orig.current, local.current),
      Merge(stored.nextRun, orig.nextRun, local.nextRun),
      Merge(stored.conditions, orig.conditions, local.conditions))
  }

  // ----- the copy that a reconciliation works on

  ghost predicate CopyOf(w: World, o: Obj<Suite>) {
    && o.key.kind == SuiteKind && Live(w, o.key) && o.meta == w.meta[o.key] && o.key in w.suites
  }

  ghost predicate Exact(w: World, o: Obj<Suite>) { CopyOf(w, o) && o.body == w.suites[o.key] }

  /** Without a next time, and without a schedule. */
  function Unset(x: SuiteStatus): SuiteStatus { x.(nextRun := None, conditions := x.conditions[HasSchedule := false]) }

  /** The copy has lost NextRun, and the store has not: the patch that was to clear it failed, and the pass went on. */
  ghost predicate Cleared(w: World, o: Obj<Suite>) {
    && CopyOf(w, o)
    && w.suites[o.key].spec.schedule.Cron? && w.suites[o.key].spec.schedule != w.suites[o.key].activeSchedule
    && o.body == w.suites[o.key].(status := w.suites[o.key].status.(nextRun := None))
  }

  /** The same for a schedule that does not parse. */
  ghost predicate Dropped(w: World, o: Obj<Suite>) {
    && CopyOf(w, o)
    && w.suites[o.key].spec.schedule.Cron? && !w.suites[o.key].spec.schedule.parses
    && o.body == Patched(w.suites[o.key],
                         w.suites[o.key].status.(nextRun := None,
                                                 conditions := w.suites[o.key].status.conditions[HasSchedule := false]))
  }

  /** Nothing but this suite has changed, and the clock may have advanced. */
  ghost predicate OnlySuite(w: World, w': World, s: Key) {
    && s in w.suites && s in w'.suites && w.now <= w'.now
    && w' == w.(suites := w.suites[s := w'.suites[s]], now := w'.now)
  }

  /** Only the schedule's part of a suite has changed: the active schedule, NextRun and HasSchedule. */
  predicate OnlySchedule(x: Suite, x': Suite) {
    && x'.spec == x.spec && x'.needsRun == x.needsRun && x'.account == x.account
    && x'.status.phase == x.status.phase && x'.status.current == x.status.current
    && x'.status.conditions - {HasSchedule} == x.status.conditions - {HasSchedule}
  }

  /** What following a change of its schedule makes of a suite if nothing fails. */
  function Followed(x: Suite): Suite {
    if x.spec.schedule == NoSchedule then x.(activeSchedule := NoSchedule, status := Unset(x.status))
    else if x.spec.schedule == x.activeSchedule then x
    else Patched(x, x.status.(nextRun := None))
  }

  /** The copy has followed a change of the schedule; that NextRun could not be cleared was not noticed. */
  ghost predicate InOrder(w: World, o: Obj<Suite>, reliable: bool) {
    && (Exact(w, o) || Cleared(w, o)) && (o.body.spec.schedule == NoSchedule ==> o.body.status.nextRun == None)
    && (reliable ==> Exact(w, o) && Followed(o.body) == o.body)
  }

  predicate Parses(c: Schedule) { c.Cron? && c.parses }

  /** The suite follows the schedule asked for, and fires next at this time. */
  function Recomputed(y: Suite, next: Option<nat>): Suite {
    var conditions := y.status.conditions[HasSchedule := Parses(y.spec.schedule)];
    y.(activeSchedule := y.spec.schedule, status := y.status.(nextRun := next, conditions := conditions))
  }

  /** The next time: none if the schedule does not parse, the one that was known, or one after `now`. */
  predicate NextTimeOf(y: Suite, next: Option<nat>, now: nat) {
    if !Parses(y.spec.schedule) then next == None
    else next.Some? && if y.status.nextRun.Some? then next == y.status.nextRun else now < next.value
  }

  /** No schedule is followed, and no time is set. */
  predicate Unscheduled(x: Suite) {
    x.activeSchedule == NoSchedule && x.status.nextRun == None && !IsTrue(x.status.conditions, HasSchedule)
  }

  /** The schedule asked for is the active one. If it parses, a time that was set stays, and one is set that was not. */
  predicate ScheduleSet(x: Suite, x': Suite, now: nat) {
    if x.spec.schedule == NoSchedule then x' == x
    else && x'.activeSchedule == x.spec.schedule
         && (x.spec.schedule.parses ==>
               && x'.status.nextRun.Some?
               && if x.status.nextRun.Some? then x'.status.nextRun == x.status.nextRun
                  else now < x'.status.nextRun.value)
  }

  // ----- runs in the order of their creation

  ghost predicate RunOf(w: World, s: Key, o: Obj<Run>) {
    && o.key in w.meta && o.meta == w.meta[o.key] && o.key.kind == RunKind && ChildOf(w, o.key, s)
    && o.key in w.runs && o.body == w.runs[o.key]
  }

  ghost predicate Runs(w: World, s: Key, runs: seq<Obj<Run>>) {
    && KeysDiffer(runs)
    && (forall i :: 0 <= i < |runs| ==> RunOf(w, s, runs[i]))
    && (forall k :: k in w.meta && ChildOf(w, k, s) && k.kind == RunKind ==> k in KeysOf(runs))
  }

  ghost predicate LiveRuns(w: World, s: Key, runs: seq<Obj<Run>>) {
    && KeysDiffer(runs)
    && (forall i :: 0 <= i < |runs| ==> RunOf(w, s, runs[i]) && !runs[i].meta.deleting)
    && (forall k :: Live(w, k) && ChildOf(w, k, s) && k.kind == RunKind ==> k in KeysOf(runs))
  }

  /** The creation timestamp, which the API server keeps in whole seconds. */
  function Stamp(w: World, k: Key): nat { if k in w.birth then w.birth[k].created / SECOND else 0 }

  ghost predicate ByAge(w: World, runs: seq<Obj<Run>>) {
    forall i, j :: 0 <= i < j < |runs| ==> Stamp(w, runs[i].key) <= Stamp(w, runs[j].key)
  }

  predicate HasRunBody(w: World, k: Key) { k in w.meta && k in w.runs }

  // ----- the focus on an unfinished run

  ghost predicate NewestOpen(w: World, s: Key, r: Key) {
    OpenRun(w, s, r) && forall q :: OpenRun(w, s, q) ==> Stamp(w, q) <= Stamp(w, r)
  }

  /** The last of the first `n` runs that is not final. */
  function LastOpen(runs: seq<Obj<Run>>, n: nat): (j: Option<nat>)
    requires n <= |runs|
    ensures j.Some? ==> j.value < n && !runs[j.value].body.phase.IsFinal()
    ensures forall i :: 0 <= i < n && (j.Some? ==> j.value < i) ==> runs[i].body.phase.IsFinal()
  {
    if n == 0 then None else if !runs[n - 1].body.phase.IsFinal() then Some(n - 1) else LastOpen(runs, n - 1)
  }

  function Focused(x: Suite, r: Key): Suite {
    Patched(x, x.status.(phase := SuiteRunning, current := Some(r)))
      .(account := x.account.(adoptions := x.account.adoptions + 1))
  }

  lemma LastOpenIsNewest(w: World, s: Key, runs: seq<Obj<Run>>)
    requires LiveRuns(w, s, runs) && ByAge(w, runs)
    ensures var j := LastOpen(runs, |runs|);
            if j.Some? then NewestOpen(w, s, runs[j.value].key) else forall q :: !OpenRun(w, s, q)
  {
    var j := LastOpen(runs, |runs|);
    forall q | OpenRun(w, s, q) ensures j.Some? && Stamp(w, q) <= Stamp(w, runs[j.value].key) {
      var i :| 0 <= i < |runs| && runs[i].key == q;
      assert RunOf(w, s, runs[i]);
    }
    if j.Some? { assert RunOf(w, s, runs[j.value]); }
  }

  /** The place of a run behind all that are not younger. */
  method Place(w: World, sorted: seq<Obj<Run>>, o: Obj<Run>) returns (j: nat)
    ensures j <= |sorted| && forall k :: 0 <= k < j ==> Stamp(w, sorted[k].key) <= Stamp(w, o.key)
    ensures j < |sorted| ==> Stamp(w, o.key) < Stamp(w, sorted[j].key)
  {
    j := 0;
    while j < |sorted| && Stamp(w, sorted[j].key) <= Stamp(w, o.key)
      invariant j <= |sorted| && forall k :: 0 <= k < j ==> Stamp(w, sorted[k].key) <= Stamp(w, o.key)
    {
      j := j + 1;
    }
  }

  /** The runs in the order of their creation timestamps; runs created in the same second come in any order. */
  method SortByAge(w: World, runs: seq<Obj<Run>>) returns (sorted: seq<Obj<Run>>)
    requires KeysDiffer(runs)
    ensures multiset(sorted) == multiset(runs) && ByAge(w, sorted) && KeysDiffer(sorted)
  {
    sorted := [];
    for i := 0 to |runs|
      invariant multiset(sorted) == multiset(runs[..i]) && ByAge(w, sorted) && KeysDiffer(sorted)
    {
      var j := Place(w, sorted, runs[i]);
      Inserted(w, runs, i, sorted, j);
      sorted := sorted[..j] + [runs[i]] + sorted[j..];
    }
    assert runs[..|runs|] == runs;
  }

  lemma Inserted(w: World, runs: seq<Obj<Run>>, i: nat, sorted: seq<Obj<Run>>, j: nat)
    requires i < |runs| && KeysDiffer(runs) && j <= |sorted|
    requires multiset(sorted) == multiset(runs[..i]) && ByAge(w, sorted) && KeysDiffer(sorted)
    requires forall k :: 0 <= k < j ==> Stamp(w, sorted[k].key) <= Stamp(w, runs[i].key)
    requires j < |sorted| ==> Stamp(w, runs[i].key) < Stamp(w, sorted[j].key)
    ensures var sorted' := sorted[..j] + [runs[i]] + sorted[j..];
            multiset(sorted') == multiset(runs[..i + 1]) && ByAge(w, sorted') && KeysDiffer(sorted')
  {
    var o := runs[i];
    forall k | 0 <= k < |sorted|
      ensures sorted[k].key != o.key && (k >= j ==> Stamp(w, o.key) <= Stamp(w, sorted[k].key))
    {
      assert sorted[k] in multiset(runs[..i]);
    }
    assert sorted == sorted[..j] + sorted[j..];
    assert runs[..i + 1] == runs[..i] + [o];
    InsertedInOrder(w, sorted, o, j);
  }

  lemma InsertedInOrder(w: World, sorted: seq<Obj<Run>>, o: Obj<Run>, j: nat)
    requires j <= |sorted| && ByAge(w, sorted) && KeysDiffer(sorted)
    requires forall k :: 0 <= k < |sorted| ==> sorted[k].key != o.key
    requires forall k :: 0 <= k < j ==> Stamp(w, sorted[k].key) <= Stamp(w, o.key)
    requires forall k :: j <= k < |sorted| ==> Stamp(w, o.key) <= Stamp(w, sorted[k].key)
    ensures ByAge(w, sorted[..j] + [o] + sorted[j..]) && KeysDiffer(sorted[..j] + [o] + sorted[j..])
  {
    var sorted' := sorted[..j] + [o] + sorted[j..];
    forall a, b | 0 <= a < b < |sorted'|
      ensures Stamp(w, sorted'[a].key) <= Stamp(w, sorted'[b].key) && sorted'[a].key != sorted'[b].key
    {
      var x := if a < j then a else a - 1;
      var y := if b < j then b else b - 1;
      assert a != j ==> sorted'[a] == sorted[x];
      assert b != j ==> sorted'[b] == sorted[y];
    }
  }

  ghost predicate FocusUnderway(w0: World, w: World, o: Obj<Suite>, o': Obj<Suite>, runs: seq<Obj<Run>>, n: nat)
    requires n <= |runs|
  {
    && o.key in w0.suites
    && var j := LastOpen(runs, n);
       if j.Some?
       then Exact(w, o') && o'.key == o.key && RunOf(w0, o.key, runs[j.value]) && !runs[j.value].meta.deleting
            && w == w0.(suites := w0.suites[o.key := Focused(w0.suites[o.key], runs[j.value].key)])
       else w == w0 && o' == o
  }

  lemma MayFocus(w0: World, w: World, o0: Obj<Suite>, o: Obj<Suite>, runs: seq<Obj<Run>>, i: nat)
    requires i < |runs| && !runs[i].body.phase.IsFinal()
    requires (Exact(w0, o0) || Cleared(w0, o0)) && LiveRuns(w0, o0.key, runs)
    requires o0.body.status.phase != SuiteRunning && o0.body.status.current == None
    requires FocusUnderway(w0, w, o0, o, runs, i)
    ensures o.key == o0.key && CopyOf(w, o) && GuardSuite(w, Focus(o.key, runs[i].key))
  {
    assert RunOf(w0, o0.key, runs[i]);
  }

  lemma FocusMerges(w0: World, w: World, o0: Obj<Suite>, o: Obj<Suite>, runs: seq<Obj<Run>>, i: nat)
    requires i < |runs| && (Exact(w0, o0) || Cleared(w0, o0)) && o0.body.status.phase != SuiteRunning
    requires FocusUnderway(w0, w, o0, o, runs, i) && o.key == o0.key && CopyOf(w, o)
    ensures var now := o.body.status.(phase := SuiteRunning, current := Some(runs[i].key));
            MergeStatus(w.suites[o.key].status, o.body.status, now)
            == NextSuite(w.suites[o.key], Focus(o.key, runs[i].key)).status
  {
  }

  lemma PassFinal(w0: World, w: World, o0: Obj<Suite>, o: Obj<Suite>, runs: seq<Obj<Run>>, i: nat)
    requires i < |runs| && runs[i].body.phase.IsFinal() && FocusUnderway(w0, w, o0, o, runs, i)
    ensures FocusUnderway(w0, w, o0, o, runs, i + 1)
  {
  }

  /** Focusing again replaces the run, and counts no second adoption. */
  lemma FocusAgain(x: Suite, k: Key, q: Key, r: Key)
    requires x.status.phase != SuiteRunning
    ensures NextSuite(x, Focus(k, r)) == Focused(x, r)
    ensures NextSuite(Focused(x, q), Focus(k, r)) == Focused(x, r)
  {
  }

  lemma OneMoreFocused(w0: World, w: World, w': World, o0: Obj<Suite>, o: Obj<Suite>, o': Obj<Suite>,
      runs: seq<Obj<Run>>, i: nat)
    requires i < |runs| && !runs[i].body.phase.IsFinal() && LiveRuns(w0, o0.key, runs)
    requires (Exact(w0, o0) || Cleared(w0, o0)) && o0.body.status.phase != SuiteRunning
    requires FocusUnderway(w0, w, o0, o, runs, i) && o.key == o0.key && o.key in w.suites
    requires w' == w.(suites := w.suites[o.key := NextSuite(w.suites[o.key], Focus(o.key, runs[i].key))])
    requires o'.key == o.key && Exact(w', o')
    ensures FocusUnderway(w0, w', o0, o', runs, i + 1)
  {
    assert RunOf(w0, o0.key, runs[i]);
    var j := LastOpen(runs, i);
    FocusAgain(w0.suites[o.key], o.key, if j.Some? then runs[j.value].key else o.key, runs[i].key);
    assert w'.suites[o.key] == Focused(w0.suites[o.key], runs[i].key);
  }

  /** How many of the runs are past the limit. */
  function Surplus(runs: seq<Obj<Run>>, limit: nat): (n: nat)
    ensures n <= |runs| && |runs| - n == if |runs| < limit then |runs| else limit
  {
    if |runs| > limit then |runs| - limit else 0
  }

  /** The suite follows a schedule that parses and knows when it fires next. */
  ghost predicate Scheduling(w: World, o: Obj<Suite>) {
    && Exact(w, o) && o.body.status.nextRun.Some?
    && o.body.spec.schedule.Cron? && o.body.spec.schedule.parses && o.body.spec.schedule == o.body.activeSchedule
  }

  /** The suite now needs a run, and that counts as one trigger. NextRun stays as it was. */
  predicate Fired(x: Suite, x': Suite, reason: Reason) {
    var now, a := x.status, x.account;
    && x'.status == now.(phase := SuiteRunning, current := None, conditions := now.conditions[NeedsRun := true])
    && x'.account == a.(triggers := a.triggers + 1, scheduled := a.scheduled + One(reason == Scheduled))
    && x' == x.(status := x'.status, account := x'.account)
  }

  /** What the decision about a trigger comes to. Without one, a scheduled time lies ahead. */
  ghost predicate Decided(w: World, w': World, o: Obj<Suite>, reason: Option<Reason>)
    requires o.key in w.suites && o.key in w'.suites
  {
    var x, x' := w.suites[o.key], w'.suites[o.key];
    && (reason == Some(Manual) <==> x.needsRun)
    && (reason.Some? ==> Fired(x.(needsRun := false), x', reason.value))
    && (reason == Some(Scheduled) ==>
          x.status.nextRun.Some? && x.status.nextRun.value <= w'.now <= x.status.nextRun.value + GRACE)
    && (reason.None? ==>
          && x' == Patched(x, x.status.(nextRun := x'.status.nextRun))
          && (o.body.status.nextRun == None ==> x' == x)
          && (o.body.status.nextRun.Some? ==>
                && x'.status.nextRun.Some? && w'.now < x'.status.nextRun.value
                && (x'.status.nextRun != x.status.nextRun ==> o.body.status.nextRun.value + GRACE < w'.now)))
  }

  /** The trigger by hand has been reset, and nothing has come of it. */
  predicate TriggerForgotten(x: Suite, x': Suite) { x.needsRun && x' == x.(needsRun := false) }

  /** The trigger is forgotten exactly if the reset was written and Running was not. */
  ghost predicate ResetOnly(x: Suite, x': Suite, early: seq<Event>, late: seq<Event>, s: Key) {
    TriggerForgotten(x, x') <==>
      Written(early, late, OfSuite(ResetTrigger(s))) && !Written(early, late, OfSuite(Trigger(s, Manual)))
  }

  // ----- what a pass comes to

  /** Of the suites only this one has changed, and no run of it is left created but unassigned that was not before. */
  ghost predicate SuitesOnly(w: World, w': World, s: Key) {
    && s in w.suites && s in w'.suites && w'.suites == w.suites[s := w'.suites[s]]
    && w'.suites[s].account.awaiting == w.suites[s].account.awaiting
  }

  ghost predicate PhaseOnly(w: World, w': World, s: Key) {
    SuitesOnly(w, w', s) && MarkedKept(w, w') && (s in w.meta ==> s in w'.meta && w'.meta[s] == w.meta[s])
  }

  /** The live runs of the suite, the oldest first. */
  ghost predicate RunOrder(w: World, s: Key, order: seq<Key>) {
    && Distinct(order)
    && (forall k :: k in order <==> k.kind == RunKind && Live(w, k) && ChildOf(w, k, s))
    && (forall i, j :: 0 <= i < j < |order| ==> Stamp(w, order[i]) <= Stamp(w, order[j]))
  }

  ghost predicate TrimmedTo(w: World, w': World, order: seq<Key>, limit: nat) {
    forall i :: 0 <= i < |order| ==>
      if i + limit < |order| then Swept(w, w', order[i], TestSuiteController)
      else order[i] in w.meta && order[i] in w'.meta && w'.meta[order[i]] == w.meta[order[i]]
  }

  /** Of the live runs exactly the oldest past the history limit are swept; the others are as they were. */
  ghost predicate HistoryTrimmed(w: World, w': World, s: Key) {
    s in w.suites && exists order :: RunOrder(w, s, order) && TrimmedTo(w, w', order, w.suites[s].spec.historyLimit)
  }

  /** One trigger has been counted; if it was the schedule's, it came within ten seconds of the scheduled time. */
  predicate Triggered(x: Suite, x': Suite, now: nat) {
    && x'.account == x.account.(triggers := x.account.triggers + 1, scheduled := x'.account.scheduled)
    && (x'.account.scheduled != x.account.scheduled ==>
          && x'.account.scheduled == x.account.scheduled + 1 && !x.needsRun
          && x'.status.nextRun.Some? && x'.status.nextRun.value <= now <= x'.status.nextRun.value + GRACE)
  }

  /**
   The suite has been triggered, which a trigger by hand cannot fail to do, or it waits for its next trigger.
   While it waits it follows its schedule, and if that parses, the next scheduled time lies ahead.
   */
  predicate Idled(x: Suite, x': Suite, now: nat) {
    && x'.status.current == None && !x'.needsRun && x'.spec == x.spec
    && (x.spec.schedule.Cron? ==> x'.activeSchedule == x.spec.schedule)
    && if x'.status.phase == SuiteRunning then Triggered(x, x', now)
       else && x'.status.phase == SuiteReady && x'.account == x.account && !x.needsRun
            && (Parses(x.spec.schedule) ==> x'.status.nextRun.Some? && now < x'.status.nextRun.value)
  }

  /** The suite ready, with its trigger by hand used up, and with this next time. */
  function ReadyFor(y: Suite, next: Option<nat>): Suite {
    var x := Recomputed(y, next);
    Patched(x, x.status.(phase := SuiteReady)).(needsRun := false)
  }

  /** The suite has been triggered: by hand if a user asked for it, and by the schedule only in the seconds of grace. */
  ghost predicate FiredWhole(y: Suite, x': Suite, reason: Reason, now: nat) {
    var next := x'.status.nextRun;
    && Fired(ReadyFor(y, next), x', reason) && (reason == Manual <==> y.needsRun)
    && (reason == Scheduled ==> next.Some? && next.value <= now <= next.value + GRACE)
  }

  /** Nothing has triggered the suite: its next time lies ahead, and is the one it had unless that was missed. */
  predicate StillWaits(y: Suite, x': Suite, now: nat) {
    var next, was := x'.status.nextRun, y.status.nextRun;
    && x' == ReadyFor(y, next) && !y.needsRun && (next.Some? <==> Parses(y.spec.schedule))
    && (next.Some? ==> now < next.value) && (was.Some? && next.Some? && next != was ==> was.value + GRACE < now)
  }

  /** What a pass in which nothing fails makes of a suite that is not running and has no unfinished run. */
  ghost predicate IdledWhole(y: Suite, x': Suite, before: nat, now: nat) {
    || (NextTimeOf(y, x'.status.nextRun, before) && exists reason :: FiredWhole(y, x', reason, now))
    || StillWaits(y, x', now)
  }

  /** A new run has been made from the suite's template. */
  ghost predicate StartedWith(w: World, w': World, s: Key, r: Key) {
    && s in w.suites && r.kind == RunKind && r !in w.birth
    && w'.birth == w.birth[r := Birth(Some(s), w.now)] && r in w'.meta
    && w'.meta[r] == Meta([TestSuiteController], false)
    && w'.runs == w.runs[r := Run(w.suites[s].spec.retention, w.suites[s].spec.templates, RunUnset, [])]
  }

  /** The run is the one that the suite tracks. */
  function Tracking(y: Suite, r: Key): Suite {
    Patched(y, Assigned(y.status, r))
      .(account := y.account.(creations := y.account.creations + 1, assignments := y.account.assignments + 1))
  }

  /** A new run made from the suite's template is the one that the suite tracks. */
  ghost predicate StartedRun(y: Suite, w: World, w': World, s: Key) {
    s in w'.suites && exists r :: StartedWith(w, w', s, r) && w'.suites[s] == Tracking(y, r)
  }

  ghost predicate GuardCreation(w: World, s: Key) {
    && s.kind == SuiteKind && Live(w, s) && Holds(w, s, TestSuiteController) && SuiteNeedsRun(w, s)
    && w.suites[s].account.awaiting == None
  }

  ghost predicate RunCreated(w: World, w': World, s: Key, r: Key) {
    Fresh(w, r, RunKind) && GuardSuite(w, CreateRun(r, s)) && w' == ApplySuite(w, CreateRun(r, s))
  }

  function Assigned(x: SuiteStatus, r: Key): SuiteStatus {
    x.(current := Some(r), conditions := x.conditions[NeedsRun := false][RunStarted := true])
  }

  lemma MayAssign(w0: World, w: World, o: Obj<Suite>, r: Key)
    requires (Exact(w0, o) || Cleared(w0, o)) && GuardCreation(w0, o.key) && RunCreated(w0, w, o.key, r)
    ensures CopyOf(w, o) && GuardSuite(w, Assign(o.key, r)) && GuardSuite(w, LoseRun(o.key))
    ensures MergeStatus(w.suites[o.key].status, o.body.status, Assigned(o.body.status, r))
            == NextSuite(w.suites[o.key], Assign(o.key, r)).status
  {
  }

  lemma RunAssigned(w0: World, w1: World, w2: World, s: Key, r: Key)
    requires GuardCreation(w0, s) && RunCreated(w0, w1, s, r) && s in w1.suites
    requires w2 == w1.(suites := w1.suites[s := NextSuite(w1.suites[s], Assign(s, r))])
    ensures PhaseOnly(w0, w2, s) && StartedRun(w0.suites[s], w0, w2, s)
  {
    assert StartedWith(w0, w2, s, r) && w2.suites[s] == Tracking(w0.suites[s], r);
  }

  /** The suite still needs a run; one that was created is counted as lost. */
  predicate NotStarted(x: Suite, x': Suite) {
    && OnlySchedule(x.(account := x'.account), x')
    && var a := x.account;
       (x'.account == a || x'.account == a.(creations := a.creations + 1, losses := a.losses + 1))
  }

  lemma RunForgotten(w0: World, w1: World, w2: World, s: Key, r: Key)
    requires GuardCreation(w0, s) && RunCreated(w0, w1, s, r) && s in w1.suites
    requires w2 == w1.(suites := w1.suites[s := NextSuite(w1.suites[s], LoseRun(s))])
    ensures PhaseOnly(w0, w2, s) && NotStarted(w0.suites[s], w2.suites[s])
    ensures w2.suites[s].account.losses == w0.suites[s].account.losses + 1
  {
  }

  /** The suite is ready again, and a trigger by hand that came in the meantime waits. */
  function Finished(y: Suite): Suite {
    Patched(y, y.status.(phase := SuiteReady, current := None, conditions := y.status.conditions[RunStarted := false]))
      .(account := y.account.(completions := y.account.completions + 1))
  }

  /** What a pass over a running suite comes to, by the run that the suite tracks. */
  ghost predicate RunFollowed(y: Suite, w: World, w': World, s: Key, out: Ending) {
    && s in w'.suites
    && match y.status.current
       case None => StartedRun(y, w, w', s) && out == Done
       case Some(r) =>
         if !(r.kind == RunKind && Live(w, r) && ChildOf(w, r, s)) then w'.suites[s] == y && out == RunMissing
         else if RunInProgress(w, r) then w'.suites[s] == y && out == Done
         else w'.suites[s] == Finished(y) && out == Done
  }

  /** The suite has been focused on one of its runs, and that counts as one adoption. */
  predicate IsFocused(x: Suite, x': Suite, r: Key) {
    && x'.status.phase == SuiteRunning && x'.status.current == Some(r)
    && x'.account == x.account.(adoptions := x.account.adoptions + 1)
  }

  ghost predicate FocusedOnNewest(y: Suite, w: World, w': World, s: Key) {
    s in w'.suites && exists r :: NewestOpen(w, s, r) && w'.suites[s] == Focused(y, r)
  }

  /** What a pass over a live suite comes to, once it has followed a change of the schedule. */
  ghost predicate PassFrom(y: Suite, w: World, w': World, s: Key, out: Ending, reliable: bool) {
    && s in w.suites && s in w'.suites
    && if y.status.phase == SuiteRunning then RunFollowed(y, w, w', s, out)
       else && out == Done
            && if NoneOpen(w, s)
               then && HistoryTrimmed(w, w', s) && Idled(y, w'.suites[s], w'.now)
                    && (reliable ==> IdledWhole(y, w'.suites[s], w.now, w'.now))
               else FocusedOnNewest(y, w, w', s)
  }

  /** What a pass over a live suite comes to. */
  ghost predicate Pass(w: World, w': World, s: Key, out: Ending) {
    s in w.suites && exists y :: OnlySchedule(w.suites[s], y) && PassFrom(y, w, w', s, out, false)
  }

  /** What it comes to if nothing fails. */
  ghost predicate WholePass(w: World, w': World, s: Key, out: Ending) {
    s in w.suites && PassFrom(Followed(w.suites[s]), w, w', s, out, true)
  }

  ghost predicate OldestOpen(w: World, s: Key, r: Key) {
    OpenRun(w, s, r) && forall q :: OpenRun(w, s, q) ==> Stamp(w, r) <= Stamp(w, q)
  }

  /** The pass has left the suite focused on one of its oldest unfinished runs. */
  ghost predicate FocusedOnOldest(w: World, w': World, s: Key) {
    s in w.suites && s in w'.suites && exists r :: OldestOpen(w, s, r) && IsFocused(w.suites[s], w'.suites[s], r)
  }

  /** All unfinished runs of the suite were created in the same second. */
  ghost predicate OneSecond(w: World, s: Key) {
    forall q, r :: OpenRun(w, s, q) && OpenRun(w, s, r) ==> Stamp(w, q) == Stamp(w, r)
  }

  /** A pass focuses the suite on an oldest unfinished run if and only if these were all created in the same second. */
  lemma FocusesOnOldest(w: World, w': World, s: Key, out: Ending)
    requires Pass(w, w', s, out) && !SuiteIsRunning(w, s) && !NoneOpen(w, s)
    ensures FocusedOnOldest(w, w', s) <==> OneSecond(w, s)
  {
    var y :| OnlySchedule(w.suites[s], y) && PassFrom(y, w, w', s, out, false);
    var r :| NewestOpen(w, s, r) && w'.suites[s] == Focused(y, r);
    assert IsFocused(w.suites[s], w'.suites[s], r);
    if OneSecond(w, s) { assert OldestOpen(w, s, r); }
  }

  /** The suite was not running, and had no unfinished run. */
  ghost predicate WasIdle(w: World, s: Key) { s in w.suites && !SuiteIsRunning(w, s) && NoneOpen(w, s) }

  /** After a pass without failures an idle suite shows a schedule exactly if one is asked for that parses. */
  lemma ShowsSchedule(w: World, w': World, s: Key, out: Ending)
    requires WholePass(w, w', s, out) && WasIdle(w, s)
    ensures IsTrue(w'.suites[s].status.conditions, HasSchedule)
            <==> w.suites[s].spec.schedule.Cron? && w.suites[s].spec.schedule.parses
  {
  }

  /** Such a pass answers a trigger by hand if the suite is idle, and otherwise leaves it for later. */
  lemma AnswersByHand(w: World, w': World, s: Key, out: Ending)
    requires WholePass(w, w', s, out) && s in w.suites && w.suites[s].needsRun
    ensures var x, x' := w.suites[s], w'.suites[s];
            if WasIdle(w, s)
            then !x'.needsRun && x'.status.phase == SuiteRunning && x'.account.triggers == x.account.triggers + 1
            else x'.needsRun && x'.account.triggers == x.account.triggers
  {
    FollowedOnlySchedule(w.suites[s]);
  }

  /** An idle suite with this next time under an unchanged schedule that parses, which no user has asked to run. */
  ghost predicate Expects(w: World, s: Key, v: nat) {
    && WasIdle(w, s) && !w.suites[s].needsRun && w.suites[s].status.nextRun == Some(v)
    && Parses(w.suites[s].spec.schedule) && w.suites[s].activeSchedule == w.suites[s].spec.schedule
  }

  /**
   A pass without failures triggers such a suite if it decides from its next time to ten seconds after it. The schedule
   triggers it then only; before, the time stays, and after, one that lies ahead takes its place unless a release
   triggers.
   */
  lemma FiresForTenSeconds(w: World, w': World, s: Key, out: Ending, v: nat)
    requires WholePass(w, w', s, out) && Expects(w, s, v)
    ensures var x, x' := w.suites[s], w'.suites[s];
            && (v <= w'.now <= v + 10_000_000_000 ==> x'.status.phase == SuiteRunning)
            && (x'.account.scheduled != x.account.scheduled ==> v <= w'.now <= v + 10_000_000_000)
            && (x'.status.phase == SuiteRunning || w'.now < v ==> x'.status.nextRun == Some(v))
            && (x'.status.phase != SuiteRunning ==> x'.status.nextRun.Some? && w'.now < x'.status.nextRun.value)
  {
  }

  /** A pass over a deleted suite sweeps its runs, or the suite itself if there are none. */
  ghost predicate Dismantled(w: World, w': World, s: Key) {
    && w'.birth == w.birth
    && (forall c :: c in w.meta && ChildOf(w, c, s) ==> Swept(w, w', c, TestSuiteController))
    && if forall c :: c in w.meta ==> !ChildOf(w, c, s) then Swept(w, w', s, TestSuiteController)
       else s in w.meta && s in w'.meta && w'.meta[s] == w.meta[s]
  }

  lemma AllRunsSwept(w: World, w': World, s: Key, runs: seq<Obj<Run>>)
    requires WellBorn(w) && s.kind == SuiteKind && Runs(w, s, runs) && runs != [] && s in w.meta
    requires Attempted(w, w', runs, |runs|, TestSuiteController, {})
    ensures Dismantled(w, w', s)
  {
    forall c | c in w.meta && ChildOf(w, c, s) ensures Swept(w, w', c, TestSuiteController) {
      var i :| 0 <= i < |runs| && runs[i].key == c;
    }
    assert RunOf(w, s, runs[0]);
  }

  // ----- what precedes the pass

  /** The other live objects are as they were, and of the suite only finalizers and the schedule have changed. */
  ghost predicate Prepared(w: World, w': World, s: Key) {
    && s.kind == SuiteKind && s in w.suites && s in w'.suites && Live(w, s) && Live(w', s)
    && w' == w.(meta := w'.meta, suites := w.suites[s := w'.suites[s]])
    && OnlySchedule(w.suites[s], w'.suites[s])
    && (forall k :: k != s && Live(w, k) ==> k in w'.meta && w'.meta[k] == w.meta[k])
    && (forall k :: Live(w', k) ==> Live(w, k))
  }

  lemma SameRuns(w: World, w': World, s: Key)
    requires Prepared(w, w', s)
    ensures forall r :: OpenRun(w', s, r) <==> OpenRun(w, s, r)
    ensures forall k :: Stamp(w', k) == Stamp(w, k)
  {
    assert forall k: Key :: k.kind == RunKind ==> (Live(w', k) <==> Live(w, k));
  }

  lemma HistoryDone(w: World, w1: World, w2: World, s: Key)
    requires HistoryTrimmed(w, w1, s) && w2.meta == w1.meta
    ensures HistoryTrimmed(w, w2, s)
  {
    var limit := w.suites[s].spec.historyLimit;
    var order :| RunOrder(w, s, order) && TrimmedTo(w, w1, order, limit);
    assert TrimmedTo(w, w2, order, limit);
  }

  lemma IdleSince(w: World, w1: World, w2: World, s: Key)
    requires s in w.suites && s in w1.suites && s in w2.suites && w1.birth == w.birth && w1.meta == w.meta
    requires w1.suites[s] == Patched(w.suites[s], w.suites[s].status.(phase := w1.suites[s].status.phase))
    requires HistoryTrimmed(w1, w2, s) && Idled(w1.suites[s], w2.suites[s], w2.now)
    ensures HistoryTrimmed(w, w2, s) && Idled(w.suites[s], w2.suites[s], w2.now)
  {
    SameHistory(w, w1, w2, s);
  }

  lemma IdledWholeSince(y: Suite, phase: SuitePhase, x': Suite, before: nat, now: nat)
    requires IdledWhole(Patched(y, y.status.(phase := phase)), x', before, now)
    ensures IdledWhole(y, x', before, now)
  {
    var y1 := Patched(y, y.status.(phase := phase));
    assert ReadyFor(y1, x'.status.nextRun) == ReadyFor(y, x'.status.nextRun);
    if NextTimeOf(y1, x'.status.nextRun, before) && exists reason :: FiredWhole(y1, x', reason, now) {
      var reason :| FiredWhole(y1, x', reason, now);
      assert FiredWhole(y, x', reason, now);
    }
  }

  /** The schedule of a ready suite has been set, and the copy knows its next time. */
  ghost predicate SetFrom(w: World, w': World, o: Obj<Suite>, reliable: bool) {
    && o.key in w.suites && o.key in w'.suites && w.now <= w'.now
    && var x, x' := w.suites[o.key], w'.suites[o.key];
       && x.status.phase == SuiteReady && x.status.current == None
       && OnlySchedule(x, x') && ScheduleSet(x, x', w'.now)
       && (Parses(x.spec.schedule) ==> o.body.status.nextRun.Some?)
       && (o.body.status.nextRun.Some? ==> Scheduling(w', o))
       && (reliable ==>
             && Exact(w', o) && o.body == Recomputed(x, o.body.status.nextRun)
             && NextTimeOf(x, o.body.status.nextRun, w.now))
  }

  /** The next time that the suite was given or kept, and what was then decided, make up the whole pass. */
  lemma WholeInTwo(w: World, w1: World, w2: World, o: Obj<Suite>, reason: Option<Reason>)
    requires SetFrom(w, w1, o, true) && o.key in w2.suites && w1.now <= w2.now && Decided(w1, w2, o, reason)
    ensures IdledWhole(w.suites[o.key], w2.suites[o.key], w.now, w2.now)
  {
    var y, x' := w.suites[o.key], w2.suites[o.key];
    if reason.Some? { assert FiredWhole(y, x', reason.value, w2.now); } else { assert StillWaits(y, x', w2.now); }
  }

  lemma IdledInTwo(w: World, w1: World, w2: World, o: Obj<Suite>, reason: Option<Reason>, reliable: bool)
    requires SetFrom(w, w1, o, reliable) && o.key in w2.suites && Decided(w1, w2, o, reason)
    ensures Idled(w.suites[o.key], w2.suites[o.key], w2.now)
  {
  }

  /** What has been written until the schedule is set. */
  ghost predicate ScheduleWritten(early: seq<Event>, late: seq<Event>, s: Key, x: Suite, next: Option<nat>,
      reliable: bool)
  {
    && NoneFired(early, late, s) && (x.spec.schedule == NoSchedule ==> NoneRecorded(early, late, s))
    && (reliable ==> Recorded(early, late, s, true))
    && (reliable && x.status.nextRun == None && next.Some? ==>
          Written(early, late, OfSuite(ScheduleNext(s, next.value))))
  }

  lemma ScheduleWrites(a: seq<Event>, b: seq<Event>, c: seq<Event>, s: Key, x: Suite, next: Option<nat>, reliable: bool,
      ended: bool)
    requires ScheduleWritten(a, b, s, x, next, reliable)
    requires NoneRecorded(b, c, s) && FiresFor(b, c, s, next) && (ended ==> ResetIsFired(b, c, s))
    ensures PassWrites(a, c, s, x, reliable, ended)
  {
    NoneToRecord(b, c, s, true);
    if reliable { RecordedInTwo(a, b, c, s, true); }
    if ended { ResetLater(a, b, c, s); }
    if reliable && x.status.nextRun == None {
      if next.Some? {
        ComputedThenFired(a, b, c, s, next.value);
      } else {
        NoneFiresAnew(b, c, s);
        FiresAnewLater(a, b, c, s);
      }
    }
  }

  lemma FollowedOnlySchedule(x: Suite)
    ensures OnlySchedule(x, Followed(x))
  {
    assert x.status.conditions[HasSchedule := false] - {HasSchedule} == x.status.conditions - {HasSchedule};
  }

  lemma SameHistory(w: World, w1: World, w2: World, s: Key)
    requires w1.birth == w.birth && s in w.suites && s in w1.suites && w1.suites[s].spec == w.suites[s].spec
    requires forall k: Key :: k.kind == RunKind && (Live(w, k) || Live(w1, k)) ==>
               k in w.meta && k in w1.meta && w1.meta[k] == w.meta[k]
    requires HistoryTrimmed(w1, w2, s)
    ensures HistoryTrimmed(w, w2, s)
  {
    var limit := w.suites[s].spec.historyLimit;
    var order :| RunOrder(w1, s, order) && TrimmedTo(w1, w2, order, limit);
    forall k: Key ensures k in order <==> k.kind == RunKind && Live(w, k) && ChildOf(w, k, s) {}
    forall i | 0 <= i < |order|
      ensures order[i] in w1.meta && order[i] in w.meta && w1.meta[order[i]] == w.meta[order[i]]
    {
      assert order[i] in order;
    }
    assert RunOrder(w, s, order) && TrimmedTo(w, w2, order, limit);
  }

  lemma PassSince(y: Suite, w: World, w1: World, w2: World, s: Key, out: Ending, reliable: bool)
    requires Prepared(w, w1, s) && PassFrom(y, w1, w2, s, out, reliable)
    ensures PassFrom(y, w, w2, s, out, reliable)
  {
    SameRuns(w, w1, s);
    if y.status.phase == SuiteRunning {
      FollowedSince(y, w, w1, w2, s, out);
    } else if NoneOpen(w, s) {
      assert NoneOpen(w1, s);
      SameHistory(w, w1, w2, s);
    } else {
      assert !NoneOpen(w1, s);
      var r :| NewestOpen(w1, s, r) && w2.suites[s] == Focused(y, r);
      assert NewestOpen(w, s, r);
    }
  }

  lemma FollowedSince(y: Suite, w: World, w1: World, w2: World, s: Key, out: Ending)
    requires Prepared(w, w1, s) && RunFollowed(y, w1, w2, s, out)
    ensures RunFollowed(y, w, w2, s, out)
  {
    if y.status.current.None? {
      var r :| StartedWith(w1, w2, s, r) && w2.suites[s] == Tracking(y, r);
      assert StartedWith(w, w2, s, r);
    } else {
      var r := y.status.current.value;
      assert r.kind == RunKind ==> (Live(w1, r) <==> Live(w, r));
    }
  }

  lemma FocusIsNarrow(w: World, w': World, o: Obj<Suite>, o': Obj<Suite>, runs: seq<Obj<Run>>, n: nat)
    requires n <= |runs| && FocusUnderway(w, w', o, o', runs, n)
    ensures PhaseOnly(w, w', o.key)
    ensures w'.birth == w.birth && w'.meta == w.meta
  {
  }

  /** The suite is focused on the newest unfinished run, or there was none and nothing has changed. */
  ghost predicate FocusEnded(w: World, w': World, o: Obj<Suite>, o': Obj<Suite>, runs: seq<Obj<Run>>) {
    && o'.key == o.key && o.key in w.suites && o.key in w'.suites
    && if o'.body.status.phase == SuiteRunning
       then && FocusedOnNewest(w.suites[o.key], w, w', o.key) && Exact(w', o') && LiveRuns(w', o.key, runs)
            && w'.suites[o.key].account.awaiting == None && Holds(w', o.key, TestSuiteController)
            && o'.body.status.current.Some? && OpenRun(w', o.key, o'.body.status.current.value)
       else && w' == w && o' == o && NoneOpen(w, o.key)
            && forall i :: 0 <= i < |runs| ==> runs[i].body.phase.IsFinal()
  }

  /** The loop ends with the newest unfinished run, or it has changed nothing. */
  lemma FocusEnds(w: World, w': World, o: Obj<Suite>, o': Obj<Suite>, runs: seq<Obj<Run>>)
    requires FocusUnderway(w, w', o, o', runs, |runs|) && (Exact(w, o) || Cleared(w, o)) && LiveRuns(w, o.key, runs)
    requires ByAge(w, runs)
    requires o.body.status.phase != SuiteRunning && o.body.account.awaiting == None
    requires Holds(w, o.key, TestSuiteController)
    ensures FocusEnded(w, w', o, o', runs)
  {
    LastOpenIsNewest(w, o.key, runs);
    var j := LastOpen(runs, |runs|);
    if j.Some? {
      var r := runs[j.value].key;
      assert RunOf(w, o.key, runs[j.value]);
      assert NewestOpen(w, o.key, r) && w'.suites[o.key] == Focused(w.suites[o.key], r);
      RunsStayListed(w, w', o.key, runs);
    }
  }

  lemma PhaseOnlySince(w: World, w1: World, w2: World, s: Key)
    requires PhaseOnly(w, w1, s) && PhaseOnly(w1, w2, s) && w1.birth == w.birth
    requires w1.meta == w.meta
    ensures PhaseOnly(w, w2, s)
  {
  }

  lemma FocusedThenFollowed(y: Suite, w: World, w1: World, w2: World, s: Key, out: Ending, reliable: bool)
    requires FocusedOnNewest(y, w, w1, s) && s in w.suites && y.status.phase != SuiteRunning
    requires RunFollowed(w1.suites[s], w1, w2, s, out)
    requires w1.suites[s].status.current.Some? && OpenRun(w1, s, w1.suites[s].status.current.value)
    ensures PassFrom(y, w, w2, s, out, reliable)
  {
    var r :| NewestOpen(w, s, r) && w1.suites[s] == Focused(y, r);
    assert OpenRun(w, s, r) && w2.suites[s] == Focused(y, r);
  }

  lemma RunsCleanable(w: World, s: Key, runs: seq<Obj<Run>>)
    requires Runs(w, s, runs)
    ensures AllCleanable(w, runs, TestSuiteController)
  {
    forall o | o in runs ensures Cleanable(w, o, TestSuiteController) && o.key.kind in {RunKind, TestKind} {
      var i :| 0 <= i < |runs| && runs[i] == o;
      assert RunOf(w, s, runs[i]);
    }
  }

  /** Compaction leaves the list of the live runs, and the live objects as they were. */
  lemma CompactedRuns(w: World, w': World, s: Key, runs: seq<Obj<Run>>)
    requires Runs(w, s, runs) && w' == w.(meta := w'.meta) && LivesKept(w, w')
    ensures forall sorted ::
              multiset(sorted) == multiset(Compacted(runs)) && KeysDiffer(sorted) ==> LiveRuns(w', s, sorted)
    ensures KeysDiffer(Compacted(runs))
  {
    KeysDifferCompacted(runs);
    forall sorted: seq<Obj<Run>> | multiset(sorted) == multiset(Compacted(runs)) && KeysDiffer(sorted)
        ensures LiveRuns(w', s, sorted) {
      SurvivingRuns(w, w', s, runs, sorted);
    }
  }

  lemma SurvivingRuns(w: World, w': World, s: Key, runs: seq<Obj<Run>>, sorted: seq<Obj<Run>>)
    requires Runs(w, s, runs) && w' == w.(meta := w'.meta) && LivesKept(w, w')
    requires multiset(sorted) == multiset(Compacted(runs)) && KeysDiffer(sorted)
    ensures LiveRuns(w', s, sorted)
  {
    forall i | 0 <= i < |sorted| ensures RunOf(w', s, sorted[i]) && !sorted[i].meta.deleting {
      assert sorted[i] in multiset(Compacted(runs));
      CompactedMembers(runs, sorted[i]);
      var j :| 0 <= j < |runs| && runs[j] == sorted[i];
      assert RunOf(w, s, runs[j]);
    }
    forall k | Live(w', k) && ChildOf(w', k, s) && k.kind == RunKind ensures k in KeysOf(sorted) {
      var j :| 0 <= j < |runs| && runs[j].key == k;
      assert RunOf(w, s, runs[j]);
      CompactedMembers(runs, runs[j]);
      assert runs[j] in multiset(sorted);
      var i :| 0 <= i < |sorted| && sorted[i] == runs[j];
      assert sorted[i].key == k;
    }
  }

  lemma RunsStayListed(w: World, w': World, s: Key, runs: seq<Obj<Run>>)
    requires LiveRuns(w, s, runs) && w'.birth == w.birth && w'.meta == w.meta && w'.runs == w.runs
    ensures LiveRuns(w', s, runs)
  {
    forall i | 0 <= i < |runs| ensures RunOf(w', s, runs[i]) && !runs[i].meta.deleting {
      assert RunOf(w, s, runs[i]);
    }
  }

  function RunKeys(runs: seq<Obj<Run>>): (ks: seq<Key>)
    ensures |ks| == |runs| && forall i :: 0 <= i < |ks| ==> ks[i] == runs[i].key
  {
    seq(|runs|, i requires 0 <= i < |runs| => runs[i].key)
  }

  lemma ListIsOrder(w: World, s: Key, runs: seq<Obj<Run>>)
    requires LiveRuns(w, s, runs) && ByAge(w, runs)
    ensures RunOrder(w, s, RunKeys(runs))
  {
    var order := RunKeys(runs);
    forall k ensures k in order <==> k.kind == RunKind && Live(w, k) && ChildOf(w, k, s) {
      if k in order {
        var i :| 0 <= i < |order| && order[i] == k;
        assert RunOf(w, s, runs[i]);
      }
      if k.kind == RunKind && Live(w, k) && ChildOf(w, k, s) {
        var i :| 0 <= i < |runs| && runs[i].key == k;
        assert order[i] == k;
      }
    }
  }

  lemma SurplusCleanable(w: World, s: Key, runs: seq<Obj<Run>>, n: nat, oldest: seq<Obj<Run>>)
    requires LiveRuns(w, s, runs) && n <= |runs| && s.kind == SuiteKind && Stored(w, s) && s in w.suites
    requires !SuiteIsRunning(w, s)
    requires forall i :: 0 <= i < |runs| ==> runs[i].body.phase.IsFinal()
    requires oldest == runs[..n]
    ensures KeysDiffer(oldest) && s !in KeysOf(oldest)
    ensures forall i :: 0 <= i < |oldest| ==>
              && Cleanable(w, oldest[i], TestSuiteController) && StandingReason(w, oldest[i].key, s)
              && Live(w, oldest[i].key)
  {
    forall i | 0 <= i < n
      ensures Cleanable(w, oldest[i], TestSuiteController) && StandingReason(w, oldest[i].key, s)
      ensures Live(w, oldest[i].key)
    {
      assert RunOf(w, s, runs[i]);
    }
  }

  lemma OnlyLiveTrimmed(w: World, w': World, oldest: seq<Obj<Run>>, failed: set<Key>)
    requires Attempted(w, w', oldest, |oldest|, TestSuiteController, failed)
    requires forall i :: 0 <= i < |oldest| ==> Live(w, oldest[i].key)
    ensures MarkedKept(w, w')
  {
    assert oldest[..|oldest|] == oldest;
  }

  lemma TrimmedHistory(w: World, w': World, s: Key, runs: seq<Obj<Run>>, oldest: seq<Obj<Run>>)
    requires LiveRuns(w, s, runs) && ByAge(w, runs) && s in w.suites
    requires oldest == runs[..Surplus(runs, w.suites[s].spec.historyLimit)]
    requires Attempted(w, w', oldest, |oldest|, TestSuiteController, {})
    ensures HistoryTrimmed(w, w', s)
  {
    var limit := w.suites[s].spec.historyLimit;
    var order := RunKeys(runs);
    ListIsOrder(w, s, runs);
    assert oldest[..|oldest|] == oldest;
    forall i | 0 <= i < |order|
      ensures if i + limit < |order| then Swept(w, w', order[i], TestSuiteController)
              else order[i] in w.meta && order[i] in w'.meta && w'.meta[order[i]] == w.meta[order[i]]
    {
      assert RunOf(w, s, runs[i]);
      if i < |oldest| {
        assert oldest[i] == runs[i] && AttemptedOne(w, w', oldest[i].key, TestSuiteController, {});
      } else {
        assert order[i] !in KeysOf(oldest);
      }
    }
    assert TrimmedTo(w, w', order, limit);
  }

  lemma WithinHistory(w: World, s: Key, runs: seq<Obj<Run>>)
    requires LiveRuns(w, s, runs) && ByAge(w, runs) && s in w.suites && |runs| <= w.suites[s].spec.historyLimit
    ensures HistoryTrimmed(w, w, s)
  {
    var order := RunKeys(runs);
    ListIsOrder(w, s, runs);
    forall i | 0 <= i < |order| ensures order[i] in w.meta { assert order[i] in order; }
    assert TrimmedTo(w, w, order, w.suites[s].spec.historyLimit);
  }

  /** A pass over the runs of the suite, in whatever order they were listed, that released what such a pass releases. */
  ghost predicate Compacts(w: World, w': World, s: Key) {
    exists runs :: Runs(w, s, runs) && ReleasedFrom(w, w', Released(runs), TestSuiteController)
  }

  /** The deleted runs that the pass released are swept, and the other deleted runs are as they were. */
  ghost predicate ReleasedAmong(w: World, w': World, s: Key, runs: seq<Obj<Run>>) {
    forall c :: DeletedRun(w, s, c) ==>
      if c in KeysOf(Released(runs)) then Swept(w, w', c, TestSuiteController)
      else c in w'.meta && w'.meta[c] == w.meta[c]
  }

  ghost predicate DeletedRun(w: World, s: Key, c: Key) { Deleting(w, c) && ChildOf(w, c, s) && c.kind == RunKind }

  /** A reconciliation of a live suite does to the deleted runs what one pass over them does, in the order listed. */
  ghost predicate LetsGo(w: World, w': World, s: Key) {
    exists runs :: Runs(w, s, runs) && ReleasedAmong(w, w', s, runs)
  }

  lemma LetsGoByPass(w: World, w1: World, w2: World, s: Key)
    requires Compacts(w, w1, s) && MarkedKept(w1, w2) && w1.birth == w.birth && w.meta.Keys <= w.birth.Keys
    ensures LetsGo(w, w2, s)
  {
    var runs: seq<Obj<Run>> :| Runs(w, s, runs) && ReleasedFrom(w, w1, Released(runs), TestSuiteController);
    var gone := Released(runs);
    forall c | DeletedRun(w, s, c)
      ensures if c in KeysOf(gone) then Swept(w, w2, c, TestSuiteController)
              else c in w2.meta && w2.meta[c] == w.meta[c]
    {
      if c in KeysOf(gone) {
        var i :| 0 <= i < |gone| && gone[i].key == c;
        assert Swept(w, w1, gone[i].key, TestSuiteController);
      }
    }
    assert ReleasedAmong(w, w2, s, runs);
  }

  lemma LetsGoSince(w: World, w1: World, w2: World, s: Key)
    requires Prepared(w, w1, s) && MetaOnlyOf(w, w1, s) && LetsGo(w1, w2, s)
    ensures LetsGo(w, w2, s)
  {
    var runs: seq<Obj<Run>> :| Runs(w1, s, runs) && ReleasedAmong(w1, w2, s, runs);
    forall i | 0 <= i < |runs| ensures RunOf(w, s, runs[i]) { assert RunOf(w1, s, runs[i]); }
    forall c | DeletedRun(w, s, c)
      ensures if c in KeysOf(Released(runs)) then Swept(w, w2, c, TestSuiteController)
              else c in w2.meta && w2.meta[c] == w.meta[c]
    {
      assert DeletedRun(w1, s, c);
    }
    assert Runs(w, s, runs) && ReleasedAmong(w, w2, s, runs);
  }

  lemma SuitesOnlySince(w: World, w1: World, w2: World, s: Key)
    requires SuitesOnly(w, w1, s) && SuitesOnly(w1, w2, s)
    ensures SuitesOnly(w, w2, s)
  {
  }

  ghost predicate LivesKept(w: World, w': World) {
    && (forall k :: Live(w, k) ==> k in w'.meta && w'.meta[k] == w.meta[k])
    && (forall k :: Live(w', k) ==> Live(w, k))
  }

  ghost predicate MetaOnlyOf(w: World, w': World, s: Key) {
    forall k :: k != s ==> (k in w'.meta <==> k in w.meta) && (k in w.meta ==> w'.meta[k] == w.meta[k])
  }

  lemma RunsUnmoved(w: World, w': World, s: Key, runs: seq<Obj<Run>>)
    requires Prepared(w, w', s) && MetaOnlyOf(w, w', s) && Runs(w, s, runs)
    ensures Runs(w', s, runs)
  {
    forall i | 0 <= i < |runs| ensures RunOf(w', s, runs[i]) {
      assert RunOf(w, s, runs[i]);
    }
  }

  lemma Tidied(w: World, w': World, s: Key)
    requires s.kind == SuiteKind && s in w.suites && Live(w, s) && w' == w.(meta := w'.meta) && LivesKept(w, w')
    ensures Prepared(w, w', s)
  {
  }

  lemma LivesKeptByRelease(w: World, w': World, s: Key, runs: seq<Obj<Run>>, gone: seq<Obj<Run>>)
    requires Runs(w, s, runs) && gone <= Released(runs) && ReleasedFrom(w, w', gone, TestSuiteController)
    ensures LivesKept(w, w')
  {
    ReleasedAreDeleted(runs);
    forall i | 0 <= i < |gone| ensures Deleting(w, gone[i].key) && !Live(w', gone[i].key) {
      assert gone[i] == Released(runs)[i] && gone[i] in runs && Swept(w, w', gone[i].key, TestSuiteController);
      var j :| 0 <= j < |runs| && runs[j] == gone[i];
      assert RunOf(w, s, runs[j]);
    }
    forall k | Live(w, k) ensures k in w'.meta && w'.meta[k] == w.meta[k] { assert k !in KeysOf(gone); }
    forall k | Live(w', k) ensures k !in KeysOf(gone) {}
  }

  lemma ListedIsFinal(w: World, s: Key, runs: seq<Obj<Run>>, r: Key)
    requires LiveRuns(w, s, runs) && forall i :: 0 <= i < |runs| ==> runs[i].body.phase.IsFinal()
    requires r.kind == RunKind && Live(w, r) && ChildOf(w, r, s)
    ensures !RunInProgress(w, r)
  {
    var i :| 0 <= i < |runs| && runs[i].key == r;
    assert RunOf(w, s, runs[i]);
  }

  /** Where all live runs are final none is open, also after some of them are deleted. */
  lemma NoneLeftOpen(w: World, w': World, s: Key, runs: seq<Obj<Run>>)
    requires LiveRuns(w, s, runs) && forall i :: 0 <= i < |runs| ==> runs[i].body.phase.IsFinal()
    requires w' == w.(meta := w'.meta) && MarkedKept(w, w')
    ensures NoneOpen(w', s)
  {
    forall r ensures !OpenRun(w', s, r) {
      if r.kind == RunKind && Live(w, r) && ChildOf(w, r, s) { ListedIsFinal(w, s, runs, r); }
    }
  }

  function FirstPhase(phase: SuitePhase): SuitePhase { if phase == SuiteUnset then SuitePending else phase }

  function Copies(w: World, ks: seq<Key>): (runs: seq<Obj<Run>>)
    requires forall i :: 0 <= i < |ks| ==> HasRunBody(w, ks[i])
    ensures |runs| == |ks|
    ensures forall i :: 0 <= i < |ks| ==> HasRunBody(w, ks[i]) && runs[i] == Obj(ks[i], w.meta[ks[i]], w.runs[ks[i]])
  {
    seq(|ks|, i requires 0 <= i < |ks| && HasRunBody(w, ks[i]) => Obj(ks[i], w.meta[ks[i]], w.runs[ks[i]]))
  }

  lemma HaveRunBodies(w: World, s: Key, ks: seq<Key>)
    requires WellFormed(w) && forall k :: k in ks <==> k in w.meta && ChildOf(w, k, s) && k.kind == RunKind
    ensures forall i :: 0 <= i < |ks| ==> HasRunBody(w, ks[i])
  {
    forall i | 0 <= i < |ks| ensures HasRunBody(w, ks[i]) {
      assert ks[i] in ks && HasBody(w, ks[i]);
    }
  }

  lemma ListsRuns(w: World, s: Key, ks: seq<Key>)
    requires Distinct(ks) && forall k :: k in ks <==> k in w.meta && ChildOf(w, k, s) && k.kind == RunKind
    requires forall i :: 0 <= i < |ks| ==> HasRunBody(w, ks[i])
    ensures Runs(w, s, Copies(w, ks))
  {
    var runs := Copies(w, ks);
    forall i | 0 <= i < |runs| ensures RunOf(w, s, runs[i]) { assert ks[i] in ks; }
    forall k | k in w.meta && ChildOf(w, k, s) && k.kind == RunKind ensures k in KeysOf(runs) {
      var i :| 0 <= i < |ks| && ks[i] == k;
      assert runs[i].key == k;
    }
  }

  class TestSuiteReconciler {
    const api: Cluster

    constructor (api: Cluster)
      ensures this.api == api
    {
      this.api := api;
    }

    /** A time after `t` at which the schedule fires next. */
    method NextTime(expr: string, t: nat) returns (at: nat)
      ensures t < at
    {
      var d: nat :| d > 0;
      at := t + d;
    }

    /** The runs of a suite, read from the store. */
    method ListRuns(s: Key) returns (runs: seq<Obj<Run>>)
      requires api.Valid()
      ensures Runs(api.w, s, runs)
    {
      var ks := api.List(s, RunKind);
      assert WellFormed(api.w) by { api.IsReachable(); }
      HaveRunBodies(api.w, s, ks);
      runs := Copies(api.w, ks);
      ListsRuns(api.w, s, ks);
    }

    /**
     Sends what differs between the copy and `orig`, the copy as it was before. The store merges it into the
     suite it has, which makes of it what `e` says, and the answer replaces the copy.
     */
    method Patch(o: Obj<Suite>, orig: SuiteStatus, e: SuiteWrite) returns (o': Obj<Suite>, ok: bool)
      requires api.Valid() && CopyOf(api.w, o) && GuardSuite(api.w, e) && e.s == o.key && !e.CreateRun?
      requires MergeStatus(api.w.suites[o.key].status, orig, o.body.status) == NextSuite(api.w.suites[o.key], e).status
      modifies api
      ensures api.Valid() && old(api.log) <= api.log
      ensures ok ==> api.w == old(api.w).(suites := old(api.w).suites[o.key := NextSuite(old(api.w).suites[o.key], e)])
      ensures ok ==> o' == o.(body := api.w.suites[o.key]) && Exact(api.w, o') && api.log == old(api.log) + [OfSuite(e)]
      ensures !ok ==> api.w == old(api.w) && o' == o && api.log == old(api.log)
      ensures api.reliable ==> ok
    {
      var r := api.Write(o.key, OfSuite(e));
      ok := r == Ok;
      o' := if ok then o.(body := api.w.suites[o.key]) else o;
    }

    /** Makes NextRun follow a schedule that was changed or removed. That clearing it failed is not noticed. */
    method FollowSchedule(o: Obj<Suite>) returns (o': Obj<Suite>, ok: bool)
      requires api.Valid() && Exact(api.w, o)
      modifies api
      ensures api.Valid() && NoneFired(old(api.log), api.log, o.key)
      ensures api.reliable ==> Recorded(old(api.log), api.log, o.key, MayRecord(o.body))
      ensures OnlySuite(old(api.w), api.w, o.key) && OnlySchedule(old(api.w).suites[o.key], api.w.suites[o.key])
      ensures o'.key == o.key && (ok ==> InOrder(api.w, o', api.reliable))
      ensures ok && o.body.spec.schedule != o.body.activeSchedule ==> o'.body.status.nextRun == None
      ensures api.reliable ==> api.w.suites[o.key] == Followed(old(api.w).suites[o.key])
      ensures api.w.now == old(api.w).now
      ensures o.body.spec.schedule.Cron?
              && (o.body.spec.schedule == o.body.activeSchedule || o.body.status.nextRun == None) ==>
                ok && api.w == old(api.w) && o' == o
      ensures ok && o.body.spec.schedule == NoSchedule ==> Unscheduled(api.w.suites[o.key])
      ensures api.reliable ==> ok
    {
      o', ok := o, true;
      FollowedOnlySchedule(o.body);
      var orig := o.body.status;
      if o.body.spec.schedule.Cron? {
        if o.body.spec.schedule != o.body.activeSchedule && o.body.status.nextRun.Some? {
          o' := o.(body := Patched(o.body, orig.(nextRun := None)));
          var fine;
          o', fine := Patch(o', orig, ClearNextRun(o.key));
        }
        NoneToRecord(old(api.log), api.log, o.key, MayRecord(o.body));
      } else {
        o', ok := ForgetSchedule(o);
      }
    }

    /** Forgets a schedule that was removed. The annotation goes first, and NextRun after it. */
    method ForgetSchedule(o: Obj<Suite>) returns (o': Obj<Suite>, ok: bool)
      requires api.Valid() && Exact(api.w, o) && o.body.spec.schedule == NoSchedule
      modifies api
      ensures api.Valid() && NoneFired(old(api.log), api.log, o.key)
      ensures Recorded(old(api.log), api.log, o.key, MayRecord(o.body))
      ensures OnlySuite(old(api.w), api.w, o.key) && api.w.now == old(api.w).now && o'.key == o.key
      ensures OnlySchedule(old(api.w).suites[o.key], api.w.suites[o.key])
      ensures ok ==> Exact(api.w, o') && o'.body == Followed(o.body)
      ensures api.reliable ==> ok
    {
      o', ok := o, true;
      FollowedOnlySchedule(o.body);
      var orig := o.body.status;
      NoneToRecord(old(api.log), api.log, o.key, MayRecord(o.body));
      if o.body.activeSchedule.Cron? {
        o', ok := Patch(o, orig, Annotate(o.key));
        if !ok { return; }
        RecordsOne(old(api.log), old(api.w), api.log, o.key);
      }
      ghost var recorded := api.log;
      o' := o'.(body := Patched(o'.body, Unset(orig)));
      o', ok := Patch(o', orig, DropSchedule(o.key));
      NoneToRecord(recorded, api.log, o.key, MayRecord(o.body));
      RecordedInTwo(old(api.log), recorded, api.log, o.key, MayRecord(o.body));
    }

    /**
     Focuses a suite that is not running on its unfinished runs, one after the other. The loop goes on after
     the first, so it ends with the newest.
     */
    method FocusOnRuns(o: Obj<Suite>, runs: seq<Obj<Run>>) returns (o': Obj<Suite>, ok: bool, ghost n: nat)
      requires api.Valid() && (Exact(api.w, o) || Cleared(api.w, o)) && LiveRuns(api.w, o.key, runs)
      requires o.body.status.phase != SuiteRunning && o.body.status.current == None
      modifies api
      ensures api.Valid() && Uneventful(old(api.log), api.log, o.key)
      ensures n <= |runs| && FocusUnderway(old(api.w), api.w, o, o', runs, n) && (ok ==> n == |runs|)
      ensures api.reliable ==> ok
    {
      o', ok, n := o, true, 0;
      for i := 0 to |runs|
        invariant api.Valid() && Uneventful(old(api.log), api.log, o.key) && ok && n == i
        invariant FocusUnderway(old(api.w), api.w, o, o', runs, i)
      {
        o', ok := FocusIfOpen(o', runs, i, o, old(api.w));
        if !ok { return; }
        n := n + 1;
      }
    }

    /** One turn of that loop. */
    method FocusIfOpen(o: Obj<Suite>, runs: seq<Obj<Run>>, i: nat, ghost o0: Obj<Suite>, ghost w0: World)
      returns (o': Obj<Suite>, ok: bool)
      requires api.Valid() && i < |runs|
      requires (Exact(w0, o0) || Cleared(w0, o0)) && LiveRuns(w0, o0.key, runs)
      requires o0.body.status.phase != SuiteRunning && o0.body.status.current == None
      requires FocusUnderway(w0, api.w, o0, o, runs, i)
      modifies api
      ensures api.Valid() && Uneventful(old(api.log), api.log, o0.key)
      ensures FocusUnderway(w0, api.w, o0, o', runs, if ok then i + 1 else i)
      ensures api.reliable ==> ok
    {
      if !runs[i].body.phase.IsFinal() {
        o', ok := FocusOn(o, runs, i, o0, w0);
      } else {
        PassFinal(w0, api.w, o0, o, runs, i);
        return o, true;
      }
    }

    method FocusOn(o: Obj<Suite>, runs: seq<Obj<Run>>, i: nat, ghost o0: Obj<Suite>, ghost w0: World)
        returns (o': Obj<Suite>, ok: bool)
      requires api.Valid() && i < |runs| && !runs[i].body.phase.IsFinal()
      requires (Exact(w0, o0) || Cleared(w0, o0)) && LiveRuns(w0, o0.key, runs)
      requires o0.body.status.phase != SuiteRunning && o0.body.status.current == None
      requires FocusUnderway(w0, api.w, o0, o, runs, i)
      modifies api
      ensures api.Valid() && Uneventful(old(api.log), api.log, o0.key) && o'.key == o0.key
      ensures FocusUnderway(w0, api.w, o0, o', runs, if ok then i + 1 else i)
      ensures api.reliable ==> ok
    {
      MayFocus(w0, api.w, o0, o, runs, i);
      FocusMerges(w0, api.w, o0, o, runs, i);
      var orig := o.body.status;
      ghost var before := api.w;
      o' := o.(body := Patched(o.body, orig.(phase := SuiteRunning, current := Some(runs[i].key))));
      o', ok := Patch(o', orig, Focus(o.key, runs[i].key));
      if ok { OneMoreFocused(w0, before, api.w, o0, o, o', runs, i); } else { o' := o; }
    }

    /** Removes the oldest runs past the history limit. */
    method TrimHistory(o: Obj<Suite>, runs: seq<Obj<Run>>) returns (ok: bool)
      requires api.Valid() && CopyOf(api.w, o) && o.body.spec == api.w.suites[o.key].spec
      requires LiveRuns(api.w, o.key, runs) && ByAge(api.w, runs)
      requires !SuiteIsRunning(api.w, o.key) && forall i :: 0 <= i < |runs| ==> runs[i].body.phase.IsFinal()
      modifies api
      ensures api.Valid() && Uneventful(old(api.log), api.log, o.key)
      ensures api.w == old(api.w).(meta := api.w.meta) && o.key in api.w.meta
      ensures api.w.meta[o.key] == old(api.w).meta[o.key]
      ensures MarkedKept(old(api.w), api.w)
      ensures ok ==> HistoryTrimmed(old(api.w), api.w, o.key)
      ensures api.reliable ==> ok
    {
      ok := true;
      var l, m := |runs|, o.body.spec.historyLimit;
      if l > m {
        var offset := l - m;
        var oldest := runs[..offset];
        SurplusCleanable(api.w, o.key, runs, offset, oldest);
        var modified;
        ghost var failed;
        modified, ok, failed := CleanUpAll(api, TestSuiteController, oldest, o.key);
        MetaIsUneventful(old(api.log), api.log, o.key);
        OnlyLiveTrimmed(old(api.w), api.w, oldest, failed);
        if ok { TrimmedHistory(old(api.w), api.w, o.key, runs, oldest); }
      } else {
        WithinHistory(api.w, o.key, runs);
      }
    }

    /** Records the schedule that is followed, and when it fires next. A failure to record a bad one is not noticed. */
    method SetSchedule(o: Obj<Suite>) returns (o': Obj<Suite>, ok: bool)
      requires api.Valid() && InOrder(api.w, o, api.reliable)
      requires o.body.status.phase == SuiteReady && o.body.status.current == None
      modifies api
      ensures api.Valid()
      ensures ScheduleWritten(old(api.log), api.log, o.key, o.body, o'.body.status.nextRun, api.reliable)
      ensures OnlySuite(old(api.w), api.w, o.key) && OnlySchedule(old(api.w).suites[o.key], api.w.suites[o.key])
      ensures o'.key == o.key
      ensures ok ==> Exact(api.w, o') || Dropped(api.w, o')
      ensures ok ==> SetFrom(old(api.w), api.w, o', api.reliable)
      ensures ok && o.body.spec.schedule.Cron? ==> (o'.body.status.nextRun.Some? <==> o.body.spec.schedule.parses)
      ensures api.reliable && o.body.spec.schedule.Cron? && !o.body.spec.schedule.parses ==>
                api.w.suites[o.key].status.nextRun == None
      ensures api.reliable ==> ok
    {
      o', ok := o, true;
      NoneToRecord(old(api.log), api.log, o.key, true);
      if o.body.spec.schedule.Cron? {
        o', ok := RecordSchedule(o);
        if !ok { return; }
        ghost var recorded := api.log;
        o', ok := ComputeNext(o');
        NoneToRecord(recorded, api.log, o.key, true);
        if api.reliable { RecordedInTwo(old(api.log), recorded, api.log, o.key, true); }
      }
    }

    /** Notes the schedule asked for as the active one. */
    method RecordSchedule(o: Obj<Suite>) returns (o': Obj<Suite>, ok: bool)
      requires api.Valid() && InOrder(api.w, o, api.reliable) && o.body.spec.schedule.Cron?
      modifies api
      ensures api.Valid() && NoneFired(old(api.log), api.log, o.key)
      ensures api.reliable ==> Recorded(old(api.log), api.log, o.key, true)
      ensures OnlySuite(old(api.w), api.w, o.key) && api.w.now == old(api.w).now && o'.key == o.key
      ensures ok ==> Exact(api.w, o') && o'.body == old(api.w).suites[o.key].(activeSchedule := o.body.spec.schedule)
      ensures !ok ==> api.w == old(api.w)
      ensures api.reliable ==> ok
    {
      o', ok := o, true;
      NoneToRecord(old(api.log), api.log, o.key, true);
      if o.body.activeSchedule != o.body.spec.schedule {
        o', ok := Patch(o, o.body.status, Annotate(o.key));
        if ok { RecordsOne(old(api.log), old(api.w), api.log, o.key); }
      }
    }

    /** Computes the next time of the active schedule unless it is known, or drops a schedule that does not parse. */
    method ComputeNext(o: Obj<Suite>) returns (o': Obj<Suite>, ok: bool)
      requires api.Valid() && Exact(api.w, o) && SuiteIsReady(api.w, o.key)
      requires o.body.spec.schedule.Cron? && o.body.spec.schedule == o.body.activeSchedule
      modifies api
      ensures api.Valid() && Uneventful(old(api.log), api.log, o.key)
      ensures ok && o.body.status.nextRun == None && o'.body.status.nextRun.Some? ==>
                Written(old(api.log), api.log, OfSuite(ScheduleNext(o.key, o'.body.status.nextRun.value)))
      ensures OnlySuite(old(api.w), api.w, o.key) && OnlySchedule(o.body, api.w.suites[o.key]) && o'.key == o.key
      ensures ok ==> Exact(api.w, o') || Dropped(api.w, o')
      ensures ok ==> o'.body == Recomputed(o.body, o'.body.status.nextRun)
      ensures ok ==> NextTimeOf(o.body, o'.body.status.nextRun, old(api.w).now)
      ensures ok && Parses(o.body.spec.schedule) ==> Exact(api.w, o')
      ensures ok ==> api.w.suites[o.key].activeSchedule == o.body.spec.schedule
      ensures ok && Parses(o.body.spec.schedule) && o.body.status.nextRun == None ==>
                api.w.now < o'.body.status.nextRun.value
      ensures api.reliable ==> ok && Exact(api.w, o')
    {
      o', ok := o, true;
      var orig := o.body.status;
      if o.body.spec.schedule.parses {
        if o.body.status.nextRun == None {
          o', ok := ScheduleFirst(o);
        } else {
          HasScheduleKnown(o);
        }
      } else {
        o' := o.(body := Patched(o.body, Unset(orig)));
        var fine;
        o', fine := Patch(o', orig, DropSchedule(o.key));
      }
    }

    /** A suite that has a next time shows that it has a schedule. */
    lemma HasScheduleKnown(o: Obj<Suite>)
      requires api.Valid() && Exact(api.w, o) && o.body.status.nextRun.Some?
      ensures o.body.status.conditions[HasSchedule := true] == o.body.status.conditions
    {
      api.IsReachable();
      assert StateSound(api.w.suites[o.key]);
    }

    method ScheduleFirst(o: Obj<Suite>) returns (o': Obj<Suite>, ok: bool)
      requires api.Valid() && Exact(api.w, o) && SuiteIsReady(api.w, o.key)
      requires o.body.spec.schedule.Cron? && o.body.spec.schedule.parses
      requires o.body.spec.schedule == o.body.activeSchedule
      requires o.body.status.nextRun == None
      modifies api
      ensures api.Valid() && Uneventful(old(api.log), api.log, o.key)
      ensures ok ==>
                && o'.body.status.nextRun.Some? && old(api.w).now < o'.body.status.nextRun.value
                && o'.body == Recomputed(o.body, o'.body.status.nextRun)
                && Written(old(api.log), api.log, OfSuite(ScheduleNext(o.key, o'.body.status.nextRun.value)))
      ensures OnlySuite(old(api.w), api.w, o.key) && OnlySchedule(old(api.w).suites[o.key], api.w.suites[o.key])
      ensures o'.key == o.key
      ensures ok ==> Exact(api.w, o') && Scheduling(api.w, o') && api.w.now < o'.body.status.nextRun.value
      ensures api.reliable ==> ok
    {
      var orig := o.body.status;
      var now := api.Now();
      var at := NextTime(o.body.spec.schedule.expr, now);
      o' := o.(body := Patched(o.body, orig.(nextRun := Some(at), conditions := orig.conditions[HasSchedule := true])));
      o', ok := Patch(o', orig, ScheduleNext(o.key, at));
      if ok { assert api.log[|api.log| - 1] == OfSuite(ScheduleNext(o.key, at)); }
    }

    /** Makes the suite Running without a run. `orig` is the copy's status from before the trigger was acknowledged. */
    method Fire(o: Obj<Suite>, orig: SuiteStatus, reason: Reason) returns (ok: bool)
      requires api.Valid() && Exact(api.w, o) && GuardSuite(api.w, Trigger(o.key, reason))
      requires o.body.status.current == None
      requires orig == o.body.status || Dropped(api.w, o.(body := Patched(o.body, orig)))
      modifies api
      ensures api.Valid() && old(api.log) <= api.log
      ensures OnlySuite(old(api.w), api.w, o.key)
      ensures if ok then Fired(old(api.w).suites[o.key], api.w.suites[o.key], reason) else api.w == old(api.w)
      ensures api.log == if ok then old(api.log) + [OfSuite(Trigger(o.key, reason))] else old(api.log)
      ensures FiresFor(old(api.log), api.log, o.key, old(api.w).suites[o.key].status.nextRun)
      ensures reason != Scheduled ==> forall at :: FiresFor(old(api.log), api.log, o.key, at)
      ensures api.w.now == old(api.w).now
      ensures api.reliable ==> ok
    {
      var now := o.body.status;
      now := now.(phase := SuiteRunning, current := None, conditions := now.conditions[NeedsRun := true]);
      var o' := o.(body := Patched(o.body, now));
      o', ok := Patch(o', orig, Trigger(o.key, reason));
      if ok {
        FiresOne(old(api.log), old(api.w), api.log, o.key, reason);
        if reason != Scheduled {
          forall at ensures FiresFor(old(api.log), api.log, o.key, at) {
            FiresOther(old(api.log), api.log, o.key, reason, at);
          }
        }
      } else {
        forall at ensures FiresFor(old(api.log), api.log, o.key, at) { NoneToFire(old(api.log), api.log, o.key, at); }
      }
    }

    /** Uses up a trigger by hand. If the suite then fails to become Running, the trigger is forgotten. */
    method FireByHand(o: Obj<Suite>) returns (ok: bool)
      requires api.Valid() && (Exact(api.w, o) || Dropped(api.w, o)) && o.body.needsRun
      requires o.body.status.phase == SuiteReady && o.body.status.current == None && NoneOpen(api.w, o.key)
      modifies api
      ensures api.Valid() && NoneRecorded(old(api.log), api.log, o.key) && OnlySuite(old(api.w), api.w, o.key)
      ensures forall at :: FiresFor(old(api.log), api.log, o.key, at)
      ensures ok ==> ResetIsFired(old(api.log), api.log, o.key)
      ensures ok ==> Fired(old(api.w).suites[o.key].(needsRun := false), api.w.suites[o.key], Manual)
      ensures !ok ==> || api.w.suites[o.key] == old(api.w).suites[o.key]
                      || TriggerForgotten(old(api.w).suites[o.key], api.w.suites[o.key])
      ensures ResetOnly(old(api.w).suites[o.key], api.w.suites[o.key], old(api.log), api.log, o.key)
      ensures api.reliable ==> ok
    {
      var orig := o.body.status;
      var o';
      o', ok := Patch(o, orig, ResetTrigger(o.key));
      if !ok { return; }
      StillNoneOpen(old(api.w), api.w, o.key);
      ghost var reset := api.log;
      ok := Fire(o', orig, Manual);
      assert api.log[|reset| - 1] == OfSuite(ResetTrigger(o.key));
      if ok { assert api.log[|reset|] == OfSuite(Trigger(o.key, Manual)); }
    }

    /** Decides whether the suite is triggered: by hand, by a Helm release, or by its schedule, in this order. */
    method DecideTrigger(o: Obj<Suite>) returns (reason: Option<Reason>, ok: bool)
      requires api.Valid() && (Exact(api.w, o) || Dropped(api.w, o))
      requires o.body.status.nextRun.Some? ==> Scheduling(api.w, o)
      requires o.body.status.phase == SuiteReady && o.body.status.current == None && NoneOpen(api.w, o.key)
      modifies api
      ensures api.Valid() && NoneRecorded(old(api.log), api.log, o.key)
      ensures FiresFor(old(api.log), api.log, o.key, o.body.status.nextRun)
      ensures ok ==> ResetIsFired(old(api.log), api.log, o.key)
      ensures OnlySuite(old(api.w), api.w, o.key)
      ensures ok ==> Decided(old(api.w), api.w, o, reason)
      ensures !ok ==> || api.w.suites[o.key] == old(api.w).suites[o.key]
                      || TriggerForgotten(old(api.w).suites[o.key], api.w.suites[o.key])
      ensures ResetOnly(old(api.w).suites[o.key], api.w.suites[o.key], old(api.log), api.log, o.key)
      ensures api.reliable ==> ok
    {
      var orig := o.body.status;
      var helm: bool := *;
      if o.body.needsRun {
        ok := FireByHand(o);
        return if ok then Some(Manual) else None, ok;
      } else if helm {
        // The release is acknowledged by an annotation that this model leaves out; the answer replaces the copy.
        var fine: bool := *;
        if !fine && !api.reliable { return None, false; }
        ok := Fire(o.(body := api.w.suites[o.key]), orig, Helm);
        return Some(Helm), ok;
      } else if o.body.status.nextRun.Some? {
        reason, ok := DecideSchedule(o);
      } else {
        return None, true;
      }
    }

    /** Waits for the scheduled time, fires within ten seconds of it, or gives up on it and schedules the next. */
    method DecideSchedule(o: Obj<Suite>) returns (reason: Option<Reason>, ok: bool)
      requires api.Valid() && Scheduling(api.w, o) && !o.body.needsRun
      requires o.body.status.phase == SuiteReady && o.body.status.current == None && NoneOpen(api.w, o.key)
      modifies api
      ensures api.Valid() && NoneRecorded(old(api.log), api.log, o.key)
      ensures FiresFor(old(api.log), api.log, o.key, o.body.status.nextRun)
      ensures OnlySuite(old(api.w), api.w, o.key)
      ensures ok ==> Decided(old(api.w), api.w, o, reason) && reason in {None, Some(Scheduled)}
      ensures !ok ==> api.w.suites[o.key] == old(api.w).suites[o.key]
      ensures !Written(old(api.log), api.log, OfSuite(ResetTrigger(o.key)))
      ensures api.reliable ==> ok
    {
      var orig := o.body.status;
      var now := api.Now();
      StillNoneOpen(old(api.w), api.w, o.key);
      ghost var ticked := api.log;
      NoneToFire(old(api.log), ticked, o.key, o.body.status.nextRun);
      var until: int := o.body.status.nextRun.value - now;
      if until > 0 {
        return None, true;
      } else if until + GRACE < 0 {
        ok := SkipTheMissed(o);
        NoneToFire(old(api.log), api.log, o.key, o.body.status.nextRun);
        return None, ok;
      } else {
        ok := Fire(o, orig, Scheduled);
        FiresLater(old(api.log), ticked, api.log, o.key, o.body.status.nextRun);
        return Some(Scheduled), ok;
      }
    }

    /** Gives up on a time that was missed. */
    method SkipTheMissed(o: Obj<Suite>) returns (ok: bool)
      requires api.Valid() && Scheduling(api.w, o) && !o.body.needsRun && NoneOpen(api.w, o.key)
      requires o.body.status.phase == SuiteReady && o.body.status.nextRun.value + GRACE < api.w.now
      modifies api
      ensures api.Valid() && Uneventful(old(api.log), api.log, o.key)
      ensures OnlySuite(old(api.w), api.w, o.key)
      ensures !ok ==> api.w.suites[o.key] == old(api.w).suites[o.key]
      ensures ok ==> && api.w.suites[o.key].status.nextRun.Some? && api.w.now < api.w.suites[o.key].status.nextRun.value
                     && var x := old(api.w).suites[o.key];
                        api.w.suites[o.key] == Patched(x, x.status.(nextRun := api.w.suites[o.key].status.nextRun))
      ensures api.reliable ==> ok
    {
      var orig := o.body.status;
      var later := api.Now();
      StillNoneOpen(old(api.w), api.w, o.key);
      var at := NextTime(o.body.spec.schedule.expr, later);
      var o' := o.(body := Patched(o.body, orig.(nextRun := Some(at))));
      o', ok := Patch(o', orig, SkipMissed(o.key, at));
    }

    /** Makes a pending suite ready. */
    method BecomeReady(o: Obj<Suite>) returns (o': Obj<Suite>, ok: bool)
      requires api.Valid() && InOrder(api.w, o, api.reliable)
      requires o.body.status.phase in {SuitePending, SuiteReady}
      modifies api
      ensures api.Valid() && Uneventful(old(api.log), api.log, o.key) && o'.key == o.key
      ensures api.w == old(api.w).(suites := api.w.suites) && PhaseOnly(old(api.w), api.w, o.key)
      ensures ok ==> InOrder(api.w, o', api.reliable) && o'.body.spec == o.body.spec
      ensures api.reliable ==> o'.body.status.nextRun == o.body.status.nextRun
      ensures ok ==> var x := old(api.w).suites[o.key];
                     api.w.suites[o.key] == Patched(x, x.status.(phase := SuiteReady))
      ensures api.reliable ==> ok
    {
      o', ok := o, true;
      if o.body.status.phase == SuitePending {
        o' := o.(body := Patched(o.body, o.body.status.(phase := SuiteReady)));
        o', ok := Patch(o', o.body.status, MarkReady(o.key));
      }
    }

    /** The pass over a suite that is not running and has no unfinished run. */
    method IsIdle(o: Obj<Suite>, runs: seq<Obj<Run>>) returns (ok: bool)
      requires api.Valid() && InOrder(api.w, o, api.reliable) && LiveRuns(api.w, o.key, runs)
      requires ByAge(api.w, runs)
      requires forall i :: 0 <= i < |runs| ==> runs[i].body.phase.IsFinal()
      requires o.body.status.phase in {SuitePending, SuiteReady} && o.body.status.current == None
      modifies api
      ensures api.Valid() && PassWrites(old(api.log), api.log, o.key, o.body, api.reliable, ok)
      ensures PhaseOnly(old(api.w), api.w, o.key)
      ensures ok ==> HistoryTrimmed(old(api.w), api.w, o.key)
      ensures ok ==> Idled(old(api.w).suites[o.key], api.w.suites[o.key], api.w.now)
      ensures api.reliable ==> IdledWhole(old(api.w).suites[o.key], api.w.suites[o.key], old(api.w).now, api.w.now)
      ensures api.reliable ==> ok
    {
      var o1;
      o1, ok := BecomeReady(o);
      if !ok {
        NothingWritten(old(api.log), api.log, o.key, o.body, api.reliable, false);
        return;
      }
      ghost var w1 := api.w;
      RunsStayListed(old(api.w), w1, o.key, runs);
      ghost var log1 := api.log;
      ok := TrimAndSchedule(o1, runs);
      PhaseOnlySince(old(api.w), w1, api.w, o.key);
      WritesLater(old(api.log), log1, api.log, o.key, o.body, o1.body, api.reliable, ok);
      if ok { IdleSince(old(api.w), w1, api.w, o.key); }
      if api.reliable {
        IdledWholeSince(old(api.w).suites[o.key], SuiteReady, api.w.suites[o.key], old(api.w).now, api.w.now);
      }
    }

    /** What a ready suite without unfinished runs goes on to do. */
    method TrimAndSchedule(o: Obj<Suite>, runs: seq<Obj<Run>>) returns (ok: bool)
      requires api.Valid() && InOrder(api.w, o, api.reliable) && LiveRuns(api.w, o.key, runs)
      requires ByAge(api.w, runs)
      requires forall i :: 0 <= i < |runs| ==> runs[i].body.phase.IsFinal()
      requires o.body.status.phase == SuiteReady && o.body.status.current == None
      modifies api
      ensures api.Valid() && PassWrites(old(api.log), api.log, o.key, o.body, api.reliable, ok)
      ensures PhaseOnly(old(api.w), api.w, o.key)
      ensures ok ==> HistoryTrimmed(old(api.w), api.w, o.key)
      ensures ok ==> Idled(old(api.w).suites[o.key], api.w.suites[o.key], api.w.now)
      ensures api.reliable ==> IdledWhole(old(api.w).suites[o.key], api.w.suites[o.key], old(api.w).now, api.w.now)
      ensures api.reliable ==> ok
    {
      ok := TrimHistory(o, runs);
      if !ok {
        NothingWritten(old(api.log), api.log, o.key, o.body, api.reliable, false);
        return;
      }
      ghost var w1, log1 := api.w, api.log;
      NoneLeftOpen(old(api.w), w1, o.key, runs);
      ok := Schedule(o);
      WritesLater(old(api.log), log1, api.log, o.key, o.body, o.body, api.reliable, ok);
      HistoryDone(old(api.w), w1, api.w, o.key);
    }

    /** What follows the history: the schedule and the triggers. */
    method Schedule(o: Obj<Suite>) returns (ok: bool)
      requires api.Valid() && InOrder(api.w, o, api.reliable)
      requires o.body.status.phase == SuiteReady && o.body.status.current == None && NoneOpen(api.w, o.key)
      modifies api
      ensures api.Valid() && PassWrites(old(api.log), api.log, o.key, o.body, api.reliable, ok)
      ensures OnlySuite(old(api.w), api.w, o.key)
      ensures api.w.suites[o.key].account.awaiting == old(api.w).suites[o.key].account.awaiting
      ensures ok ==> Idled(old(api.w).suites[o.key], api.w.suites[o.key], api.w.now)
      ensures api.reliable ==> IdledWhole(old(api.w).suites[o.key], api.w.suites[o.key], old(api.w).now, api.w.now)
      ensures api.reliable ==> ok
    {
      var o1;
      o1, ok := SetSchedule(o);
      if !ok {
        NoneReset(old(api.log), api.log, o.key);
        return;
      }
      StillNoneOpen(old(api.w), api.w, o.key);
      ok := TriggerIfDue(o1, o, old(api.w), old(api.log));
    }

    /** The second half of that: what `o0`, `w0` and `log0` were before the schedule was set. */
    method TriggerIfDue(o: Obj<Suite>, ghost o0: Obj<Suite>, ghost w0: World, ghost log0: seq<Event>) returns (ok: bool)
      requires api.Valid() && (Exact(api.w, o) || Dropped(api.w, o)) && NoneOpen(api.w, o.key)
      requires o.key in w0.suites && SetFrom(w0, api.w, o, api.reliable)
      requires ScheduleWritten(log0, api.log, o.key, o0.body, o.body.status.nextRun, api.reliable)
      modifies api
      ensures api.Valid() && PassWrites(log0, api.log, o.key, o0.body, api.reliable, ok)
      ensures OnlySuite(old(api.w), api.w, o.key)
      ensures api.w.suites[o.key].account.awaiting == w0.suites[o.key].account.awaiting
      ensures ok ==> Idled(w0.suites[o.key], api.w.suites[o.key], api.w.now)
      ensures api.reliable ==> IdledWhole(w0.suites[o.key], api.w.suites[o.key], w0.now, api.w.now)
      ensures api.reliable ==> ok
    {
      var reason;
      reason, ok := DecideTrigger(o);
      ScheduleWrites(log0, old(api.log), api.log, o.key, o0.body, o.body.status.nextRun, api.reliable, ok);
      if ok { IdledInTwo(w0, old(api.w), api.w, o, reason, api.reliable); }
      if api.reliable { WholeInTwo(w0, old(api.w), api.w, o, reason); }
    }

    method Find(runs: seq<Obj<Run>>, r: Key) returns (i: Option<nat>)
      ensures i.Some? ==> i.value < |runs| && runs[i.value].key == r
      ensures i.None? ==> r !in KeysOf(runs)
    {
      for j := 0 to |runs|
        invariant forall k :: 0 <= k < j ==> runs[k].key != r
      {
        if runs[j].key == r { return Some(j); }
      }
      return None;
    }

    /** Creates the run of a suite that needs one, and tracks it. */
    method StartRun(o: Obj<Suite>) returns (ok: bool)
      requires api.Valid() && (Exact(api.w, o) || Cleared(api.w, o))
      requires GuardCreation(api.w, o.key)
      modifies api
      ensures api.Valid() && Uneventful(old(api.log), api.log, o.key)
      ensures PhaseOnly(old(api.w), api.w, o.key)
      ensures ok ==> StartedRun(old(api.w).suites[o.key], old(api.w), api.w, o.key)
      ensures !ok ==> NotStarted(old(api.w).suites[o.key], api.w.suites[o.key])
      ensures api.reliable ==> ok
    {
      var r;
      r, ok := CreateTheRun(o.key);
      if !ok { return; }
      ok := AssignRun(o, r, old(api.w));
    }

    method CreateTheRun(s: Key) returns (r: Key, ok: bool)
      requires api.Valid() && GuardCreation(api.w, s)
      modifies api
      ensures api.Valid() && Uneventful(old(api.log), api.log, s)
      ensures if ok then RunCreated(old(api.w), api.w, s, r) else api.w == old(api.w)
      ensures api.reliable ==> ok
    {
      r := api.Generate(RunKind, s.name + "-");
      var reply := api.Write(s, OfSuite(CreateRun(r, s)));
      ok := reply == Ok;
    }

    /** Makes a run just created the one that the suite tracks. If that fails, the run stays but is forgotten. */
    method AssignRun(o: Obj<Suite>, r: Key, ghost w0: World) returns (ok: bool)
      requires api.Valid() && (Exact(w0, o) || Cleared(w0, o)) && GuardCreation(w0, o.key)
      requires RunCreated(w0, api.w, o.key, r)
      modifies api
      ensures api.Valid() && Uneventful(old(api.log), api.log, o.key)
      ensures PhaseOnly(w0, api.w, o.key)
      ensures ok ==> StartedRun(w0.suites[o.key], w0, api.w, o.key)
      ensures !ok ==> NotStarted(w0.suites[o.key], api.w.suites[o.key])
      ensures !ok ==> api.w.suites[o.key].account.losses == w0.suites[o.key].account.losses + 1
      ensures api.reliable ==> ok
    {
      var s, orig := o.key, o.body.status;
      MayAssign(w0, api.w, o, r);
      ghost var w1 := api.w;
      var o';
      o', ok := Patch(o.(body := Patched(api.w.suites[s], Assigned(orig, r))), orig, Assign(s, r));
      if ok {
        RunAssigned(w0, w1, api.w, s, r);
      } else {
        api.Note(s);
        RunForgotten(w0, w1, api.w, s, r);
      }
    }

    /** The pass over a running suite. */
    method IsRunning(o: Obj<Suite>, runs: seq<Obj<Run>>) returns (out: Ending)
      requires api.Valid() && (Exact(api.w, o) || Cleared(api.w, o)) && Holds(api.w, o.key, TestSuiteController)
      requires LiveRuns(api.w, o.key, runs)
      requires o.body.status.phase == SuiteRunning && api.w.suites[o.key].account.awaiting == None
      modifies api
      ensures api.Valid() && Uneventful(old(api.log), api.log, o.key)
      ensures PhaseOnly(old(api.w), api.w, o.key)
      ensures out != Stopped ==> RunFollowed(old(api.w).suites[o.key], old(api.w), api.w, o.key, out)
      ensures api.reliable ==> out != Stopped
    {
      if o.body.status.current == None {
        var ok := StartRun(o);
        return if ok then Done else Stopped;
      }
      var i := Find(runs, o.body.status.current.value);
      if i.None? { return RunMissing; }
      assert RunOf(api.w, o.key, runs[i.value]);
      if runs[i.value].body.phase.IsFinal() {
        var orig := o.body.status;
        var now := orig.(phase := SuiteReady, current := None, conditions := orig.conditions[RunStarted := false]);
        var o', ok := Patch(o.(body := Patched(o.body, now)), orig, Complete(o.key));
        return if ok then Done else Stopped;
      }
      return Done;
    }

    /** What the phase of a live suite asks for. */
    method ByPhase(o: Obj<Suite>, runs: seq<Obj<Run>>) returns (out: Ending)
      requires api.Valid() && InOrder(api.w, o, api.reliable) && Holds(api.w, o.key, TestSuiteController)
      requires LiveRuns(api.w, o.key, runs) && ByAge(api.w, runs)
      requires api.w.suites[o.key].account.awaiting == None
      modifies api
      ensures api.Valid() && PassWrites(old(api.log), api.log, o.key, o.body, api.reliable, out != Stopped)
      ensures PhaseOnly(old(api.w), api.w, o.key)
      ensures out != Stopped ==>
                PassFrom(old(api.w).suites[o.key], old(api.w), api.w, o.key, out, api.reliable)
      ensures api.reliable ==> out != Stopped
    {
      if o.body.status.phase == SuiteRunning {
        out := IsRunning(o, runs);
        NothingWritten(old(api.log), api.log, o.key, o.body, api.reliable, out != Stopped);
        return;
      }
      out := WithoutRun(o, runs);
    }

    /** The pass over a suite that is not running: it is focused on its unfinished runs if there are any. */
    method WithoutRun(o: Obj<Suite>, runs: seq<Obj<Run>>) returns (out: Ending)
      requires api.Valid() && InOrder(api.w, o, api.reliable) && Holds(api.w, o.key, TestSuiteController)
      requires LiveRuns(api.w, o.key, runs) && ByAge(api.w, runs) && o.body.status.phase != SuiteRunning
      requires api.w.suites[o.key].account.awaiting == None
      modifies api
      ensures api.Valid() && PassWrites(old(api.log), api.log, o.key, o.body, api.reliable, out != Stopped)
      ensures PhaseOnly(old(api.w), api.w, o.key)
      ensures out != Stopped ==>
                PassFrom(old(api.w).suites[o.key], old(api.w), api.w, o.key, out, api.reliable)
      ensures api.reliable ==> out != Stopped
    {
      TracksNone(o);
      var o1, ok, n := FocusOnRuns(o, runs);
      FocusIsNarrow(old(api.w), api.w, o, o1, runs, n);
      NothingWritten(old(api.log), api.log, o.key, o.body, api.reliable, ok);
      if !ok { return Stopped; }
      FocusEnds(old(api.w), api.w, o, o1, runs);
      out := AfterFocus(o1, runs, o, old(api.w), old(api.log));
    }

    /** What a pass goes on to do once the suite is focused, or could not be. */
    method AfterFocus(o: Obj<Suite>, runs: seq<Obj<Run>>, ghost o0: Obj<Suite>, ghost w0: World,
        ghost log0: seq<Event>)
      returns (out: Ending)
      requires api.Valid() && InOrder(w0, o0, api.reliable) && o0.body.status.current == None
      requires o0.body.status.phase != SuiteRunning
      requires LiveRuns(w0, o0.key, runs) && ByAge(w0, runs) && FocusEnded(w0, api.w, o0, o, runs)
      requires PhaseOnly(w0, api.w, o0.key) && w0.birth == api.w.birth && w0.meta == api.w.meta
      requires Uneventful(log0, api.log, o0.key)
      modifies api
      ensures api.Valid() && PassWrites(log0, api.log, o0.key, o0.body, api.reliable, out != Stopped)
      ensures PhaseOnly(w0, api.w, o0.key)
      ensures out != Stopped ==> PassFrom(w0.suites[o0.key], w0, api.w, o0.key, out, api.reliable)
      ensures api.reliable ==> out != Stopped
    {
      if o.body.status.phase == SuiteRunning {
        out := FollowFocus(o, runs, w0, w0.suites[o.key]);
        NothingWritten(log0, api.log, o.key, o0.body, api.reliable, out != Stopped);
      } else {
        out := Unfocused(o, runs, log0);
      }
    }

    /** A suite that is not running tracks no run. */
    lemma TracksNone(o: Obj<Suite>)
      requires api.Valid() && CopyOf(api.w, o) && api.w.suites[o.key].status.current == o.body.status.current
      requires api.w.suites[o.key].status.phase != SuiteRunning
      ensures o.body.status.current == None
    {
      api.IsReachable();
      assert StateSound(api.w.suites[o.key]);
    }

    /** What a pass goes on to do where there was no unfinished run to focus on. */
    method Unfocused(o: Obj<Suite>, runs: seq<Obj<Run>>, ghost log0: seq<Event>) returns (out: Ending)
      requires api.Valid() && InOrder(api.w, o, api.reliable) && LiveRuns(api.w, o.key, runs)
      requires ByAge(api.w, runs) && NoneOpen(api.w, o.key)
      requires forall i :: 0 <= i < |runs| ==> runs[i].body.phase.IsFinal()
      requires o.body.status.phase != SuiteRunning && o.body.status.current == None
      requires Uneventful(log0, api.log, o.key)
      modifies api
      ensures api.Valid() && PassWrites(log0, api.log, o.key, o.body, api.reliable, out != Stopped)
      ensures PhaseOnly(old(api.w), api.w, o.key)
      ensures out != Stopped ==>
                PassFrom(old(api.w).suites[o.key], old(api.w), api.w, o.key, out, api.reliable)
      ensures api.reliable ==> out != Stopped
    {
      var ok := FromUnset(o, runs);
      WritesLater(log0, old(api.log), api.log, o.key, o.body, o.body, api.reliable, ok);
      return if ok then Done else Stopped;
    }

    /** Goes on with the run that the suite has just been focused on. */
    method FollowFocus(o: Obj<Suite>, runs: seq<Obj<Run>>, ghost w0: World, ghost y: Suite) returns (out: Ending)
      requires api.Valid() && Exact(api.w, o) && Holds(api.w, o.key, TestSuiteController)
      requires LiveRuns(api.w, o.key, runs)
      requires o.body.status.phase == SuiteRunning && api.w.suites[o.key].account.awaiting == None
      requires o.body.status.current.Some? && OpenRun(api.w, o.key, o.body.status.current.value)
      requires FocusedOnNewest(y, w0, api.w, o.key) && PhaseOnly(w0, api.w, o.key) && y.status.phase != SuiteRunning
      requires w0.birth == api.w.birth && w0.meta == api.w.meta
      modifies api
      ensures api.Valid() && Uneventful(old(api.log), api.log, o.key)
      ensures PhaseOnly(w0, api.w, o.key)
      ensures out != Stopped ==> PassFrom(y, w0, api.w, o.key, out, api.reliable)
      ensures api.reliable ==> out != Stopped
    {
      out := IsRunning(o, runs);
      PhaseOnlySince(w0, old(api.w), api.w, o.key);
      if out != Stopped { FocusedThenFollowed(y, w0, old(api.w), api.w, o.key, out, api.reliable); }
    }

    /** Makes a suite without a phase pending. */
    method BecomePending(o: Obj<Suite>) returns (o': Obj<Suite>, ok: bool)
      requires api.Valid() && InOrder(api.w, o, api.reliable)
      requires o.body.status.phase != SuiteRunning
      modifies api
      ensures api.Valid() && Uneventful(old(api.log), api.log, o.key) && o'.key == o.key
      ensures api.w == old(api.w).(suites := api.w.suites) && PhaseOnly(old(api.w), api.w, o.key)
      ensures ok ==> InOrder(api.w, o', api.reliable) && o'.body.spec == o.body.spec
      ensures api.reliable ==> o'.body.status.nextRun == o.body.status.nextRun
      ensures ok ==> var x := old(api.w).suites[o.key];
                     api.w.suites[o.key] == Patched(x, x.status.(phase := FirstPhase(x.status.phase)))
      ensures api.reliable ==> ok
    {
      o', ok := o, true;
      if o.body.status.phase == SuiteUnset {
        o' := o.(body := Patched(o.body, o.body.status.(phase := SuitePending)));
        o', ok := Patch(o', o.body.status, MarkPending(o.key));
      }
    }

    /** Gives a suite without a phase one, and goes on as for one that is not running. */
    method FromUnset(o: Obj<Suite>, runs: seq<Obj<Run>>) returns (ok: bool)
      requires api.Valid() && InOrder(api.w, o, api.reliable) && LiveRuns(api.w, o.key, runs)
      requires ByAge(api.w, runs)
      requires forall i :: 0 <= i < |runs| ==> runs[i].body.phase.IsFinal()
      requires o.body.status.phase != SuiteRunning && o.body.status.current == None
      modifies api
      ensures api.Valid() && PassWrites(old(api.log), api.log, o.key, o.body, api.reliable, ok)
      ensures PhaseOnly(old(api.w), api.w, o.key)
      ensures ok ==> HistoryTrimmed(old(api.w), api.w, o.key)
      ensures ok ==> Idled(old(api.w).suites[o.key], api.w.suites[o.key], api.w.now)
      ensures api.reliable ==> IdledWhole(old(api.w).suites[o.key], api.w.suites[o.key], old(api.w).now, api.w.now)
      ensures api.reliable ==> ok
    {
      var o1;
      o1, ok := BecomePending(o);
      if !ok {
        NothingWritten(old(api.log), api.log, o.key, o.body, api.reliable, false);
        return;
      }
      ghost var w1 := api.w;
      RunsStayListed(old(api.w), w1, o.key, runs);
      ghost var log1, phase := api.log, api.w.suites[o.key].status.phase;
      ok := IsIdle(o1, runs);
      PhaseOnlySince(old(api.w), w1, api.w, o.key);
      WritesLater(old(api.log), log1, api.log, o.key, o.body, o1.body, api.reliable, ok);
      if ok { IdleSince(old(api.w), w1, api.w, o.key); }
      if api.reliable {
        IdledWholeSince(old(api.w).suites[o.key], phase, api.w.suites[o.key], old(api.w).now, api.w.now);
      }
    }

    /** Removes the runs of a deleted suite; when none are left, lets the suite go. */
    method IsDeleted(o: Obj<Suite>, runs: seq<Obj<Run>>) returns (ok: bool)
      requires api.Valid() && o.key.kind == SuiteKind && Deleting(api.w, o.key) && o.meta == api.w.meta[o.key]
      requires Runs(api.w, o.key, runs)
      modifies api
      ensures api.Valid() && old(api.log) <= api.log && api.w.suites == old(api.w).suites
      ensures ok ==> Dismantled(old(api.w), api.w, o.key)
      ensures api.reliable ==> ok
    {
      var s := o.key;
      assert WellBorn(api.w) by { api.IsReachable(); }
      if |runs| > 0 {
        forall i | 0 <= i < |runs|
          ensures Cleanable(api.w, runs[i], TestSuiteController) && StandingReason(api.w, runs[i].key, s)
        {
          assert RunOf(api.w, s, runs[i]);
        }
        assert s !in KeysOf(runs);
        var modified;
        ghost var failed;
        modified, ok, failed := CleanUpAll(api, TestSuiteController, runs, s);
        if ok { AllRunsSwept(old(api.w), api.w, s, runs); }
      } else {
        forall c | c in api.w.meta ensures !ChildOf(api.w, c, s) {
          assert ChildOf(api.w, c, s) ==> c in KeysOf(runs);
        }
        var modified, err := CleanUp(api, TestSuiteController, o);
        ok := err == Ok;
      }
    }

    /** Makes sure that a live suite has the finalizer, and that NextRun follows a change of its schedule. */
    method Prepare(o: Obj<Suite>) returns (o': Obj<Suite>, ok: bool)
      requires api.Valid() && Exact(api.w, o)
      modifies api
      ensures api.Valid() && NoneFired(old(api.log), api.log, o.key) && o'.key == o.key
      ensures api.reliable ==> Recorded(old(api.log), api.log, o.key, MayRecord(o.body))
      ensures ok ==> InOrder(api.w, o', api.reliable)
      ensures SuitesOnly(old(api.w), api.w, o.key)
      ensures api.reliable ==> api.w.suites[o.key] == Followed(old(api.w).suites[o.key])
      ensures ok ==> Prepared(old(api.w), api.w, o.key) && Holds(api.w, o.key, TestSuiteController)
      ensures MetaOnlyOf(old(api.w), api.w, o.key)
      ensures api.reliable ==> ok
    {
      var patched, err: Reply;
      patched, err, o' := AddFinalizer(api, TestSuiteController, o);
      ghost var held := api.log;
      MetaIsUneventful(old(api.log), held, o.key);
      if err != Ok { return o, false; }
      o', ok := FollowSchedule(o');
      NoneToRecord(old(api.log), held, o.key, MayRecord(o.body));
      if api.reliable { RecordedInTwo(old(api.log), held, api.log, o.key, MayRecord(o.body)); }
    }

    /** Lets go of deleted runs and lists the live ones, the oldest first. */
    method Tidy(s: Key, runs: seq<Obj<Run>>) returns (sorted: seq<Obj<Run>>, ok: bool)
      requires api.Valid() && Runs(api.w, s, runs)
      modifies api
      ensures api.Valid() && Uneventful(old(api.log), api.log, s)
      ensures api.w == old(api.w).(meta := api.w.meta) && LivesKept(old(api.w), api.w)
      ensures ok ==> LiveRuns(api.w, s, sorted) && ByAge(api.w, sorted)
      ensures ok ==> Compacts(old(api.w), api.w, s)
      ensures api.reliable ==> ok
    {
      sorted := [];
      var items := new Obj<Run>[|runs|](i requires 0 <= i < |runs| => runs[i]);
      assert items[..] == runs;
      RunsCleanable(api.w, s, runs);
      var n;
      ghost var gone;
      n, ok, gone := Compact(api, TestSuiteController, items);
      MetaIsUneventful(old(api.log), api.log, s);
      LivesKeptByRelease(old(api.w), api.w, s, runs, gone);
      if !ok { return; }
      CompactedRuns(old(api.w), api.w, s, runs);
      sorted := SortByAge(api.w, items[..n]);
    }

    /** What follows the preparation of a live suite. */
    method TidyAndPass(o: Obj<Suite>, runs: seq<Obj<Run>>) returns (out: Ending)
      requires api.Valid() && InOrder(api.w, o, api.reliable) && Holds(api.w, o.key, TestSuiteController)
      requires Runs(api.w, o.key, runs) && api.w.suites[o.key].account.awaiting == None
      modifies api
      ensures api.Valid() && PassWrites(old(api.log), api.log, o.key, o.body, api.reliable, out != Stopped)
      ensures SuitesOnly(old(api.w), api.w, o.key)
      ensures out != Stopped ==>
                PassFrom(old(api.w).suites[o.key], old(api.w), api.w, o.key, out, api.reliable)
      ensures out != Stopped ==> LetsGo(old(api.w), api.w, o.key) && Holds(api.w, o.key, TestSuiteController)
      ensures api.reliable ==> out != Stopped
    {
      assert WellBorn(api.w) by { api.IsReachable(); }
      var sorted, ok := Tidy(o.key, runs);
      ghost var w1, log1 := api.w, api.log;
      if !ok {
        NothingWritten(old(api.log), log1, o.key, o.body, api.reliable, false);
        return Stopped;
      }
      Tidied(old(api.w), w1, o.key);
      out := ByPhase(o, sorted);
      WritesLater(old(api.log), log1, api.log, o.key, o.body, o.body, api.reliable, out != Stopped);
      if out != Stopped {
        PassSince(w1.suites[o.key], old(api.w), w1, api.w, o.key, out, api.reliable);
        LetsGoByPass(old(api.w), w1, api.w, o.key);
      }
    }

    /** The pass over a live suite. */
    method IsLive(o: Obj<Suite>, runs: seq<Obj<Run>>) returns (out: Ending)
      requires api.Valid() && Exact(api.w, o) && Runs(api.w, o.key, runs) && o.body.account.awaiting == None
      modifies api
      ensures api.Valid() && old(api.log) <= api.log
      ensures SuitesOnly(old(api.w), api.w, o.key)
      ensures out != Stopped ==> Pass(old(api.w), api.w, o.key, out) && LetsGo(old(api.w), api.w, o.key)
      ensures out != Stopped ==>
                ResetIsFired(old(api.log), api.log, o.key) && Holds(api.w, o.key, TestSuiteController)
      ensures api.reliable ==>
                && WholePass(old(api.w), api.w, o.key, out)
                && WholeWrites(old(api.log), api.log, o.key, old(api.w).suites[o.key])
      ensures api.reliable ==> out != Stopped
    {
      var o1, ok := Prepare(o);
      if !ok { return Stopped; }
      ghost var w1, log1 := api.w, api.log;
      RunsUnmoved(old(api.w), w1, o.key, runs);
      out := TidyAndPass(o1, runs);
      SuitesOnlySince(old(api.w), w1, api.w, o.key);
      if out != Stopped {
        LetsGoSince(old(api.w), w1, api.w, o.key);
        PassSince(w1.suites[o.key], old(api.w), w1, api.w, o.key, out, api.reliable);
        ResetLater(old(api.log), log1, api.log, o.key);
      }
      if api.reliable {
        WritesAfterFollowing(old(api.log), log1, api.log, o.key, w1, api.w, o.body, o1.body);
      }
    }

    /** One reconciliation of a TestSuite. */
    method Reconcile(s: Key) returns (out: Ending)
      requires api.Valid() && s.kind == SuiteKind && (s in api.w.suites ==> api.w.suites[s].account.awaiting == None)
      modifies api
      ensures api.Valid() && old(api.log) <= api.log
      ensures s !in old(api.w).meta ==> api.w == old(api.w)
      ensures s in old(api.w).meta ==> SuitesOnly(old(api.w), api.w, s)
      ensures Deleting(old(api.w), s) && out != Stopped ==> Dismantled(old(api.w), api.w, s)
      ensures Live(old(api.w), s) && out != Stopped ==> Pass(old(api.w), api.w, s, out) && LetsGo(old(api.w), api.w, s)
      ensures Live(old(api.w), s) && out != Stopped ==>
                ResetIsFired(old(api.log), api.log, s) && Holds(api.w, s, TestSuiteController)
      ensures api.reliable && Live(old(api.w), s) ==>
                && WholePass(old(api.w), api.w, s, out)
                && WholeWrites(old(api.log), api.log, s, old(api.w).suites[s])
      ensures api.reliable ==> out != Stopped
    {
      if s !in api.w.meta { return Done; }
      assert s in api.w.suites by {
        api.IsReachable();
        assert HasBody(api.w, s);
      }
      var suite := Obj(s, api.w.meta[s], api.w.suites[s]);
      var runs := ListRuns(s);
      if suite.meta.deleting {
        var ok := IsDeleted(suite, runs);
        return if ok then Done else Stopped;
      }
      out := IsLive(suite, runs);
    }
  }
}
