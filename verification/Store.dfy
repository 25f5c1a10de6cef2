/**
 The cluster's object store and the writes that reach it.

 A `World` is everything the API server keeps. `meta` holds the objects that are stored now;
 the facts fixed at creation (`birth`) and the bodies stay after an object is gone, so a
 later state still tells what a vanished Test concluded.
 */
module Store {
  import opened Prelude

  datatype Kind = SuiteKind | RunKind | TestKind | PodKind

  datatype Key = Key(kind: Kind, name: string)

  datatype Finalizer = TestSuiteController | TestRunController | TestController | Foreign(name: string)

  datatype Meta = Meta(finalizers: seq<Finalizer>, deleting: bool)

  datatype Birth = Birth(owner: Option<Key>, created: nat)

  datatype Policy = Always | Never | OnFailure

  // ----- bodies

  datatype SuitePhase = SuiteUnset | SuitePending | SuiteReady | SuiteRunning
  datatype RunPhase = RunUnset | RunStarting | RunRunning | RunPassed | RunFailed
  {
    predicate IsFinal() { RunPassed? || RunFailed? }
  }
  datatype TestPhase = TestUnset | TestPending | TestStarting | TestRunning | TestPassed | TestFailed
  {
    predicate IsFinal() { TestPassed? || TestFailed? }
  }
  datatype PodPhase = PodPending | PodRunning | PodSucceeded | PodFailed | PodUnknown
  {
    predicate IsFinished() { PodSucceeded? || PodFailed? }
  }

  /** A schedule expression with the verdict of the cron parser on it. */
  datatype Schedule = NoSchedule | Cron(expr: string, parses: bool)

  datatype Condition = NeedsRun | RunStarted | HasSchedule

  datatype SuiteSpec = SuiteSpec(historyLimit: nat, retention: Policy, templates: seq<string>, schedule: Schedule)
  datatype SuiteStatus = SuiteStatus(
    phase: SuitePhase, current: Option<Key>, nextRun: Option<nat>, conditions: map<Condition, bool>)
  /** What the suite reconciler has done for one suite since the suite was created. */
  datatype Account = Account(
    triggers: nat, scheduled: nat, creations: nat, assignments: nat, losses: nat, adoptions: nat, completions: nat,
    awaiting: Option<Key>)

  /** `activeSchedule` is an annotation; `account` is history that the cluster does not store. */
  datatype Suite = Suite(
    spec: SuiteSpec, activeSchedule: Schedule, needsRun: bool, status: SuiteStatus, account: Account)

  datatype TestResult = TestResult(description: string, test: Key, passed: bool)
  datatype Run = Run(retention: Policy, templates: seq<string>, phase: RunPhase, results: seq<TestResult>)
  datatype Test = Test(generateName: string, retention: Policy, phase: TestPhase)
  datatype Pod = Pod(phase: PodPhase)

  datatype World = World(
    birth: map<Key, Birth>,
    meta: map<Key, Meta>,
    suites: map<Key, Suite>,
    runs: map<Key, Run>,
    tests: map<Key, Test>,
    pods: map<Key, Pod>,
    now: nat,
    outside: set<Key>)  // the objects that a user has asked to delete

  const NO_ACCOUNT := Account(0, 0, 0, 0, 0, 0, 0, None)

  const EMPTY := World(map[], map[], map[], map[], map[], map[], 0, {})

  const SECOND: nat := 1_000_000_000  // time is counted in nanoseconds

  const GRACE: nat := 10 * SECOND

  // ----- reading a world

  predicate Stored(w: World, k: Key) { k in w.meta }

  predicate Live(w: World, k: Key) { k in w.meta && !w.meta[k].deleting }

  predicate Deleting(w: World, k: Key) { k in w.meta && w.meta[k].deleting }

  predicate Holds(w: World, k: Key, f: Finalizer) { k in w.meta && f in w.meta[k].finalizers }

  predicate ChildOf(w: World, c: Key, p: Key) { c in w.birth && w.birth[c].owner == Some(p) }

  /** The finalizer that an object's own controller puts on it. */
  function OwnFinalizer(k: Kind): Finalizer {
    match k
    case SuiteKind => TestSuiteController
    case RunKind => TestRunController
    case TestKind => TestController
    case PodKind => TestController
  }

  /** The finalizer that the controller of an object's owner clears from it. */
  function OwnersFinalizer(k: Kind): Finalizer {
    match k
    case SuiteKind => TestSuiteController
    case RunKind => TestSuiteController
    case TestKind => TestRunController
    case PodKind => TestController
  }

  predicate Fits(child: Kind, parent: Kind) {
    match child
    case SuiteKind => false
    case RunKind => parent == SuiteKind
    case TestKind => parent == RunKind
    case PodKind => parent == TestKind
  }

  predicate RunInProgress(w: World, r: Key) { r in w.runs && !w.runs[r].phase.IsFinal() }

  predicate TestInProgress(w: World, t: Key) { t in w.tests && !w.tests[t].phase.IsFinal() }

  /** A final TestRun or Test whose retention policy asks for its children to be removed. */
  predicate Purges(w: World, p: Key) {
    match p.kind
    case RunKind =>
      && p in w.runs && w.runs[p].phase.IsFinal()
      && (w.runs[p].retention == Never || (w.runs[p].retention == OnFailure && w.runs[p].phase == RunPassed))
    case TestKind =>
      && p in w.tests && w.tests[p].phase.IsFinal()
      && (w.tests[p].retention == Never || (w.tests[p].retention == OnFailure && w.tests[p].phase == TestPassed))
    case _ => false
  }

  // ----- the names of generated Tests

  function Digit(d: nat): char
    requires d < 10
  {
    ('0' as int + d) as char
  }

  function Decimal(n: nat): (s: string)
    ensures |s| > 0 && s[|s| - 1] == Digit(n % 10)
  {
    if n < 10 then [Digit(n)] else Decimal(n / 10) + [Digit(n % 10)]
  }

  function GenerateName(run: Key, index: nat): string { run.name + "-" + Decimal(index) + "-" }

  /** The index that the TestRun reconciler reads back: the last character but one, if it is a digit. */
  function ParseIndex(name: string): (i: Option<nat>)
    ensures i.Some? ==> i.value < 10
  {
    if |name| >= 4 && '0' <= name[|name| - 2] <= '9'
    then Some(name[|name| - 2] as int - '0' as int) else None
  }

  function Slot(w: World, t: Key): Option<nat> {
    if t in w.tests then ParseIndex(w.tests[t].generateName) else None
  }

  predicate ValidSlot(w: World, t: Key, n: nat) { Slot(w, t).Some? && Slot(w, t).value < n }

  // ----- the slot mapping and the tally of a list of Tests

  /** The indices that some Test in the list names. */
  ghost predicate Named(w: World, items: seq<Key>, p: nat) {
    exists i :: 0 <= i < |items| && Slot(w, items[i]) == Some(p)
  }

  /** No index named in the list reaches past the list, so indexing the list by it is safe. */
  ghost predicate InBounds(w: World, items: seq<Key>, n: nat) {
    forall i :: 0 <= i < |items| && ValidSlot(w, items[i], n) ==> Slot(w, items[i]).value < |items|
  }

  /** What slot `p` holds after the mapping loop: the list entry at position `p`, once any entry names `p`. */
  ghost function Mapped(w: World, items: seq<Key>, p: nat): Option<Key> {
    if Named(w, items, p) && p < |items| then Some(items[p]) else None
  }

  ghost function MappedSlots(w: World, items: seq<Key>, n: nat): (s: seq<Option<Key>>)
    ensures |s| == n && forall p :: 0 <= p < n ==> s[p] == Mapped(w, items, p)
  {
    seq(n, p requires 0 <= p < n => Mapped(w, items, p))
  }

  predicate Counts(w: World, o: Option<Key>) {
    o.Some? && o.value in w.tests && w.tests[o.value].phase.IsFinal()
  }

  predicate AllDone(w: World, slots: seq<Option<Key>>) {
    forall p :: 0 <= p < |slots| ==> Counts(w, slots[p])
  }

  /** One result for each slot whose Test is final, in slot order. */
  function Results(w: World, slots: seq<Option<Key>>, templates: seq<string>): seq<TestResult>
    requires |slots| <= |templates|
  {
    if slots == [] then [] else
      var last := |slots| - 1;
      var before := Results(w, slots[..last], templates);
      if Counts(w, slots[last])
      then before + [TestResult(templates[last], slots[last].value, w.tests[slots[last].value].phase == TestPassed)]
      else before
  }

  function Passes(results: seq<TestResult>): nat {
    if results == [] then 0 else Passes(results[..|results| - 1]) + if results[|results| - 1].passed then 1 else 0
  }

  /** The phase that a tally gives its run. */
  function Outcome(w: World, slots: seq<Option<Key>>, results: seq<TestResult>): RunPhase {
    if !AllDone(w, slots) then RunRunning else if Passes(results) == |results| then RunPassed else RunFailed
  }

  /**
   The list is the one the reconciler read: live Tests of the run, each once, none that was there already left out.
   An entry whose name gives no slot has been deleted by the pass itself, but keeps its place.
   */
  ghost predicate Listed(w: World, r: Key, items: seq<Key>, n: nat) {
    && Distinct(items)
    && (forall t :: t in items ==> ChildOf(w, t, r) && t in w.tests && (Live(w, t) || !ValidSlot(w, t, n)))
    && (forall t :: t in w.meta && ChildOf(w, t, r) && Live(w, t) ==>
          t in items || (t in w.tests && w.tests[t].phase == TestUnset))
  }

  // ----- events

  datatype Reason = Manual | Helm | Scheduled

  /** What the world outside the controllers does. */
  datatype Outside =
    | UserCreateSuite(k: Key, spec: SuiteSpec)
    | UserCreateRun(k: Key, retention: Policy, templates: seq<string>)
    | UserCreateTest(k: Key, generateName: string, retention: Policy)
    | UserDelete(k: Key)
    | UserEdit(k: Key, spec: SuiteSpec)
    | UserTrigger(k: Key)
    | ForeignAdd(k: Key, name: string)
    | ForeignRemove(k: Key, name: string)
    | PodMoves(k: Key, podPhase: PodPhase)
    | Tick(d: nat)

  /** Writes to metadata that every controller makes. */
  datatype Common =
    | Hold(k: Key)
    | Delete(k: Key)
    | Release(k: Key, f: Finalizer)

  /** Writes of the Test controller. */
  datatype TestWrite =
    | TestQueued(t: Key)
    | TestMoves(t: Key, to: TestPhase)
    | Judge(t: Key, p: Key)
    | CreatePod(k: Key, t: Key)

  /** Writes of the TestRun controller. */
  datatype RunWrite =
    | RunStarts(r: Key)
    | CreateTest(k: Key, r: Key, index: nat)
    | Tally(r: Key, items: seq<Key>, phase: RunPhase, results: seq<TestResult>)

  /** Writes of the TestSuite controller. */
  datatype SuiteWrite =
    | Annotate(s: Key)
    | ClearNextRun(s: Key)
    | DropSchedule(s: Key)
    | ScheduleNext(s: Key, at: nat)
    | SkipMissed(s: Key, at: nat)
    | Focus(s: Key, r: Key)
    | MarkPending(s: Key)
    | MarkReady(s: Key)
    | ResetTrigger(s: Key)
    | Trigger(s: Key, reason: Reason)
    | CreateRun(k: Key, s: Key)
    | Assign(s: Key, r: Key)
    | LoseRun(s: Key)
    | Complete(s: Key)

  datatype Event = Env(o: Outside) | All(c: Common) | OfTest(t: TestWrite) | OfRun(r: RunWrite) | OfSuite(s: SuiteWrite)

  // ----- what a write does

  /** Deletion of a stored object: it lingers, marked, while finalizers remain. */
  function MarkDeleted(meta: map<Key, Meta>, k: Key): map<Key, Meta>
    requires k in meta
  {
    if meta[k].finalizers == [] then meta - {k} else meta[k := meta[k].(deleting := true)]
  }

  /** A patch that takes `f` off a stored object: the object is gone once it is marked and none remain. */
  function TakeOff(meta: map<Key, Meta>, k: Key, f: Finalizer): map<Key, Meta>
    requires k in meta
  {
    var left := Without(meta[k].finalizers, f);
    if meta[k].deleting && left == [] then meta - {k} else meta[k := meta[k].(finalizers := left)]
  }

  function Born(w: World, k: Key, owner: Option<Key>, finalizers: seq<Finalizer>): World {
    w.(birth := w.birth[k := Birth(owner, w.now)], meta := w.meta[k := Meta(finalizers, false)])
  }

  predicate SuiteIsRunning(w: World, s: Key) { s in w.suites && w.suites[s].status.phase == SuiteRunning }

  predicate SuiteIsReady(w: World, s: Key) { s in w.suites && w.suites[s].status.phase == SuiteReady }

  /** The suite is Running and its run still has to be created. */
  predicate SuiteNeedsRun(w: World, s: Key) { SuiteIsRunning(w, s) && w.suites[s].status.current == None }

  /** A run of the suite that a pass takes for unfinished. */
  ghost predicate OpenRun(w: World, s: Key, r: Key) {
    r.kind == RunKind && Live(w, r) && ChildOf(w, r, s) && RunInProgress(w, r)
  }

  ghost predicate NoneOpen(w: World, s: Key) { forall r :: !OpenRun(w, s, r) }

  // ----- when a controller may delete or release

  /** The reasons for which a controller deletes an object. Every one concerns an object that has an owner. */
  ghost predicate MayDelete(w: World, k: Key) {
    && Live(w, k)
    && exists p :: ChildOf(w, k, p) && Stored(w, p) && ReasonToDelete(w, k, p)
  }

  ghost predicate ReasonToDelete(w: World, k: Key, p: Key) {
    || Deleting(w, p)
    || Purges(w, p)
    || (k.kind == RunKind && p in w.suites && !SuiteIsRunning(w, p) && k in w.runs && w.runs[k].phase.IsFinal())
    || (k.kind == TestKind && RunInProgress(w, p) && !ValidSlot(w, k, |w.runs[p].templates|))
    || (k.kind == PodKind && TestInProgress(w, p) && exists q :: q != k && ChildOf(w, q, p) && Live(w, q))
  }

  /** A Pod that is marked and has been let go by the Test controller needs its Test no more. */
  predicate MayOutlive(w: World, c: Key) { c.kind == PodKind && Deleting(w, c) && !Holds(w, c, TestController) }

  /** A finalizer comes off only once the object is marked, and its own controller's only after its children. */
  ghost predicate MayRelease(w: World, k: Key, f: Finalizer) {
    && Deleting(w, k)
    && ((k.kind != SuiteKind && f == OwnersFinalizer(k.kind)) || f == OwnFinalizer(k.kind))
    && (k.kind != PodKind && f == OwnFinalizer(k.kind) ==>
          forall c :: c in w.meta && ChildOf(w, c, k) ==> MayOutlive(w, c))
  }

  ghost predicate Fresh(w: World, k: Key, kind: Kind) {
    k !in w.birth && k.kind == kind && |k.name| > 0
  }

  ghost predicate GuardOutside(w: World, e: Outside) {
    match e
    case UserCreateSuite(k, _) => Fresh(w, k, SuiteKind)
    case UserCreateRun(k, _, _) => Fresh(w, k, RunKind)
    case UserCreateTest(k, _, _) => Fresh(w, k, TestKind)
    case UserDelete(k) => Stored(w, k)
    case UserEdit(k, _) => Stored(w, k) && k in w.suites
    case UserTrigger(k) => Stored(w, k) && k in w.suites
    case ForeignAdd(k, _) => Live(w, k)
    case ForeignRemove(k, _) => Stored(w, k)
    case PodMoves(k, to) => Stored(w, k) && k in w.pods && !w.pods[k].phase.IsFinished()
    case Tick(_) => true
  }

  ghost predicate GuardCommon(w: World, e: Common) {
    match e
    case Hold(k) => Live(w, k) && k.kind != PodKind && OwnFinalizer(k.kind) !in w.meta[k].finalizers
    case Delete(k) => MayDelete(w, k)
    case Release(k, f) => MayRelease(w, k, f)
  }

  ghost predicate GuardTest(w: World, e: TestWrite) {
    match e
    case TestQueued(t) => Live(w, t) && t in w.tests && w.tests[t].phase == TestUnset
    case TestMoves(t, to) =>
      && Live(w, t) && t.kind == TestKind && TestInProgress(w, t) && w.tests[t].phase != TestUnset
      && ((to == TestStarting && exists p :: ChildOf(w, p, t) && p in w.pods && w.pods[p].phase == PodPending)
          || (to == TestRunning && exists p :: ChildOf(w, p, t) && p in w.pods && w.pods[p].phase == PodRunning))
    case Judge(t, p) =>
      && Live(w, t) && t.kind == TestKind && TestInProgress(w, t) && w.tests[t].phase != TestUnset
      && ChildOf(w, p, t) && p in w.pods && w.pods[p].phase.IsFinished()
    case CreatePod(k, t) =>
      && Fresh(w, k, PodKind)
      && t.kind == TestKind && Live(w, t) && Holds(w, t, TestController) && TestInProgress(w, t)
      && w.tests[t].phase != TestUnset
      && (forall q :: q in w.meta && ChildOf(w, q, t) ==> w.meta[q].deleting)
  }

  ghost predicate LiveInSlot(w: World, r: Key, t: Key, p: nat) {
    t.kind == TestKind && Live(w, t) && ChildOf(w, t, r) && Slot(w, t) == Some(p)
  }

  ghost predicate SlotFilled(w: World, r: Key, p: nat) { exists t :: LiveInSlot(w, r, t, p) }

  /** Every slot below `n` that can be named has a live Test. */
  ghost predicate FilledUpTo(w: World, r: Key, n: nat) { forall p: nat :: p < n && p < 10 ==> SlotFilled(w, r, p) }

  function LiveTestsOf(w: World, r: Key): (ts: set<Key>)
    ensures forall t :: t in ts <==> t.kind == TestKind && Live(w, t) && ChildOf(w, t, r)
  {
    set t | t in w.meta && t.kind == TestKind && Live(w, t) && ChildOf(w, t, r)
  }

  /** The live Test names a slot of the run at or above the number of its live Tests. */
  ghost predicate Beyond(w: World, r: Key, t: Key) {
    && t in LiveTestsOf(w, r) && r in w.runs && ValidSlot(w, t, |w.runs[r].templates|)
    && |LiveTestsOf(w, r)| <= Slot(w, t).value
  }

  ghost predicate NamesBeyond(w: World, r: Key) { exists t :: Beyond(w, r, t) }

  ghost predicate GuardRun(w: World, e: RunWrite) {
    match e
    case RunStarts(r) => Stored(w, r) && r in w.runs && w.runs[r].phase == RunUnset
    case CreateTest(k, r, index) =>
      && Fresh(w, k, TestKind)
      && r.kind == RunKind && Live(w, r) && Holds(w, r, TestRunController) && RunInProgress(w, r)
      && w.runs[r].phase != RunUnset
      && index < |w.runs[r].templates|
      && (forall t :: t in w.meta && ChildOf(w, t, r) && Live(w, t) ==> Slot(w, t) != Some(index))
      && FilledUpTo(w, r, index) && !NamesBeyond(w, r)
    case Tally(r, items, phase, results) =>
      && r.kind == RunKind && Live(w, r) && RunInProgress(w, r) && w.runs[r].phase != RunUnset
      && var n := |w.runs[r].templates|;
         var slots := MappedSlots(w, items, n);
         && Listed(w, r, items, n) && InBounds(w, items, n)
         && results == Results(w, slots, w.runs[r].templates)
         && phase == Outcome(w, slots, results)
  }

  ghost predicate GuardSuite(w: World, e: SuiteWrite) {
    match e
    case Annotate(s) => Live(w, s) && s in w.suites
    case ClearNextRun(s) => Live(w, s) && s in w.suites && w.suites[s].spec.schedule != w.suites[s].activeSchedule
    case DropSchedule(s) =>
      Live(w, s) && s in w.suites && (w.suites[s].spec.schedule.Cron? ==> !w.suites[s].spec.schedule.parses)
    case ScheduleNext(s, at) =>
      && Live(w, s) && SuiteIsReady(w, s)
      && w.suites[s].spec.schedule.Cron? && w.suites[s].spec.schedule.parses
      && w.suites[s].spec.schedule == w.suites[s].activeSchedule
      && w.suites[s].status.nextRun == None && w.now < at
    case SkipMissed(s, at) =>
      && Live(w, s) && SuiteIsReady(w, s) && NoneOpen(w, s) && !w.suites[s].needsRun
      && w.suites[s].spec.schedule.Cron? && w.suites[s].spec.schedule.parses
      && w.suites[s].spec.schedule == w.suites[s].activeSchedule
      && w.suites[s].status.nextRun.Some? && w.suites[s].status.nextRun.value + GRACE < w.now < at
    case Focus(s, r) =>
      && Live(w, s) && s in w.suites && Live(w, r) && ChildOf(w, r, s) && RunInProgress(w, r)
      && (SuiteIsRunning(w, s) ==>
            && w.suites[s].status.current.Some?
            && var r0 := w.suites[s].status.current.value;
               Live(w, r0) && ChildOf(w, r0, s) && RunInProgress(w, r0))
    case MarkPending(s) => Live(w, s) && s in w.suites && w.suites[s].status.phase == SuiteUnset
    case MarkReady(s) => Live(w, s) && s in w.suites && w.suites[s].status.phase == SuitePending
    case ResetTrigger(s) => Live(w, s) && SuiteIsReady(w, s) && NoneOpen(w, s) && w.suites[s].needsRun
    case Trigger(s, reason) =>
      && Live(w, s) && SuiteIsReady(w, s) && NoneOpen(w, s) && !w.suites[s].needsRun
      && (reason == Scheduled ==>
            && w.suites[s].spec.schedule.Cron? && w.suites[s].spec.schedule.parses
            && w.suites[s].spec.schedule == w.suites[s].activeSchedule
            && w.suites[s].status.nextRun.Some?
            && w.suites[s].status.nextRun.value <= w.now <= w.suites[s].status.nextRun.value + GRACE)
    case CreateRun(k, s) =>
      && Fresh(w, k, RunKind)
      && s.kind == SuiteKind && Live(w, s) && Holds(w, s, TestSuiteController) && SuiteNeedsRun(w, s)
      && w.suites[s].account.awaiting == None
    case Assign(s, r) =>
      && Live(w, s) && SuiteNeedsRun(w, s) && w.suites[s].account.awaiting == Some(r)
      && Live(w, r) && ChildOf(w, r, s)
    case LoseRun(s) => Live(w, s) && s in w.suites && w.suites[s].account.awaiting.Some?
    case Complete(s) =>
      && Live(w, s) && SuiteIsRunning(w, s) && w.suites[s].status.current.Some?
      && var r := w.suites[s].status.current.value;
         Live(w, r) && ChildOf(w, r, s) && r in w.runs && w.runs[r].phase.IsFinal()
  }

  /** What must hold of the stored objects when an event happens. */
  ghost predicate Guard(w: World, e: Event) {
    match e
    case Env(o) => GuardOutside(w, o)
    case All(c) => GuardCommon(w, c)
    case OfTest(t) => GuardTest(w, t)
    case OfRun(r) => GuardRun(w, r)
    case OfSuite(s) => GuardSuite(w, s)
  }

  function NewRun(w: World, k: Key, retention: Policy, templates: seq<string>): World {
    w.(runs := w.runs[k := Run(retention, templates, RunUnset, [])])
  }

  function NewTest(w: World, k: Key, generateName: string, retention: Policy): World {
    w.(tests := w.tests[k := Test(generateName, retention, TestUnset)])
  }

  function ApplyOutside(w: World, e: Outside): World
    requires GuardOutside(w, e)
  {
    match e
    case UserCreateSuite(k, spec) =>
      var status := SuiteStatus(SuiteUnset, None, None, map[]);
      Born(w, k, None, []).(suites := w.suites[k := Suite(spec, NoSchedule, false, status, NO_ACCOUNT)])
    case UserCreateRun(k, retention, templates) => NewRun(Born(w, k, None, []), k, retention, templates)
    case UserCreateTest(k, generateName, retention) => NewTest(Born(w, k, None, []), k, generateName, retention)
    case UserDelete(k) => w.(meta := MarkDeleted(w.meta, k), outside := w.outside + {k})
    case UserEdit(k, spec) => w.(suites := w.suites[k := w.suites[k].(spec := spec)])
    case UserTrigger(k) => w.(suites := w.suites[k := w.suites[k].(needsRun := true)])
    case ForeignAdd(k, name) =>
      w.(meta := w.meta[k := w.meta[k].(finalizers := w.meta[k].finalizers + [Foreign(name)])])
    case ForeignRemove(k, name) => w.(meta := TakeOff(w.meta, k, Foreign(name)))
    case PodMoves(k, to) => w.(pods := w.pods[k := Pod(to)])
    case Tick(d) => w.(now := w.now + d)
  }

  function ApplyCommon(w: World, e: Common): World
    requires GuardCommon(w, e)
  {
    match e
    case Hold(k) =>
      w.(meta := w.meta[k := w.meta[k].(finalizers := w.meta[k].finalizers + [OwnFinalizer(k.kind)])])
    case Delete(k) => w.(meta := MarkDeleted(w.meta, k))
    case Release(k, f) => w.(meta := TakeOff(w.meta, k, f))
  }

  function ApplyTest(w: World, e: TestWrite): World
    requires GuardTest(w, e)
  {
    match e
    case TestQueued(t) => w.(tests := w.tests[t := w.tests[t].(phase := TestPending)])
    case TestMoves(t, to) => w.(tests := w.tests[t := w.tests[t].(phase := to)])
    case Judge(t, p) =>
      var verdict := if w.pods[p].phase == PodSucceeded then TestPassed else TestFailed;
      w.(tests := w.tests[t := w.tests[t].(phase := verdict)])
    case CreatePod(k, t) => Born(w, k, Some(t), [TestController]).(pods := w.pods[k := Pod(PodPending)])
  }

  function ApplyRun(w: World, e: RunWrite): World
    requires GuardRun(w, e)
  {
    match e
    case RunStarts(r) => w.(runs := w.runs[r := w.runs[r].(phase := RunStarting)])
    case CreateTest(k, r, index) =>
      NewTest(Born(w, k, Some(r), [TestController]), k, GenerateName(r, index), w.runs[r].retention)
    case Tally(r, _, phase, results) => w.(runs := w.runs[r := w.runs[r].(phase := phase, results := results)])
  }

  function Patched(s: Suite, status: SuiteStatus): Suite { s.(status := status) }

  /** What a write of the suite reconciler makes of the suite. */
  function NextSuite(s: Suite, e: SuiteWrite): Suite {
    var now := s.status;
    var a := s.account;
    match e
    case Annotate(_) => s.(activeSchedule := s.spec.schedule)
    case ClearNextRun(_) => Patched(s, now.(nextRun := None))
    case DropSchedule(_) => Patched(s, now.(nextRun := None, conditions := now.conditions[HasSchedule := false]))
    case ScheduleNext(_, at) =>
      Patched(s, now.(nextRun := Some(at), conditions := now.conditions[HasSchedule := true]))
    case SkipMissed(_, at) => Patched(s, now.(nextRun := Some(at)))
    case Focus(_, r) =>
      Patched(s, now.(phase := SuiteRunning, current := Some(r)))
        .(account := if now.phase == SuiteRunning then a else a.(adoptions := a.adoptions + 1))
    case MarkPending(_) => Patched(s, now.(phase := SuitePending))
    case MarkReady(_) => Patched(s, now.(phase := SuiteReady))
    case ResetTrigger(_) => s.(needsRun := false)
    case Trigger(_, reason) =>
      Patched(s, now.(phase := SuiteRunning, current := None, conditions := now.conditions[NeedsRun := true]))
        .(account := a.(triggers := a.triggers + 1, scheduled := a.scheduled + if reason == Scheduled then 1 else 0))
    case CreateRun(k, _) => s.(account := a.(creations := a.creations + 1, awaiting := Some(k)))
    case Assign(_, r) =>
      Patched(s, now.(current := Some(r), conditions := now.conditions[NeedsRun := false][RunStarted := true]))
        .(account := a.(assignments := a.assignments + 1, awaiting := None))
    case LoseRun(_) => s.(account := a.(losses := a.losses + 1, awaiting := None))
    case Complete(_) =>
      Patched(s, now.(phase := SuiteReady, current := None, conditions := now.conditions[RunStarted := false]))
        .(account := a.(completions := a.completions + 1))
  }

  function ApplySuite(w: World, e: SuiteWrite): World
    requires GuardSuite(w, e)
  {
    var w' := w.(suites := w.suites[e.s := NextSuite(w.suites[e.s], e)]);
    match e
    case CreateRun(k, s) =>
      NewRun(Born(w', k, Some(s), [TestSuiteController]), k, w.suites[s].spec.retention, w.suites[s].spec.templates)
    case _ => w'
  }

  /** The world after an event. */
  function Apply(w: World, e: Event): World
    requires Guard(w, e)
  {
    match e
    case Env(o) => ApplyOutside(w, o)
    case All(c) => ApplyCommon(w, c)
    case OfTest(t) => ApplyTest(w, t)
    case OfRun(r) => ApplyRun(w, r)
    case OfSuite(s) => ApplySuite(w, s)
  }

  /** What stands behind this term is spelled out only where the term is mentioned. */
  ghost predicate Unsealed(k: nat) { k == k }

  /** The event may happen in the first world, and makes it the second. */
  ghost predicate Steps(w: World, e: Event, w': World) {
    forall k {:trigger Unsealed(k)} :: Unsealed(k) ==> Guard(w, e) && w' == Apply(w, e)
  }

  lemma Spelled(w: World, e: Event, w': World)
    requires Steps(w, e, w')
    ensures Guard(w, e) && w' == Apply(w, e)
  {
    assert Unsealed(0);
  }

  lemma EnvStep(w: World, e: Event, w': World)
    requires Steps(w, e, w') && e.Env?
    ensures GuardOutside(w, e.o) && w' == ApplyOutside(w, e.o)
  {
    Spelled(w, e, w');
  }

  lemma CommonStep(w: World, e: Event, w': World)
    requires Steps(w, e, w') && e.All?
    ensures GuardCommon(w, e.c) && w' == ApplyCommon(w, e.c)
  {
    Spelled(w, e, w');
  }

  lemma TestStep(w: World, e: Event, w': World)
    requires Steps(w, e, w') && e.OfTest?
    ensures GuardTest(w, e.t) && w' == ApplyTest(w, e.t)
  {
    Spelled(w, e, w');
  }

  lemma RunStep(w: World, e: Event, w': World)
    requires Steps(w, e, w') && e.OfRun?
    ensures GuardRun(w, e.r) && w' == ApplyRun(w, e.r)
  {
    Spelled(w, e, w');
  }

  lemma SuiteStep(w: World, e: Event, w': World)
    requires Steps(w, e, w') && e.OfSuite?
    ensures GuardSuite(w, e.s) && w' == ApplySuite(w, e.s)
  {
    Spelled(w, e, w');
  }

  // ----- histories

  /** Every event of the log happened when its guard held. */
  ghost predicate Legal(log: seq<Event>)
    decreases |log|, 1
  {
    |log| == 0 || (Legal(log[..|log| - 1]) && Guard(After(log[..|log| - 1]), log[|log| - 1]))
  }

  /** The world after a legal log, from an empty cluster. */
  ghost function After(log: seq<Event>): World
    requires Legal(log)
    decreases |log|, 2
  {
    if |log| == 0 then EMPTY else Apply(After(log[..|log| - 1]), log[|log| - 1])
  }
}
