/** Every legal history, whatever fails in it: what each of its worlds keeps, and how worlds advance. */
module Histories {
  import opened Prelude
  import opened Store
  import opened Effects
  import opened Invariants
  import opened Verdicts
  import opened Conclusions
  import opened SuiteStates

  ghost predicate Invariant(w: World) {
    && WellFormed(w) && FinalizersExpected(w) && NoneLingers(w) && Owned(w)
    && SlotsValid(w) && OneTestPerSlot(w) && OnePodPerTest(w)
    && TestVerdictsSound(w) && RunsSound(w) && ResultsStay(w)
    && SuitesSound(w) && SuitesStay(w) && CurrentTracked(w)
  }

  lemma EmptyInvariant()
    ensures Invariant(EMPTY)
  {
    forall c, p ensures HeldByOwner(EMPTY, c, p) {}
    forall r ensures RunSound(EMPTY, r) {}
    forall s ensures Tracked(EMPTY, s) {}
  }

  lemma InvariantKept(w: World, e: Event, w': World)
    requires Invariant(w) && Steps(w, e, w')
    ensures Invariant(w')
  {
    WellBornKept(w, e, w');
    EventDoes(w, e, w');
    WellBodiedKept(w, EffectOf(e), w');
    RightKindsKept(w, e, w');
    FinalizersExpectedKept(w, e, w');
    NoneLingersKept(w, EffectOf(e), w');
    OwnedKept(w, e, w');
    SlotsValidKept(w, e, w');
    OneTestPerSlotKept(w, e, w');
    OnePodPerTestKept(w, e, w');
    TestVerdictsKept(w, e, w');
    RunsSoundKept(w, e, w');
    ResultsStayKept(w, e, w');
    SuitesSoundKept(w, e, w');
    SuitesStayKept(w, e, w');
    CurrentTrackedKept(w, e, w');
  }

  /** Ownership, slots, verdicts and suite states hold in every reachable world. */
  lemma {:induction false} Reachable(log: seq<Event>)
    requires Legal(log)
    ensures Invariant(After(log))
  {
    if |log| == 0 {
      EmptyInvariant();
    } else {
      Reachable(log[..|log| - 1]);
      LastStep(log);
      InvariantKept(After(log[..|log| - 1]), log[|log| - 1], After(log));
    }
  }

  lemma {:induction false} PrefixIsLegal(log: seq<Event>, n: nat)
    requires Legal(log) && n <= |log|
    ensures Legal(log[..n])
    decreases |log|
  {
    if n < |log| {
      assert log[..|log| - 1][..n] == log[..n];
      PrefixIsLegal(log[..|log| - 1], n);
    } else {
      assert log[..n] == log;
    }
  }

  lemma LastStep(log: seq<Event>)
    requires Legal(log) && log != []
    ensures Legal(log[..|log| - 1]) && Steps(After(log[..|log| - 1]), log[|log| - 1], After(log))
  {
  }

  // ----- how worlds advance

  ghost predicate MayBear(w: World, p: Key) {
    && Live(w, p) && (p.kind == RunKind ==> RunInProgress(w, p)) && (p.kind == TestKind ==> TestInProgress(w, p))
  }

  /** What is gone stays gone, what is marked stays marked and gets no finalizer. */
  ghost predicate MetaAdvances(w: World, w': World) {
    && w.outside <= w'.outside && w.now <= w'.now
    && (forall k :: k in w.birth && k !in w.meta ==> k !in w'.meta)
    && (forall k :: Deleting(w, k) && k in w'.meta ==> w'.meta[k].deleting)
    && (forall k, f :: Deleting(w, k) && Holds(w', k, f) ==> Holds(w, k, f))
  }

  /** Only live owners that are not final get new children. */
  ghost predicate BirthsAdvance(w: World, w': World) {
    forall c, p :: ChildOf(w', c, p) && c !in w.birth && p in w.birth ==> MayBear(w, p)
  }

  ghost predicate Advances(w: World, w': World) { Grows(w, w') && MetaAdvances(w, w') && BirthsAdvance(w, w') }

  lemma AdvancesStep(w: World, e: Event, w': World)
    requires WellFormed(w) && Steps(w, e, w')
    ensures Advances(w, w')
  {
    EventGrows(w, e, w');
    EventDoes(w, e, w');
    forall c, p | ChildOf(w', c, p) && c !in w.birth && p in w.birth ensures MayBear(w, p) {
      BearerAtBirth(w, e, w', p);
    }
    MetaStep(w, EffectOf(e), w');
  }

  lemma BearerAtBirth(w: World, e: Event, w': World, p: Key)
    requires Steps(w, e, w') && EffectOf(e).Creates? && EffectOf(e).owner == Some(p)
    ensures MayBear(w, p)
  {
    match e
    case OfTest(_) => TestStep(w, e, w');
    case OfRun(_) => RunStep(w, e, w');
    case OfSuite(_) => SuiteStep(w, e, w');
    case _ =>
  }

  lemma MetaStep(w: World, x: Effect, w': World)
    requires Does(w, x, w') && w.meta.Keys <= w.birth.Keys
    ensures MetaAdvances(w, w')
  {
  }

  lemma MetaTransitively(a: World, b: World, c: World)
    requires WellBorn(a) && WellBorn(b) && Grows(a, b) && MetaAdvances(a, b) && MetaAdvances(b, c)
    ensures MetaAdvances(a, c)
  {
    forall k | Deleting(a, k) && k in c.meta ensures c.meta[k].deleting {
      assert k in b.birth && k in b.meta && Deleting(b, k);
    }
    forall k, f | Deleting(a, k) && Holds(c, k, f) ensures Holds(a, k, f) {
      assert k in b.birth && k in b.meta && Deleting(b, k);
      assert Holds(b, k, f);
    }
  }

  lemma GrowsTransitively(a: World, b: World, c: World)
    requires Grows(a, b) && Grows(b, c)
    ensures Grows(a, c)
  {
  }

  /** What is live later was live before. */
  lemma LiveEarlier(a: World, b: World, k: Key)
    requires WellBorn(a) && MetaAdvances(a, b) && k in a.birth && Live(b, k)
    ensures Live(a, k)
  {
    assert Deleting(a, k) || k !in a.meta || Live(a, k);
  }

  lemma BearerBefore(a: World, b: World, c: World, x: Key, p: Key)
    requires WellFormed(a) && WellFormed(b) && Advances(a, b) && BirthsAdvance(b, c)
    requires ChildOf(c, x, p) && x !in a.birth && p in a.birth && (x in b.birth ==> ChildOf(b, x, p))
    ensures MayBear(a, p)
  {
    if x !in b.birth {
      assert MayBear(b, p);
      LiveEarlier(a, b, p);
      assert HasBody(a, p);
    }
  }

  lemma AdvancesTransitively(a: World, b: World, c: World)
    requires WellFormed(a) && WellFormed(b) && Advances(a, b) && Advances(b, c)
    ensures Advances(a, c)
  {
    MetaTransitively(a, b, c);
    GrowsTransitively(a, b, c);
    forall x, p | ChildOf(c, x, p) && x !in a.birth && p in a.birth ensures MayBear(a, p) {
      BearerBefore(a, b, c, x, p);
    }
  }

  /** Along a legal history, earlier worlds advance to later ones. */
  lemma {:induction false} HistoryAdvances(early: seq<Event>, late: seq<Event>)
    requires Legal(late) && early <= late
    ensures Legal(early) && Advances(After(early), After(late))
  {
    if early == late {
    } else {
      var before := late[..|late| - 1];
      assert early <= before;
      HistoryAdvances(early, before);
      Reachable(early);
      Reachable(before);
      LastStep(late);
      AdvancesStep(After(before), late[|late| - 1], After(late));
      AdvancesTransitively(After(early), After(before), After(late));
    }
  }

  /** Some legal history leads to this world. */
  ghost predicate Reached(w: World) {
    forall k {:trigger Unsealed(k)} :: Unsealed(k) ==> exists log :: Legal(log) && After(log) == w
  }

  /** Some legal history passes through the first world and leads to the second. */
  ghost predicate Leads(w: World, w': World) {
    forall k {:trigger Unsealed(k)} :: Unsealed(k) ==>
      exists early, late :: Legal(early) && Legal(late) && early <= late && After(early) == w && After(late) == w'
  }

  /** Every reached world satisfies the invariant, and later ones are advances on earlier ones. */
  lemma ReachedInvariant(w: World)
    requires Reached(w)
    ensures Invariant(w)
  {
    assert Unsealed(0);
    var log :| Legal(log) && After(log) == w;
    Reachable(log);
  }

  lemma ReachedOwned(w: World)
    requires Reached(w)
    ensures WellFormed(w) && FinalizersExpected(w) && NoneLingers(w) && Owned(w)
  {
    ReachedInvariant(w);
  }

  lemma ReachedSlots(w: World)
    requires Reached(w)
    ensures WellFormed(w) && SlotsValid(w) && OneTestPerSlot(w) && OnePodPerTest(w)
  {
    ReachedInvariant(w);
  }

  lemma ReachedVerdicts(w: World)
    requires Reached(w)
    ensures WellFormed(w) && SlotsValid(w) && TestVerdictsSound(w) && RunsSound(w)
  {
    ReachedInvariant(w);
  }

  lemma ReachedSuites(w: World)
    requires Reached(w)
    ensures WellFormed(w) && SuitesSound(w) && SuitesStay(w) && CurrentTracked(w)
  {
    ReachedInvariant(w);
  }

  lemma LeadsOn(w: World, w': World)
    requires Leads(w, w')
    ensures Reached(w) && Reached(w') && WellFormed(w) && WellFormed(w') && Advances(w, w')
  {
    assert Unsealed(0);
    var early, late :| Legal(early) && Legal(late) && early <= late && After(early) == w && After(late) == w';
    Reachable(early);
    Reachable(late);
    HistoryAdvances(early, late);
  }

  lemma BothReached(w: World, w': World)
    requires Leads(w, w')
    ensures Reached(w) && Reached(w')
  {
    LeadsOn(w, w');
  }

  lemma IsReached(log: seq<Event>)
    requires Legal(log)
    ensures Reached(After(log))
  {
  }

  lemma PassesThrough(early: seq<Event>, late: seq<Event>)
    requires Legal(early) && Legal(late) && early <= late
    ensures Leads(After(early), After(late))
  {
  }

  lemma LogOf(w: World) returns (log: seq<Event>)
    requires Reached(w)
    ensures Legal(log) && After(log) == w
  {
    assert Unsealed(0);
    log :| Legal(log) && After(log) == w;
  }

  lemma LogsOf(w: World, w': World) returns (early: seq<Event>, late: seq<Event>)
    requires Leads(w, w')
    ensures Legal(early) && Legal(late) && early <= late && After(early) == w && After(late) == w'
  {
    assert Unsealed(0);
    early, late :| Legal(early) && Legal(late) && early <= late && After(early) == w && After(late) == w';
  }

  /** A legal log goes on with any event whose guard holds. */
  lemma Extend(log: seq<Event>, e: Event) returns (log': seq<Event>)
    requires Legal(log) && Guard(After(log), e)
    ensures Legal(log') && After(log') == Apply(After(log), e) && log' == log + [e]
  {
    log' := log + [e];
    assert log'[..|log|] == log;
  }

  /** From a reached world any event whose guard holds leads on. */
  lemma Goes(w: World, e: Event) returns (w': World)
    requires Reached(w) && Guard(w, e)
    ensures w' == Apply(w, e) && Reached(w') && Leads(w, w')
  {
    var log := LogOf(w);
    var log' := Extend(log, e);
    w' := Apply(w, e);
    IsReached(log');
    PassesThrough(log, log');
  }

  lemma GoesOn(w0: World, w: World, e: Event) returns (w': World)
    requires Leads(w0, w) && Guard(w, e)
    ensures w' == Apply(w, e) && Reached(w') && Leads(w0, w')
  {
    var early, late := LogsOf(w0, w);
    var late' := Extend(late, e);
    w' := Apply(w, e);
    IsReached(late');
    PassesThrough(early, late');
  }

  lemma Stays(w: World)
    requires Reached(w)
    ensures Leads(w, w)
  {
    var log := LogOf(w);
    PassesThrough(log, log);
  }

  /** The empty cluster. */
  lemma Begins()
    ensures Reached(EMPTY)
  {
    IsReached([]);
  }

  /** This legal history leads to this world. */
  ghost predicate Reaches(log: seq<Event>, w: World) {
    forall k {:trigger Unsealed(k)} :: Unsealed(k) ==> Legal(log) && After(log) == w
  }

  lemma Starts()
    ensures Reaches([], EMPTY)
  {
  }

  lemma Appends(log: seq<Event>, w: World, e: Event) returns (log': seq<Event>, w': World)
    requires Reaches(log, w) && Guard(w, e)
    ensures log' == log + [e] && w' == Apply(w, e) && Reaches(log', w')
  {
    assert Unsealed(0);
    log' := Extend(log, e);
    w' := Apply(w, e);
  }

  lemma ReachesIsReached(log: seq<Event>, w: World)
    requires Reaches(log, w)
    ensures Legal(log) && After(log) == w && Reached(w)
  {
    assert Unsealed(0);
    IsReached(log);
  }

  // ----- what users have deleted

  lemma NewlyAsked(w: World, x: Effect, w': World, k: Key)
    requires WellBorn(w) && Does(w, x, w') && k in w'.outside && k !in w.outside
    ensures k in w'.birth && !Live(w', k)
  {
  }

  lemma {:induction false} AskedAlong(log: seq<Event>, k: Key)
    requires Legal(log) && k in After(log).outside
    ensures k in After(log).birth && !Live(After(log), k)
  {
    if log != [] {
      var before := log[..|log| - 1];
      var w, e, w' := After(before), log[|log| - 1], After(log);
      LastStep(log);
      Reachable(before);
      EventDoes(w, e, w');
      if k in w.outside {
        AskedAlong(before, k);
        if Live(w', k) { LiveBefore(w, e, w', k); }
      } else {
        NewlyAsked(w, EffectOf(e), w', k);
      }
    }
  }

  /** What users have asked to delete is not live. */
  lemma AskedIsNotLive(w: World, k: Key)
    requires Reached(w) && k in w.outside
    ensures k in w.birth && !Live(w, k)
  {
    var log := LogOf(w);
    AskedAlong(log, k);
  }
}
