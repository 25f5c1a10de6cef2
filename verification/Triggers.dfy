/** Triggers by hand: how long one that has been asked for is sure to stay. */
module Triggers {
  import opened Store
  import opened Effects
  import opened Invariants
  import opened Verdicts
  import opened SuiteStates
  import opened Histories

  // ----- how a history may go on

  ghost function OpenRuns(w: World, s: Key): (rs: set<Key>)
    ensures forall r :: r in rs <==> OpenRun(w, s, r)
  {
    set r | r in w.meta && OpenRun(w, s, r)
  }

  /** The log goes on with deletions by users only. */
  ghost predicate OnlyDeletions(early: seq<Event>, late: seq<Event>) {
    early <= late && forall n :: |early| <= n < |late| ==> late[n].Env? && late[n].o.UserDelete?
  }

  lemma RunClosed(w: World, w': World, s: Key, r: Key)
    requires OpenRun(w, s, r) && w' == ApplyOutside(w, UserDelete(r))
    ensures OpenRuns(w', s) <= OpenRuns(w, s) - {r}
  {
    forall q | q in OpenRuns(w', s) ensures q in OpenRuns(w, s) - {r} { assert OpenRun(w', s, q); }
  }

  /** Users may delete all unfinished runs of a suite. */
  lemma {:induction false} ClosesRuns(log: seq<Event>, w: World, s: Key) returns (log': seq<Event>, w': World)
    requires Reaches(log, w) && s.kind == SuiteKind
    ensures Reaches(log', w') && OnlyDeletions(log, log') && NoneOpen(w', s)
    ensures w'.suites == w.suites && w'.now == w.now && (Live(w, s) ==> Live(w', s))
    decreases OpenRuns(w, s)
  {
    if NoneOpen(w, s) {
      log', w' := log, w;
    } else {
      var r :| OpenRun(w, s, r);
      var log1, w1 := Appends(log, w, Env(UserDelete(r)));
      RunClosed(w, w1, s, r);
      log', w' := ClosesRuns(log1, w1, s);
    }
  }

  // ----- when a trigger by hand is sure to stay

  function TriggersOf(w: World, s: Key): nat { if s in w.suites then w.suites[s].account.triggers else 0 }

  ghost predicate Asked(w: World, s: Key) { s in w.suites && w.suites[s].needsRun }

  /** As long as the suite has neither been triggered nor completed a run, it is still asked to run. */
  ghost predicate StaysAsked(w: World, s: Key) {
    forall w' ::
      Leads(w, w') && TriggersOf(w', s) == TriggersOf(w, s) && Rounds(w', s) == Rounds(w, s) ==> Asked(w', s)
  }

  /** No pass over the suite resets its trigger. */
  ghost predicate OutOfReach(w: World, s: Key) { SuiteIsRunning(w, s) || !Live(w, s) }

  lemma OutsideKeepsAsked(w: World, o: Outside, s: Key)
    requires WellBodied(w) && GuardOutside(w, o) && Asked(w, s)
    ensures Asked(ApplyOutside(w, o), s)
  {
    assert o.UserCreateSuite? ==> !HasBody(w, o.k);
  }

  lemma AskedStep(w: World, e: Event, w': World, s: Key)
    requires WellFormed(w) && Steps(w, e, w') && Asked(w, s) && OutOfReach(w, s) && Rounds(w', s) == Rounds(w, s)
    ensures Asked(w', s) && OutOfReach(w', s)
  {
    RoundsGrow(w, e, w', s);
    assert HasBody(w, s);
    if Live(w', s) { LiveBefore(w, e, w', s); }
    match e
    case Env(o) =>
      EnvStep(w, e, w');
      OutsideKeepsAsked(w, o, s);
    case OfSuite(_) => SuiteWritten(w, e, w');
    case _ => OthersKeepSuites(w, e, w');
  }

  lemma {:induction false} AskedAlong(early: seq<Event>, late: seq<Event>, s: Key)
    requires Legal(late) && early <= late && Legal(early) && Asked(After(early), s) && OutOfReach(After(early), s)
    ensures Rounds(After(early), s) <= Rounds(After(late), s) && s in After(late).suites
    ensures Rounds(After(late), s) == Rounds(After(early), s) ==> Asked(After(late), s) && OutOfReach(After(late), s)
  {
    if early != late {
      var before := late[..|late| - 1];
      assert early <= before;
      AskedAlong(early, before, s);
      Reachable(before);
      LastStep(late);
      RoundsGrow(After(before), late[|late| - 1], After(late), s);
      if Rounds(After(late), s) == Rounds(After(early), s) {
        AskedStep(After(before), late[|late| - 1], After(late), s);
      }
    }
  }

  function WithPhase(w: World, s: Key, phase: SuitePhase): World
    requires s in w.suites
  {
    w.(suites := w.suites[s := Patched(w.suites[s], w.suites[s].status.(phase := phase))])
  }

  lemma BecomesPending(log: seq<Event>, w: World, s: Key) returns (log': seq<Event>, w': World)
    requires Reaches(log, w) && Live(w, s) && s in w.suites && w.suites[s].status.phase in {SuiteUnset, SuitePending}
    ensures Reaches(log', w') && log <= log' && w' == WithPhase(w, s, SuitePending)
  {
    log', w' := log, w;
    if w.suites[s].status.phase == SuiteUnset { log', w' := Appends(log, w, OfSuite(MarkPending(s))); }
  }

  /** A live suite that is not running becomes ready, if it is not. */
  lemma BecomesReady(log: seq<Event>, w: World, s: Key) returns (log': seq<Event>, w': World)
    requires Reaches(log, w) && Live(w, s) && s in w.suites && !SuiteIsRunning(w, s) && NoneOpen(w, s)
    ensures Reaches(log', w') && log <= log' && SuiteIsReady(w', s) && NoneOpen(w', s) && Live(w', s)
    ensures w'.suites[s] == Patched(w.suites[s], w.suites[s].status.(phase := SuiteReady))
  {
    log', w' := log, w;
    if !SuiteIsReady(w, s) {
      log', w' := BecomesPending(log, w, s);
      log', w' := Appends(log', w', OfSuite(MarkReady(s)));
    }
    StillNoneOpen(w, w', s);
  }

  /** In reach of a pass that resets the trigger and then fails, the trigger may be forgotten. */
  lemma MayBeForgotten(w: World, s: Key)
    requires Reached(w) && Asked(w, s) && !OutOfReach(w, s)
    ensures !StaysAsked(w, s)
  {
    var log := LogOf(w);
    ReachedOwned(w);
    var log1, w1 := ClosesRuns(log, w, s);
    var log2, w2 := BecomesReady(log1, w1, s);
    var log3, w3 := Appends(log2, w2, OfSuite(ResetTrigger(s)));
    ReachesIsReached(log3, w3);
    PassesThrough(log, log3);
    assert Leads(w, w3) && !Asked(w3, s);
  }

  /**
   A suite that has been asked to run by hand is sure not to forget it before it is triggered or a run of it completes,
   if and only if it is running, or is no longer live.
   */
  lemma StaysAskedWhileRunning(w: World, s: Key)
    requires Reached(w) && Asked(w, s)
    ensures StaysAsked(w, s) <==> SuiteIsRunning(w, s) || !Live(w, s)
  {
    if OutOfReach(w, s) {
      forall w' | Leads(w, w') && TriggersOf(w', s) == TriggersOf(w, s) && Rounds(w', s) == Rounds(w, s)
        ensures Asked(w', s)
      {
        var early, late := LogsOf(w, w');
        AskedAlong(early, late, s);
      }
    } else {
      MayBeForgotten(w, s);
    }
  }
}
