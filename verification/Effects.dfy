/**
 Events seen from the metadata: each one creates an object, marks it, puts a finalizer on or takes one off,
 or leaves birth records and metadata alone. Ownership and deletion are argued on these five shapes.
 */
module Effects {
  import opened Prelude
  import opened Store

  datatype Effect =
    | Bodies
    | Creates(k: Key, owner: Option<Key>, finalizers: seq<Finalizer>)
    | Marks(k: Key)
    | PutsOn(k: Key, f: Finalizer)
    | TakesOff(k: Key, f: Finalizer)

  function EffectOf(e: Event): Effect {
    match e
    case Env(UserCreateSuite(k, _)) => Creates(k, None, [])
    case Env(UserCreateRun(k, _, _)) => Creates(k, None, [])
    case Env(UserCreateTest(k, _, _)) => Creates(k, None, [])
    case Env(UserDelete(k)) => Marks(k)
    case Env(ForeignAdd(k, name)) => PutsOn(k, Foreign(name))
    case Env(ForeignRemove(k, name)) => TakesOff(k, Foreign(name))
    case All(Hold(k)) => PutsOn(k, OwnFinalizer(k.kind))
    case All(Delete(k)) => Marks(k)
    case All(Release(k, f)) => TakesOff(k, f)
    case OfTest(CreatePod(k, t)) => Creates(k, Some(t), [TestController])
    case OfRun(CreateTest(k, r, _)) => Creates(k, Some(r), [TestController])
    case OfSuite(CreateRun(k, s)) => Creates(k, Some(s), [TestSuiteController])
    case _ => Bodies
  }

  ghost predicate HasBody(w: World, k: Key) {
    match k.kind
    case SuiteKind => k in w.suites
    case RunKind => k in w.runs
    case TestKind => k in w.tests
    case PodKind => k in w.pods
  }

  /** Bodies never go away, and only a creation adds one. */
  ghost predicate BodiesGrowBy(w: World, w': World, ks: set<Key>) {
    forall q :: HasBody(w', q) <==> HasBody(w, q) || q in ks
  }

  ghost predicate Does(w: World, x: Effect, w': World) {
    w.outside <= w'.outside <= w.outside + MarkedIn(x) && w.now <= w'.now && DoesToMeta(w, x, w')
  }

  function MarkedIn(x: Effect): set<Key> { if x.Marks? then {x.k} else {} }

  ghost predicate DoesToMeta(w: World, x: Effect, w': World) {
    match x
    case Bodies => w'.birth == w.birth && w'.meta == w.meta && BodiesGrowBy(w, w', {})
    case Creates(k, owner, fs) =>
      && k !in w.birth && |k.name| > 0
      && w'.birth == w.birth[k := Birth(owner, w.now)] && w'.meta == w.meta[k := Meta(fs, false)]
      && BodiesGrowBy(w, w', {k})
    case Marks(k) => k in w.meta && w'.birth == w.birth && w'.meta == MarkDeleted(w.meta, k) && BodiesGrowBy(w, w', {})
    case PutsOn(k, f) =>
      && Live(w, k) && w'.birth == w.birth && BodiesGrowBy(w, w', {})
      && w'.meta == w.meta[k := Meta(w.meta[k].finalizers + [f], false)]
    case TakesOff(k, f) =>
      k in w.meta && w'.birth == w.birth && w'.meta == TakeOff(w.meta, k, f) && BodiesGrowBy(w, w', {})
  }

  lemma OutsideDoes(w: World, o: Outside)
    requires GuardOutside(w, o)
    ensures Does(w, EffectOf(Env(o)), ApplyOutside(w, o))
  {
  }

  lemma CommonDoes(w: World, c: Common)
    requires GuardCommon(w, c)
    ensures Does(w, EffectOf(All(c)), ApplyCommon(w, c))
  {
  }

  lemma TestDoes(w: World, t: TestWrite)
    requires GuardTest(w, t)
    ensures Does(w, EffectOf(OfTest(t)), ApplyTest(w, t))
  {
  }

  lemma RunDoes(w: World, r: RunWrite)
    requires GuardRun(w, r)
    ensures Does(w, EffectOf(OfRun(r)), ApplyRun(w, r))
  {
  }

  lemma SuiteDoes(w: World, s: SuiteWrite)
    requires GuardSuite(w, s)
    ensures Does(w, EffectOf(OfSuite(s)), ApplySuite(w, s))
  {
  }

  lemma EventDoes(w: World, e: Event, w': World)
    requires Steps(w, e, w')
    ensures Does(w, EffectOf(e), w')
  {
    match e
    case Env(o) =>
      EnvStep(w, e, w');
      OutsideDoes(w, o);
    case All(c) =>
      CommonStep(w, e, w');
      CommonDoes(w, c);
    case OfTest(t) =>
      TestStep(w, e, w');
      TestDoes(w, t);
    case OfRun(r) =>
      RunStep(w, e, w');
      RunDoes(w, r);
    case OfSuite(s) =>
      SuiteStep(w, e, w');
      SuiteDoes(w, s);
  }
}
