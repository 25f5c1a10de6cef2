/** The API server as the reconcilers see it: reads of the present world, and writes that may fail. */
module Clusters {
  import opened Prelude
  import opened Store
  import opened Histories

  datatype Reply = Ok | NotFound | Error

  /** An object as a reconciler holds it: a copy of its metadata and body. */
  datatype Obj<+B> = Obj(key: Key, meta: Meta, body: B)

  /** The history has grown by writes to metadata only. */
  ghost predicate MetaWrites(early: seq<Event>, late: seq<Event>) {
    early <= late && forall n :: |early| <= n < |late| ==> late[n].All?
  }

  class Cluster {
    var w: World
    ghost var log: seq<Event>  // everything that has happened
    ghost var faults: nat      // how many writes to stored objects have failed
    const reliable: bool       // whether every write succeeds

    /** The world is the outcome of a legal history. */
    ghost predicate Valid()
      reads this
    {
      Reaches(log, w)
    }

    constructor (reliable: bool)
      ensures Valid() && w == EMPTY && log == [] && this.reliable == reliable
    {
      w, log, faults := EMPTY, [], 0;
      this.reliable := reliable;
    }

    /** The present world is one that a legal history reaches. */
    lemma IsReachable()
      requires Valid()
      ensures Legal(log) && After(log) == w && Invariant(w)
    {
      ReachesIsReached(log, w);
      Reachable(log);
    }

    /** An earlier world of the history leads to the present one. */
    lemma Leading(before: World, early: seq<Event>)
      requires Valid() && early <= log && Reaches(early, before)
      ensures Leads(before, w)
    {
      ReachesIsReached(early, before);
      ReachesIsReached(log, w);
      PassesThrough(early, log);
    }

    /** One write to the object `k`. It does all of what it asks for or nothing. */
    method Write(k: Key, e: Event) returns (r: Reply)
      requires Valid()
      requires k in w.meta ==> Guard(w, e)
      modifies this
      ensures Valid() && old(log) <= log
      ensures r == NotFound <==> k !in old(w).meta
      ensures r == Ok ==> Guard(old(w), e) && w == Apply(old(w), e) && log == old(log) + [e]
      ensures r != Ok ==> w == old(w) && log == old(log)
      ensures faults == old(faults) + if r == Error then 1 else 0
      ensures reliable && k in old(w).meta ==> r == Ok
    {
      if k !in w.meta { return NotFound; }
      var ok: bool := *;
      if !reliable && !ok {
        faults := faults + 1;
        return Error;
      }
      ghost var log', w' := Appends(log, w, e);
      log := log';
      w := Apply(w, e);
      return Ok;
    }

    /** Notes in the history that a run just created was never assigned. Nothing is written. */
    method Note(s: Key)
      requires Valid() && GuardSuite(w, LoseRun(s))
      modifies this
      ensures Valid() && log == old(log) + [OfSuite(LoseRun(s))]
      ensures w == old(w).(suites := old(w).suites[s := NextSuite(old(w).suites[s], LoseRun(s))])
    {
      ghost var log', w' := Appends(log, w, OfSuite(LoseRun(s)));
      log := log';
      w := Apply(w, OfSuite(LoseRun(s)));
    }

    /** The clock, which may have advanced since it was last read. */
    method Now() returns (t: nat)
      requires Valid()
      modifies this
      ensures Valid() && w == old(w).(now := t) && old(w).now <= t
      ensures log == old(log) + [Env(Tick(t - old(w).now))]
    {
      var d: nat :| d >= 0;
      ghost var log', w' := Appends(log, w, Env(Tick(d)));
      log := log';
      w := Apply(w, Env(Tick(d)));
      return w.now;
    }

    /** The stored children of an object, in any order. */
    method List(p: Key, kind: Kind) returns (ks: seq<Key>)
      requires Valid()
      ensures Distinct(ks)
      ensures forall k :: k in ks <==> k in w.meta && ChildOf(w, k, p) && k.kind == kind
    {
      IsReachable();
      var left := set k | k in w.meta && k.kind == kind && w.birth[k].owner == Some(p);
      ks := [];
      while left != {}
        invariant Distinct(ks)
        invariant forall k :: k in ks || k in left <==> k in w.meta && ChildOf(w, k, p) && k.kind == kind
        invariant forall k :: k in ks ==> k !in left
      {
        var k :| k in left;
        ks := ks + [k];
        left := left - {k};
      }
    }

    /** A name that no object of the kind has ever had. */
    method Generate(kind: Kind, prefix: string) returns (k: Key)
      requires |prefix| > 0
      ensures k !in w.birth && k.kind == kind && |k.name| > 0
    {
      var suffix := "x";
      ghost var tried := {};
      while Key(kind, prefix + suffix) in w.birth
        invariant forall s :: s in tried ==> s in w.birth && |s.name| < |prefix + suffix|
        decreases w.birth.Keys - tried
      {
        tried := tried + {Key(kind, prefix + suffix)};
        suffix := suffix + "x";
      }
      k := Key(kind, prefix + suffix);
    }
  }
}
