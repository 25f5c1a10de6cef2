/** The TestRun reconciler: one Test for each template, and the tally of their verdicts. */
module TestRunControllers {
  import opened Prelude
  import opened Store
  import opened Effects
  import opened Invariants
  import opened Slots
  import opened Verdicts
  import opened Clusters
  import opened Helpers
  import opened Compaction

  datatype Ending = Done | Stopped | Panicked

  // ----- the list of Tests

  ghost predicate TestOf(w: World, r: Key, o: Obj<Test>) {
    && o.key in w.meta && o.meta == w.meta[o.key] && o.key.kind == TestKind && ChildOf(w, o.key, r)
    && o.key in w.tests && o.body == w.tests[o.key]
  }

  ghost predicate Tests(w: World, r: Key, tests: seq<Obj<Test>>) {
    && KeysDiffer(tests)
    && (forall i :: 0 <= i < |tests| ==> TestOf(w, r, tests[i]))
    && (forall k :: k in w.meta && ChildOf(w, k, r) && k.kind == TestKind ==> k in KeysOf(tests))
  }

  /** The list once it has been compacted: the live Tests of the run. */
  ghost predicate LiveTests(w: World, r: Key, items: seq<Obj<Test>>) {
    && KeysDiffer(items)
    && (forall i :: 0 <= i < |items| ==> TestOf(w, r, items[i]) && !items[i].meta.deleting)
    && (forall k :: Live(w, k) && ChildOf(w, k, r) && k.kind == TestKind ==> k in KeysOf(items))
  }

  function Keys(items: seq<Obj<Test>>): (ks: seq<Key>)
    ensures |ks| == |items| && forall i :: 0 <= i < |ks| ==> ks[i] == items[i].key
  {
    seq(|items|, i requires 0 <= i < |items| => items[i].key)
  }

  predicate HasTestBody(w: World, k: Key) { k in w.meta && k in w.tests }

  // ----- the mapping

  predicate NamesSlot(o: Obj<Test>, n: nat) {
    ParseIndex(o.body.generateName).Some? && ParseIndex(o.body.generateName).value < n
  }

  ghost predicate SeenSlot(items: seq<Obj<Test>>, k: nat, p: nat)
    requires k <= |items|
  {
    exists i :: 0 <= i < k && ParseIndex(items[i].body.generateName) == Some(p)
  }

  /** The slots after the first `k` entries: slot `p` holds the entry at position `p` once an entry has named `p`. */
  ghost function SlotsAfter(items: seq<Obj<Test>>, k: nat, n: nat): (s: seq<Option<Obj<Test>>>)
    requires k <= |items|
    ensures |s| == n
    ensures forall p :: 0 <= p < n ==> s[p] == if SeenSlot(items, k, p) && p < |items| then Some(items[p]) else None
  {
    seq(n, p requires 0 <= p < n => if SeenSlot(items, k, p) && p < |items| then Some(items[p]) else None)
  }

  ghost predicate SafeSoFar(items: seq<Obj<Test>>, k: nat, n: nat)
    requires k <= |items|
  {
    forall i :: 0 <= i < k && NamesSlot(items[i], n) ==> ParseIndex(items[i].body.generateName).value < |items|
  }

  lemma OneMoreMapped(items: seq<Obj<Test>>, k: nat, n: nat)
    requires k < |items| && SafeSoFar(items, k + 1, n)
    ensures SlotsAfter(items, k + 1, n) ==
            if NamesSlot(items[k], n)
            then var v := ParseIndex(items[k].body.generateName).value; SlotsAfter(items, k, n)[v := Some(items[v])]
            else SlotsAfter(items, k, n)
  {
    forall p: nat
      ensures SeenSlot(items, k + 1, p) <==> SeenSlot(items, k, p) || ParseIndex(items[k].body.generateName) == Some(p)
    {
    }
  }

  /** Tests whose name gives no slot may have been cleaned up; nothing else has changed. */
  ghost predicate OnlyMisnamed(w: World, w': World, items: seq<Obj<Test>>, n: nat) {
    && w' == w.(meta := w'.meta)
    && (forall q :: q in w'.meta ==> q in w.meta)
    && (forall q :: q in w.meta && (forall i :: 0 <= i < |items| && items[i].key == q ==> NamesSlot(items[i], n)) ==>
          q in w'.meta && w'.meta[q] == w.meta[q])
  }

  lemma MisnamedGrows(w0: World, w1: World, w2: World, items: seq<Obj<Test>>, n: nat, i: nat)
    requires i < |items| && !NamesSlot(items[i], n) && OnlyMisnamed(w0, w1, items, n)
    requires OnlyMeta(w1, w2, {items[i].key})
    ensures OnlyMisnamed(w0, w2, items, n)
  {
  }

  /** The entries from `i` on are as they were read. */
  ghost predicate Untouched(w: World, items: seq<Obj<Test>>, i: nat) {
    forall j :: i <= j < |items| ==> items[j].key in w.meta && w.meta[items[j].key] == items[j].meta
  }

  lemma RestUntouched(w1: World, w2: World, items: seq<Obj<Test>>, i: nat)
    requires i < |items| && KeysDiffer(items) && Untouched(w1, items, i) && OnlyMeta(w1, w2, {items[i].key})
    ensures Untouched(w2, items, i + 1)
  {
    forall j | i + 1 <= j < |items| ensures items[j].key in w2.meta && w2.meta[items[j].key] == items[j].meta {
      assert items[j].key != items[i].key;
    }
  }

  /** Stores an entry in a slot. */
  method Fill(mapped: array<Option<Obj<Test>>>, p: nat, o: Obj<Test>)
    requires p < mapped.Length
    modifies mapped
    ensures mapped[..] == old(mapped[..])[p := Some(o)]
  {
    mapped[p] := Some(o);
  }

  /** Where the mapping loop stands after `i` entries. */
  ghost predicate MappedSoFar(w0: World, w: World, items: seq<Obj<Test>>, i: nat, n: nat,
      mapped: seq<Option<Obj<Test>>>)
    requires i <= |items|
  {
    && OnlyMisnamed(w0, w, items, n) && Untouched(w, items, i)
    && SafeSoFar(items, i, n) && mapped == SlotsAfter(items, i, n)
  }

  lemma EntryMapped(w0: World, w: World, items: seq<Obj<Test>>, i: nat, n: nat, was: seq<Option<Obj<Test>>>,
      mapped: seq<Option<Obj<Test>>>)
    requires i < |items| && MappedSoFar(w0, w, items, i, n, was) && NamesSlot(items[i], n)
    requires var v := ParseIndex(items[i].body.generateName).value;
             v < |items| && v < |was| && mapped == was[v := Some(items[v])]
    ensures MappedSoFar(w0, w, items, i + 1, n, mapped)
  {
    OneMoreSafe(items, i, n);
    OneMoreMapped(items, i, n);
    UntouchedPast(w, items, i);
  }

  lemma OneMoreSafe(items: seq<Obj<Test>>, i: nat, n: nat)
    requires i < |items| && SafeSoFar(items, i, n) && NamesSlot(items[i], n)
    requires ParseIndex(items[i].body.generateName).value < |items|
    ensures SafeSoFar(items, i + 1, n)
  {
  }

  lemma NotSafe(items: seq<Obj<Test>>, i: nat, n: nat)
    requires i < |items| && NamesSlot(items[i], n) && ParseIndex(items[i].body.generateName).value >= |items|
    ensures !SafeSoFar(items, |items|, n)
  {
  }

  lemma NothingMappedYet(w: World, r: Key, items: seq<Obj<Test>>, n: nat, mapped: seq<Option<Obj<Test>>>)
    requires LiveTests(w, r, items) && |mapped| == n && forall p :: 0 <= p < n ==> mapped[p] == None
    ensures MappedSoFar(w, w, items, 0, n, mapped)
  {
    forall i | 0 <= i < |items| ensures items[i].key in w.meta && w.meta[items[i].key] == items[i].meta {
      assert TestOf(w, r, items[i]);
    }
  }

  lemma UntouchedPast(w: World, items: seq<Obj<Test>>, i: nat)
    requires i < |items| && Untouched(w, items, i)
    ensures Untouched(w, items, i + 1)
  {
  }

  lemma StillARun(w: World, w': World, items: seq<Obj<Test>>, n: nat, r: Key)
    requires OnlyMisnamed(w, w', items, n) && Live(w, r) && r.kind == RunKind && LiveTests(w, r, items)
    ensures Live(w', r) && w'.meta[r] == w.meta[r]
  {
    forall i | 0 <= i < |items| ensures items[i].key != r {
      assert TestOf(w, r, items[i]);
    }
  }

  // ----- what the mapped slots say in terms of the store

  function SlotKeys(s: seq<Option<Obj<Test>>>): (ks: seq<Option<Key>>)
    ensures |ks| == |s| && forall p :: 0 <= p < |s| ==> ks[p] == if s[p].Some? then Some(s[p].value.key) else None
  {
    seq(|s|, p requires 0 <= p < |s| => if s[p].Some? then Some(s[p].value.key) else None)
  }

  ghost predicate BodiesAgree(w: World, items: seq<Obj<Test>>) {
    forall i :: 0 <= i < |items| ==> items[i].key in w.tests && w.tests[items[i].key] == items[i].body
  }

  lemma SeenIsNamed(w: World, items: seq<Obj<Test>>, p: nat)
    requires BodiesAgree(w, items)
    ensures SeenSlot(items, |items|, p) <==> Named(w, Keys(items), p)
  {
    var ks := Keys(items);
    if SeenSlot(items, |items|, p) {
      var i :| 0 <= i < |items| && ParseIndex(items[i].body.generateName) == Some(p);
      assert Slot(w, ks[i]) == Some(p);
    }
    if Named(w, ks, p) {
      var i :| 0 <= i < |ks| && Slot(w, ks[i]) == Some(p);
      assert ParseIndex(items[i].body.generateName) == Some(p);
    }
  }

  lemma SlotsAreMapped(w: World, items: seq<Obj<Test>>, n: nat)
    requires BodiesAgree(w, items)
    ensures SlotKeys(SlotsAfter(items, |items|, n)) == MappedSlots(w, Keys(items), n)
    ensures SafeSoFar(items, |items|, n) <==> InBounds(w, Keys(items), n)
  {
    var ks := Keys(items);
    forall p: nat ensures SeenSlot(items, |items|, p) <==> Named(w, ks, p) { SeenIsNamed(w, items, p); }
    forall i | 0 <= i < |items| ensures NamesSlot(items[i], n) <==> ValidSlot(w, ks[i], n) {}
    if SafeSoFar(items, |items|, n) {
      forall i | 0 <= i < |ks| && ValidSlot(w, ks[i], n) ensures Slot(w, ks[i]).value < |ks| {
        assert NamesSlot(items[i], n);
      }
    }
    if InBounds(w, ks, n) {
      forall i | 0 <= i < |items| && NamesSlot(items[i], n)
          ensures ParseIndex(items[i].body.generateName).value < |items| {
        assert ValidSlot(w, ks[i], n);
      }
    }
  }

  predicate SameTest(w: World, w': World, t: Key) {
    (t in w'.tests <==> t in w.tests) && (t in w.tests ==> w'.tests[t] == w.tests[t])
  }

  /** Results depend only on the verdicts of the Tests in the slots. */
  lemma {:induction false} ResultsSame(w: World, w': World, slots: seq<Option<Key>>, templates: seq<string>)
    requires |slots| <= |templates|
    requires forall p :: 0 <= p < |slots| && slots[p].Some? ==> SameTest(w, w', slots[p].value)
    ensures Results(w', slots, templates) == Results(w, slots, templates)
    ensures AllDone(w', slots) <==> AllDone(w, slots)
  {
    if slots != [] {
      ResultsSame(w, w', slots[..|slots| - 1], templates);
      assert forall p :: 0 <= p < |slots| ==> Counts(w', slots[p]) == Counts(w, slots[p]);
    }
  }

  // ----- creating the missing Tests

  /** Only new Tests have come, each without a phase and for a slot below `p`. */
  ghost predicate OnlyNewTests(w: World, w': World, r: Key, p: nat) {
    && w'.runs == w.runs
    && (forall q :: q in w.birth ==> q in w'.birth && w'.birth[q] == w.birth[q])
    && (forall q :: q in w.birth ==> (q in w'.meta <==> q in w.meta) && (q in w.meta ==> w'.meta[q] == w.meta[q]))
    && (forall t :: t in w.tests ==> t in w'.tests && w'.tests[t] == w.tests[t])
    && (forall t :: Live(w', t) && ChildOf(w', t, r) && t !in w.birth ==>
          t in w'.tests && w'.tests[t].phase == TestUnset && ValidSlot(w', t, p))
  }

  lemma {:induction false} DecimalsTell(m: nat, n: nat)
    ensures Decimal(m) == Decimal(n) ==> m == n
  {
    if m >= 10 && n >= 10 && Decimal(m) == Decimal(n) {
      assert Decimal(m)[..|Decimal(m)| - 1] == Decimal(m / 10) && Decimal(n)[..|Decimal(n)| - 1] == Decimal(n / 10);
      DecimalsTell(m / 10, n / 10);
    }
  }

  /** The name of a generated Test tells its slot, for slots of any size. */
  lemma NamesTell(r: Key, p: nat, q: nat)
    ensures GenerateName(r, p) == GenerateName(r, q) ==> p == q
  {
    var a, b := GenerateName(r, p), GenerateName(r, q);
    var n := |r.name| + 1;
    assert a[n..|a| - 1] == Decimal(p) && b[n..|b| - 1] == Decimal(q);
    DecimalsTell(p, q);
  }

  ghost predicate TestCreated(w: World, w': World, r: Key, p: nat, k: Key) {
    && k.kind == TestKind && k !in w.birth && k !in w.tests
    && w'.runs == w.runs
    && w'.birth == w.birth[k := Birth(Some(r), w.now)] && w'.meta == w.meta[k := Meta([TestController], false)]
    && r in w.runs && w'.tests == w.tests[k := Test(GenerateName(r, p), w.runs[r].retention, TestUnset)]
  }

  /** A Test made for slot `q` of the run: unstarted, held by its controller, and with the policy of the run. */
  ghost predicate NewTestFor(w: World, w': World, r: Key, t: Key, q: nat) {
    && t !in w.birth && ChildOf(w', t, r) && t in w'.meta && w'.meta[t] == Meta([TestController], false)
    && r in w.runs && t in w'.tests && w'.tests[t] == Test(GenerateName(r, q), w.runs[r].retention, TestUnset)
  }

  ghost predicate MadeFor(w: World, w': World, r: Key, q: nat) { exists t :: NewTestFor(w, w', r, t, q) }

  /** The Test has been made for one of the first `p` slots, an empty one. */
  ghost predicate MadeForEmpty(w: World, w': World, r: Key, t: Key, slots: seq<Option<Key>>, p: nat)
    requires p <= |slots|
  {
    exists q: nat :: q < p && slots[q].None? && NewTestFor(w, w', r, t, q)
  }

  /** Each of the first `p` slots that was empty has been given one Test, and the run has got no others. */
  ghost predicate Replenishes(w: World, w': World, r: Key, slots: seq<Option<Key>>, p: nat)
    requires p <= |slots|
  {
    && (forall q: nat :: q < p && slots[q].None? ==> MadeFor(w, w', r, q))
    && (forall t :: t !in w.birth && ChildOf(w', t, r) ==> MadeForEmpty(w, w', r, t, slots, p))
    && (forall t, u, q: nat :: NewTestFor(w, w', r, t, q) && NewTestFor(w, w', r, u, q) ==> t == u)
  }

  /** The same, spelled out only where `Unsealed` is mentioned. */
  ghost predicate Replenished(w: World, w': World, r: Key, slots: seq<Option<Key>>, p: nat)
    requires p <= |slots|
  {
    forall k {:trigger Unsealed(k)} :: Unsealed(k) ==> Replenishes(w, w', r, slots, p)
  }

  lemma NoneMadeYet(w: World, r: Key, slots: seq<Option<Key>>)
    ensures Replenished(w, w, r, slots, 0)
  {
  }

  lemma NoneToMake(w: World, w': World, r: Key, slots: seq<Option<Key>>, p: nat)
    requires p < |slots| && Replenished(w, w', r, slots, p) && slots[p].Some?
    ensures Replenished(w, w', r, slots, p + 1)
  {
    assert Unsealed(0);
    forall t | t !in w.birth && ChildOf(w', t, r) ensures MadeForEmpty(w, w', r, t, slots, p + 1) {
      var q: nat :| q < p && slots[q].None? && NewTestFor(w, w', r, t, q);
      assert q < p + 1;
    }
  }

  /** What was made before is as it was. */
  lemma StillMade(w0: World, w1: World, w2: World, r: Key, p: nat, k: Key, t: Key, q: nat)
    requires TestCreated(w1, w2, r, p, k) && NewTestFor(w0, w1, r, t, q)
    ensures NewTestFor(w0, w2, r, t, q)
  {
  }

  lemma MadeNow(w0: World, w1: World, w2: World, r: Key, p: nat, k: Key)
    requires TestCreated(w1, w2, r, p, k) && OnlyNewTests(w0, w1, r, p) && r in w0.runs
    ensures NewTestFor(w0, w2, r, k, p)
  {
  }

  lemma OneMoreMade(w0: World, w1: World, w2: World, r: Key, slots: seq<Option<Key>>, p: nat, k: Key)
    requires p < |slots| && Replenished(w0, w1, r, slots, p) && slots[p].None?
    requires TestCreated(w1, w2, r, p, k) && OnlyNewTests(w0, w1, r, p)
    ensures Replenished(w0, w2, r, slots, p + 1)
  {
    assert Unsealed(0);
    MadeNow(w0, w1, w2, r, p, k);
    forall q: nat | q < p + 1 && slots[q].None? ensures MadeFor(w0, w2, r, q) {
      if q < p {
        var t :| NewTestFor(w0, w1, r, t, q);
        StillMade(w0, w1, w2, r, p, k, t, q);
      }
    }
    forall t | t !in w0.birth && ChildOf(w2, t, r) && t != k ensures ChildOf(w1, t, r) && t in w1.birth {}
    MadeForEmptyOnes(w0, w1, w2, r, slots, p, k);
    MadeOnce(w0, w1, w2, r, slots, p, k);
  }

  lemma MadeForEmptyOnes(w0: World, w1: World, w2: World, r: Key, slots: seq<Option<Key>>, p: nat, k: Key)
    requires p < |slots| && Replenishes(w0, w1, r, slots, p) && slots[p].None?
    requires TestCreated(w1, w2, r, p, k) && NewTestFor(w0, w2, r, k, p)
    ensures forall t :: t !in w0.birth && ChildOf(w2, t, r) ==> MadeForEmpty(w0, w2, r, t, slots, p + 1)
  {
    forall t | t !in w0.birth && ChildOf(w2, t, r) ensures MadeForEmpty(w0, w2, r, t, slots, p + 1) {
      if t == k {
        assert p < p + 1;
      } else {
        assert ChildOf(w1, t, r);
        var q: nat :| q < p && slots[q].None? && NewTestFor(w0, w1, r, t, q);
        StillMade(w0, w1, w2, r, p, k, t, q);
        assert q < p + 1;
      }
    }
  }

  lemma MadeOnce(w0: World, w1: World, w2: World, r: Key, slots: seq<Option<Key>>, p: nat, k: Key)
    requires p < |slots| && Replenishes(w0, w1, r, slots, p) && TestCreated(w1, w2, r, p, k)
    ensures forall t, u, q: nat :: NewTestFor(w0, w2, r, t, q) && NewTestFor(w0, w2, r, u, q) ==> t == u
  {
    forall t, u, q: nat | NewTestFor(w0, w2, r, t, q) && NewTestFor(w0, w2, r, u, q) ensures t == u {
      if t != k { NotForThisSlot(w0, w1, w2, r, slots, p, k, t, q); }
      if u != k { NotForThisSlot(w0, w1, w2, r, slots, p, k, u, q); }
      if t == k && u != k { NamesTell(r, p, q); }
      if u == k && t != k { NamesTell(r, p, q); }
    }
  }

  /** A Test that was there before the last one is for another slot. */
  lemma NotForThisSlot(w0: World, w1: World, w2: World, r: Key, slots: seq<Option<Key>>, p: nat, k: Key, t: Key, q: nat)
    requires p < |slots| && Replenishes(w0, w1, r, slots, p) && TestCreated(w1, w2, r, p, k)
    requires NewTestFor(w0, w2, r, t, q) && t != k
    ensures NewTestFor(w0, w1, r, t, q) && q < p
  {
    assert ChildOf(w1, t, r);
    var q': nat :| q' < p && slots[q'].None? && NewTestFor(w0, w1, r, t, q');
    NamesTell(r, q, q');
  }

  lemma OneMoreTest(w0: World, w1: World, w2: World, r: Key, p: nat, k: Key)
    requires OnlyNewTests(w0, w1, r, p) && w0.meta.Keys <= w0.birth.Keys && |r.name| > 0 && TestCreated(w1, w2, r, p, k)
    ensures OnlyNewTests(w0, w2, r, p + 1)
    ensures p < 10 ==> LiveInSlot(w2, r, k, p)
  {
    ParseGenerated(r, p);
    assert p % 10 <= p;
    forall t | Live(w2, t) && ChildOf(w2, t, r) && t !in w0.birth
      ensures t in w2.tests && w2.tests[t].phase == TestUnset && ValidSlot(w2, t, p + 1)
    {
      if t != k {
        assert Live(w1, t) && ChildOf(w1, t, r);
      }
    }
  }

  lemma SlotsStayFilled(w1: World, w2: World, r: Key, p: nat, k: Key, t: Key, q: nat)
    requires TestCreated(w1, w2, r, p, k) && LiveInSlot(w1, r, t, q)
    ensures LiveInSlot(w2, r, t, q)
  {
  }

  /** A slot that the mapping left empty has no live Test, so a Test for it may be created. */
  lemma SlotIsFree(w0: World, w1: World, r: Key, items: seq<Obj<Test>>, n: nat, p: nat)
    requires OnlyNewTests(w0, w1, r, p) && BodiesAgree(w0, items) && p < n && WellBorn(w0) && r.kind == RunKind
    requires forall k :: Live(w0, k) && ChildOf(w0, k, r) && k.kind == TestKind ==> k in KeysOf(items)
    requires SafeSoFar(items, |items|, n) && SlotsAfter(items, |items|, n)[p] == None
    ensures forall t :: t in w1.meta && ChildOf(w1, t, r) && Live(w1, t) ==> Slot(w1, t) != Some(p)
  {
    forall i | 0 <= i < |items| ensures ParseIndex(items[i].body.generateName) != Some(p) {
      assert NamesSlot(items[i], n) || ParseIndex(items[i].body.generateName) != Some(p);
    }
    forall t | t in w1.meta && ChildOf(w1, t, r) && Live(w1, t) ensures Slot(w1, t) != Some(p) {
      if t in w0.birth {
        assert ChildOf(w0, t, r) && t.kind == TestKind;
        var i :| 0 <= i < |items| && items[i].key == t;
      }
    }
  }

  /** The list names all live Tests of the run, and every entry whose name gives a slot is one of them. */
  ghost predicate Visitable(w: World, r: Key, items: seq<Obj<Test>>, n: nat) {
    && AllListed(w, r, items) && KeysDiffer(items)
    && (forall i :: 0 <= i < |items| && NamesSlot(items[i], n) ==> Live(w, items[i].key))
    && (forall i :: 0 <= i < |items| ==> ChildOf(w, items[i].key, r) && items[i].key.kind == TestKind)
  }

  /** When the turn of slot `p` comes, the slots before it are filled. */
  lemma BeforeAreFilled(w0: World, w1: World, r: Key, items: seq<Obj<Test>>, mapped: seq<Option<Obj<Test>>>, p: nat)
    requires Visitable(w0, r, items, |mapped|) && SafeSoFar(items, |items|, |mapped|) && w0.meta.Keys <= w0.birth.Keys
    requires mapped == SlotsAfter(items, |items|, |mapped|) && p < |mapped| && FilledBelow(w0, w1, r, mapped, p)
    ensures FilledUpTo(w1, r, p)
  {
    forall q: nat | q < p && q < 10 ensures SlotFilled(w1, r, q) {
      if mapped[q].Some? {
        var i :| 0 <= i < |items| && ParseIndex(items[i].body.generateName) == Some(q);
        assert NamesSlot(items[i], |mapped|);
        assert LiveInSlot(w1, r, items[i].key, q);
      }
    }
  }

  /** No new Test and none of the list names a slot beyond their number. */
  lemma NoneBeyond(w0: World, w1: World, r: Key, items: seq<Obj<Test>>, mapped: seq<Option<Obj<Test>>>, p: nat)
    requires Visitable(w0, r, items, |mapped|) && SafeSoFar(items, |items|, |mapped|) && SlotsValid(w0)
    requires r in w0.runs && |w0.runs[r].templates| == |mapped| && r.kind == RunKind && w0.meta.Keys <= w0.birth.Keys
    requires mapped == SlotsAfter(items, |items|, |mapped|) && p < |mapped| && FilledBelow(w0, w1, r, mapped, p)
    ensures !NamesBeyond(w1, r)
  {
    BeforeAreFilled(w0, w1, r, items, mapped, p);
    CountsFilled(w1, r, if p < 10 then p else 10);
    AsManyAsListed(w0, w1, r, items, |mapped|, p);
    forall t ensures !Beyond(w1, r, t) {
      if t in LiveTestsOf(w1, r) { NotBeyond(w0, w1, r, items, |mapped|, p, t); }
    }
  }

  lemma AsManyAsListed(w0: World, w1: World, r: Key, items: seq<Obj<Test>>, n: nat, p: nat)
    requires Visitable(w0, r, items, n) && SlotsValid(w0) && OnlyNewTests(w0, w1, r, p) && w0.meta.Keys <= w0.birth.Keys
    requires r in w0.runs && |w0.runs[r].templates| == n
    ensures |items| <= |LiveTestsOf(w1, r)|
  {
    var ks := Keys(items);
    forall i | 0 <= i < |ks| ensures ks[i] in LiveTestsOf(w1, r) {
      assert ChildOf(w0, items[i].key, r) && NamesSlot(items[i], n);
    }
    SizeOfDistinct(ks, |ks|);
    SubsetSize(set i | 0 <= i < |ks| :: ks[i], LiveTestsOf(w1, r));
  }

  lemma NotBeyond(w0: World, w1: World, r: Key, items: seq<Obj<Test>>, n: nat, p: nat, t: Key)
    requires Visitable(w0, r, items, n) && SafeSoFar(items, |items|, n) && OnlyNewTests(w0, w1, r, p)
    requires r in w0.runs && |w0.runs[r].templates| == n && t in LiveTestsOf(w1, r)
    requires |items| <= |LiveTestsOf(w1, r)| && (if p < 10 then p else 10) <= |LiveTestsOf(w1, r)|
    ensures !Beyond(w1, r, t)
  {
    if t in w0.birth {
      assert t in KeysOf(items);
      var i :| 0 <= i < |items| && items[i].key == t;
      assert NamesSlot(items[i], n) ==> ParseIndex(items[i].body.generateName).value < |items|;
    } else {
      assert ValidSlot(w1, t, p);
    }
  }

  lemma FilledAfter(w1: World, w2: World, r: Key, p: nat, k: Key)
    requires TestCreated(w1, w2, r, p, k) && (p < 10 ==> LiveInSlot(w2, r, k, p))
    ensures p < 10 ==> SlotFilled(w2, r, p)
    ensures forall q :: SlotFilled(w1, r, q) ==> SlotFilled(w2, r, q)
  {
    forall q | SlotFilled(w1, r, q) ensures SlotFilled(w2, r, q) {
      var t :| LiveInSlot(w1, r, t, q);
      SlotsStayFilled(w1, w2, r, p, k, t, q);
    }
  }

  lemma EntryAgrees(w: World, items: seq<Obj<Test>>, n: nat, p: nat, o: Obj<Test>)
    requires BodiesAgree(w, items) && p < n && SlotsAfter(items, |items|, n)[p] == Some(o)
    ensures o.key in w.tests && w.tests[o.key] == o.body
  {
  }

  ghost predicate ReadyRun(w: World, r: Key) {
    && r.kind == RunKind && Live(w, r) && Holds(w, r, TestRunController)
    && RunInProgress(w, r) && w.runs[r].phase != RunUnset
  }

  ghost predicate AllListed(w: World, r: Key, items: seq<Obj<Test>>) {
    && BodiesAgree(w, items)
    && forall k :: Live(w, k) && ChildOf(w, k, r) && k.kind == TestKind ==> k in KeysOf(items)
  }

  /** The slots below `p` that the mapping left empty have been given a Test. */
  ghost predicate FilledBelow(w: World, w': World, r: Key, mapped: seq<Option<Obj<Test>>>, p: nat)
    requires p <= |mapped|
  {
    && OnlyNewTests(w, w', r, p) && (forall q :: 0 <= q < p && q < 10 && mapped[q].None? ==> SlotFilled(w', r, q))
    && Replenished(w, w', r, SlotKeys(mapped), p)
  }

  lemma FilledWithNew(w0: World, w1: World, w2: World, r: Key, mapped: seq<Option<Obj<Test>>>, p: nat, k: Key)
    requires p < |mapped| && FilledBelow(w0, w1, r, mapped, p) && w0.meta.Keys <= w0.birth.Keys
    requires |r.name| > 0 && TestCreated(w1, w2, r, p, k) && mapped[p].None?
    ensures FilledBelow(w0, w2, r, mapped, p + 1)
  {
    OneMoreTest(w0, w1, w2, r, p, k);
    OneMoreMade(w0, w1, w2, r, SlotKeys(mapped), p, k);
    FilledAfter(w1, w2, r, p, k);
  }

  lemma FilledAlready(w0: World, w1: World, r: Key, mapped: seq<Option<Obj<Test>>>, p: nat)
    requires p < |mapped| && FilledBelow(w0, w1, r, mapped, p) && mapped[p].Some?
    ensures FilledBelow(w0, w1, r, mapped, p + 1)
  {
    NoneToMake(w0, w1, r, SlotKeys(mapped), p);
  }

  lemma StillReady(w: World, w': World, r: Key, mapped: seq<Option<Obj<Test>>>, p: nat)
    requires p <= |mapped| && FilledBelow(w, w', r, mapped, p) && ReadyRun(w, r) && w.meta.Keys <= w.birth.Keys
    ensures ReadyRun(w', r) && w'.runs[r] == w.runs[r]
  {
  }

  /** One turn of the tally loop computes one more line of the results. */
  lemma OneMoreLine(w: World, items: seq<Obj<Test>>, mapped: seq<Option<Obj<Test>>>, templates: seq<string>, p: nat,
      before: seq<TestResult>, after: seq<TestResult>)
    requires p < |mapped| <= |templates| && mapped == SlotsAfter(items, |items|, |mapped|) && BodiesAgree(w, items)
    requires before == Results(w, SlotKeys(mapped)[..p], templates)
    requires after == if mapped[p].None? || !mapped[p].value.body.phase.IsFinal() then before
                      else
                        var o := mapped[p].value;
                        before + [TestResult(templates[p], o.key, o.body.phase == TestPassed)]
    ensures after == Results(w, SlotKeys(mapped)[..p + 1], templates)
    ensures Passes(after) == Passes(before) +
              if mapped[p].Some? && mapped[p].value.body.phase == TestPassed then 1 else 0
  {
    var slots := SlotKeys(mapped);
    assert slots[..p + 1][..p] == slots[..p];
    if mapped[p].Some? { EntryAgrees(w, items, |mapped|, p, mapped[p].value); }
    if after != before { assert after[..|after| - 1] == before; }
  }

  // ----- the pass over a run in progress

  /** The live Tests of the run, in some order. */
  ghost predicate LiveList(w: World, r: Key, items: seq<Key>) {
    Distinct(items) && forall t :: t in items <==> t.kind == TestKind && Live(w, t) && ChildOf(w, t, r)
  }

  /** The status of the run is the tally of its live Tests, in the order in which they were listed. */
  ghost predicate TalliedBy(w: World, w': World, r: Key, items: seq<Key>) {
    && LiveList(w, r, items) && r in w.runs && r in w'.runs
    && var n := |w.runs[r].templates|;
       && InBounds(w, items, n)
       && w'.runs[r].results == Results(w, MappedSlots(w, items, n), w.runs[r].templates)
       && w'.runs[r].phase == Outcome(w, MappedSlots(w, items, n), w'.runs[r].results)
  }

  /** The mapping of this list leaves these slots empty, and the pass gives each of them one Test. */
  ghost predicate EmptyFilled(w: World, w': World, r: Key, items: seq<Key>) {
    r in w.runs && var n := |w.runs[r].templates|; Replenished(w, w', r, MappedSlots(w, items, n), n)
  }

  /** The status is the tally of the live Tests in some order, and the slots that this leaves empty have got a Test. */
  ghost predicate Tallied(w: World, w': World, r: Key) {
    exists items :: TalliedBy(w, w', r, items) && EmptyFilled(w, w', r, items)
  }

  lemma StaysReplenished(w0: World, w1: World, w2: World, w3: World, r: Key, slots: seq<Option<Key>>, p: nat)
    requires p <= |slots| && Replenished(w1, w2, r, slots, p)
    requires w0.birth == w1.birth && r in w0.runs && r in w1.runs && w0.runs[r].retention == w1.runs[r].retention
    requires w3 == w2.(runs := w3.runs)
    ensures Replenished(w0, w3, r, slots, p)
  {
    assert Unsealed(0);
    forall t, q: nat ensures NewTestFor(w0, w3, r, t, q) <==> NewTestFor(w1, w2, r, t, q) {}
    forall q: nat | q < p && slots[q].None? ensures MadeFor(w0, w3, r, q) {
      var t :| NewTestFor(w1, w2, r, t, q);
      assert NewTestFor(w0, w3, r, t, q);
    }
    forall t | t !in w0.birth && ChildOf(w3, t, r) ensures MadeForEmpty(w0, w3, r, t, slots, p) {
      var q: nat :| q < p && slots[q].None? && NewTestFor(w1, w2, r, t, q);
      assert NewTestFor(w0, w3, r, t, q);
    }
  }

  /** Some order of the live Tests indexes the list past its end. */
  ghost predicate Overruns(w: World, r: Key) {
    exists items :: LiveList(w, r, items) && r in w.runs && !InBounds(w, items, |w.runs[r].templates|)
  }

  /** Every slot below the tenth that the run has is filled by a live Test. */
  ghost predicate SlotsFilled(w: World, r: Key) {
    r in w.runs && forall q: nat :: q < |w.runs[r].templates| && q < 10 ==> SlotFilled(w, r, q)
  }

  lemma ListIsAgreed(w: World, r: Key, items: seq<Obj<Test>>)
    requires LiveTests(w, r, items)
    ensures BodiesAgree(w, items) && AllListed(w, r, items) && LiveList(w, r, Keys(items))
  {
    forall i | 0 <= i < |items| ensures items[i].key in w.tests && w.tests[items[i].key] == items[i].body {
      assert TestOf(w, r, items[i]);
    }
    var ks := Keys(items);
    forall t ensures t in ks <==> t.kind == TestKind && Live(w, t) && ChildOf(w, t, r) {
      if t in ks {
        var i :| 0 <= i < |ks| && ks[i] == t;
        assert TestOf(w, r, items[i]);
      }
      if t.kind == TestKind && Live(w, t) && ChildOf(w, t, r) {
        var i :| 0 <= i < |items| && items[i].key == t;
        assert ks[i] == t;
      }
    }
  }

  lemma OverrunBy(w: World, r: Key, items: seq<Obj<Test>>)
    requires LiveTests(w, r, items) && r in w.runs && !InBounds(w, Keys(items), |w.runs[r].templates|)
    ensures Overruns(w, r)
  {
    ListIsAgreed(w, r, items);
  }

  lemma AfterMapping(w: World, w1: World, r: Key, items: seq<Obj<Test>>, n: nat)
    requires ReadyRun(w, r) && LiveTests(w, r, items) && OnlyMisnamed(w, w1, items, n)
    ensures ReadyRun(w1, r) && w1.runs == w.runs && AllListed(w1, r, items) && w1.tests == w.tests
    ensures forall i :: 0 <= i < |items| && NamesSlot(items[i], n) ==> Live(w1, items[i].key)
    ensures forall k :: Live(w1, k) && ChildOf(w1, k, r) && k.kind == TestKind ==> k in Keys(items)
  {
    StillARun(w, w1, items, n, r);
    ListIsAgreed(w, r, items);
    forall i | 0 <= i < |items| && NamesSlot(items[i], n) ensures Live(w1, items[i].key) {
      assert TestOf(w, r, items[i]);
      forall j | 0 <= j < |items| && items[j].key == items[i].key ensures j == i {}
    }
  }

  lemma TallyIsListed(w1: World, w2: World, r: Key, items: seq<Obj<Test>>, mapped: seq<Option<Obj<Test>>>)
    requires r.kind == RunKind && WellBorn(w1) && KeysDiffer(items) && AllListed(w1, r, items)
    requires forall i :: 0 <= i < |items| ==> ChildOf(w1, items[i].key, r) && items[i].key.kind == TestKind
    requires forall i :: 0 <= i < |items| && NamesSlot(items[i], |mapped|) ==> Live(w1, items[i].key)
    requires FilledBelow(w1, w2, r, mapped, |mapped|)
    ensures BodiesAgree(w2, items) && Listed(w2, r, Keys(items), |mapped|)
  {
    var ks := Keys(items);
    forall t | t in ks ensures ChildOf(w2, t, r) && t in w2.tests && (Live(w2, t) || !ValidSlot(w2, t, |mapped|)) {
      var i :| 0 <= i < |ks| && ks[i] == t;
      assert w2.tests[t] == items[i].body;
      assert ValidSlot(w2, t, |mapped|) ==> NamesSlot(items[i], |mapped|);
    }
    forall t | t in w2.meta && ChildOf(w2, t, r) && Live(w2, t)
      ensures t in ks || (t in w2.tests && w2.tests[t].phase == TestUnset)
    {
      if t in w1.birth {
        assert ChildOf(w1, t, r) && Live(w1, t) && t.kind == TestKind;
        var i :| 0 <= i < |items| && items[i].key == t;
        assert ks[i] == t;
      }
    }
  }

  lemma TallyIsCounted(w1: World, w2: World, r: Key, items: seq<Obj<Test>>, mapped: seq<Option<Obj<Test>>>,
      results: seq<TestResult>, phase: RunPhase)
    requires BodiesAgree(w1, items) && BodiesAgree(w2, items) && r in w2.runs && |w2.runs[r].templates| == |mapped|
    requires mapped == SlotsAfter(items, |items|, |mapped|) && SafeSoFar(items, |items|, |mapped|)
    requires results == Results(w1, SlotKeys(mapped), w2.runs[r].templates)
    requires phase == if |mapped| != |results| then RunRunning
                      else if Passes(results) == |results| then RunPassed else RunFailed
    ensures var ks := Keys(items);
            var slots := MappedSlots(w2, ks, |mapped|);
            && InBounds(w2, ks, |mapped|) && slots == MappedSlots(w1, ks, |mapped|) && InBounds(w1, ks, |mapped|)
            && results == Results(w2, slots, w2.runs[r].templates) == Results(w1, slots, w2.runs[r].templates)
            && phase == Outcome(w2, slots, results) == Outcome(w1, slots, results)
  {
    SlotsAreMapped(w1, items, |mapped|);
    SlotsAreMapped(w2, items, |mapped|);
    var slots := SlotKeys(mapped);
    forall p | 0 <= p < |slots| && slots[p].Some?
      ensures slots[p].value in w1.tests && slots[p].value in w2.tests
      ensures w2.tests[slots[p].value] == w1.tests[slots[p].value]
    {
      EntryAgrees(w1, items, |mapped|, p, mapped[p].value);
      EntryAgrees(w2, items, |mapped|, p, mapped[p].value);
    }
    ResultsSame(w1, w2, slots, w2.runs[r].templates);
    DoneWhenFull(w1, slots, w2.runs[r].templates);
  }

  lemma TallyDone(w: World, w1: World, w3: World, r: Key, items: seq<Obj<Test>>, n: nat, results: seq<TestResult>)
    requires LiveTests(w, r, items) && w1.tests == w.tests && r in w.runs && n == |w.runs[r].templates|
    requires r in w3.runs && w3.runs[r].results == results && InBounds(w1, Keys(items), n)
    requires results == Results(w1, MappedSlots(w1, Keys(items), n), w.runs[r].templates)
    requires w3.runs[r].phase == Outcome(w1, MappedSlots(w1, Keys(items), n), results)
    ensures TalliedBy(w, w3, r, Keys(items)) && MappedSlots(w1, Keys(items), n) == MappedSlots(w, Keys(items), n)
  {
    ListIsAgreed(w, r, items);
    SlotsAreMapped(w, items, n);
    SlotsAreMapped(w1, items, n);
    SameTestsSameTally(w, w1, MappedSlots(w, Keys(items), n), w.runs[r].templates);
  }

  lemma SlotsDone(w1: World, w2: World, w3: World, r: Key, items: seq<Obj<Test>>, mapped: seq<Option<Obj<Test>>>)
    requires mapped == SlotsAfter(items, |items|, |mapped|) && FilledBelow(w1, w2, r, mapped, |mapped|)
    requires BodiesAgree(w1, items) && w1.meta.Keys <= w1.birth.Keys
    requires forall i :: 0 <= i < |items| && NamesSlot(items[i], |mapped|) ==> Live(w1, items[i].key)
    requires forall i :: 0 <= i < |items| ==> ChildOf(w1, items[i].key, r) && items[i].key.kind == TestKind
    requires w3 == w2.(runs := w3.runs) && r in w3.runs && |w3.runs[r].templates| == |mapped|
    ensures SlotsFilled(w3, r)
  {
    forall q: nat | q < |mapped| && q < 10 ensures SlotFilled(w3, r, q) {
      if mapped[q].None? {
        var t :| LiveInSlot(w2, r, t, q);
        assert LiveInSlot(w3, r, t, q);
      } else {
        var i :| 0 <= i < |items| && ParseIndex(items[i].body.generateName) == Some(q);
        assert NamesSlot(items[i], |mapped|) && Live(w1, items[i].key);
        assert LiveInSlot(w3, r, items[i].key, q);
      }
    }
  }

  lemma SameTestsSameTally(w: World, w': World, slots: seq<Option<Key>>, templates: seq<string>)
    requires |slots| <= |templates| && w'.tests == w.tests
    ensures Results(w', slots, templates) == Results(w, slots, templates)
    ensures forall r :: Outcome(w', slots, r) == Outcome(w, slots, r)
  {
    ResultsSame(w, w', slots, templates);
    assert forall o :: Counts(w', o) == Counts(w, o);
  }

  lemma AllAreChildren(w: World, w1: World, r: Key, items: seq<Obj<Test>>)
    requires LiveTests(w, r, items) && w1.birth == w.birth
    ensures forall i :: 0 <= i < |items| ==> ChildOf(w1, items[i].key, r) && items[i].key.kind == TestKind
  {
    forall i | 0 <= i < |items| ensures ChildOf(w1, items[i].key, r) && items[i].key.kind == TestKind {
      assert TestOf(w, r, items[i]);
    }
  }

  /** What the two loops leave behind: the mapping is complete, and every slot it left empty has been given a Test. */
  ghost predicate SlotsVisited(w1: World, w2: World, r: Key, items: seq<Obj<Test>>, mapped: seq<Option<Obj<Test>>>) {
    && mapped == SlotsAfter(items, |items|, |mapped|) && SafeSoFar(items, |items|, |mapped|)
    && Visitable(w1, r, items, |mapped|) && WellBorn(w1)
    && FilledBelow(w1, w2, r, mapped, |mapped|)
  }

  function Verdict(n: nat, results: seq<TestResult>): RunPhase {
    if n != |results| then RunRunning else if Passes(results) == |results| then RunPassed else RunFailed
  }

  lemma MayTally(w1: World, w2: World, r: Key, items: seq<Obj<Test>>, mapped: seq<Option<Obj<Test>>>,
      results: seq<TestResult>, phase: RunPhase)
    requires SlotsVisited(w1, w2, r, items, mapped) && ReadyRun(w2, r) && |w2.runs[r].templates| == |mapped|
    requires results == Results(w1, SlotKeys(mapped), w2.runs[r].templates) && phase == Verdict(|mapped|, results)
    ensures GuardRun(w2, Tally(r, Keys(items), phase, results))
  {
    TallyIsListed(w1, w2, r, items, mapped);
    TallyIsCounted(w1, w2, r, items, mapped, results, phase);
    KeysAreDistinct(items);
  }

  lemma KeysAreDistinct(items: seq<Obj<Test>>)
    requires KeysDiffer(items)
    ensures Distinct(Keys(items))
  {
  }

  lemma MissingAreMade(w: World, w1: World, w2: World, w3: World, r: Key, items: seq<Obj<Test>>,
      mapped: seq<Option<Obj<Test>>>)
    requires SlotsVisited(w1, w2, r, items, mapped) && w1.birth == w.birth && w1.runs == w.runs
    requires r in w.runs && |w.runs[r].templates| == |mapped| && w3 == w2.(runs := w3.runs)
    requires MappedSlots(w1, Keys(items), |mapped|) == MappedSlots(w, Keys(items), |mapped|)
    ensures EmptyFilled(w, w3, r, Keys(items))
  {
    StaysReplenished(w, w1, w2, w3, r, SlotKeys(mapped), |mapped|);
    SlotsAreMapped(w1, items, |mapped|);
  }

  lemma RunTallied(w: World, w1: World, w2: World, w3: World, r: Key, items: seq<Obj<Test>>,
      mapped: seq<Option<Obj<Test>>>, results: seq<TestResult>, phase: RunPhase)
    requires SlotsVisited(w1, w2, r, items, mapped) && LiveTests(w, r, items) && w1.tests == w.tests
    requires w1.runs == w.runs && w1.birth == w.birth
    requires ReadyRun(w2, r) && r in w.runs && w2.runs[r] == w.runs[r] && |w.runs[r].templates| == |mapped|
    requires results == Results(w1, SlotKeys(mapped), w2.runs[r].templates) && phase == Verdict(|mapped|, results)
    requires w3 == w2.(runs := w2.runs[r := w2.runs[r].(phase := phase, results := results)])
    ensures Tallied(w, w3, r) && SlotsFilled(w3, r)
  {
    TallyIsListed(w1, w2, r, items, mapped);
    TallyIsCounted(w1, w2, r, items, mapped, results, phase);
    TallyDone(w, w1, w3, r, items, |mapped|, results);
    MissingAreMade(w, w1, w2, w3, r, items, mapped);
    SlotsDone(w1, w2, w3, r, items, mapped);
  }

  // ----- final and deleted runs

  /** A run that keeps nothing, or only what failed and has passed itself. */
  predicate DropsTests(x: Run) { x.retention == Never || (x.retention == OnFailure && x.phase == RunPassed) }

  /** The live Tests of a final run are swept if the policy says so, and otherwise stay as they are. */
  ghost predicate TestsRetained(w: World, w': World, r: Key) {
    r in w.runs && forall c: Key :: Live(w, c) && ChildOf(w, c, r) && c.kind == TestKind ==>
      if DropsTests(w.runs[r]) then Swept(w, w', c, TestRunController) else c in w'.meta && w'.meta[c] == w.meta[c]
  }

  // ----- Tests that were deleted

  /** The deleted Tests that the pass over the list released are swept, and the other deleted Tests are as they were. */
  ghost predicate ReleasedAmong(w: World, w': World, r: Key, tests: seq<Obj<Test>>) {
    forall c: Key :: Deleting(w, c) && ChildOf(w, c, r) && c.kind == TestKind ==>
      if c in KeysOf(Released(tests)) then Swept(w, w', c, TestRunController)
      else c in w'.meta && w'.meta[c] == w.meta[c]
  }

  /** A reconciliation of a live run does to the deleted Tests what one pass over them does, in the order listed. */
  ghost predicate LetsGo(w: World, w': World, r: Key) {
    exists tests :: Tests(w, r, tests) && ReleasedAmong(w, w', r, tests)
  }

  lemma LetsGoByPass(w: World, w1: World, w2: World, r: Key, tests: seq<Obj<Test>>)
    requires Tests(w, r, tests) && ReleasedFrom(w, w1, Released(tests), TestRunController)
    requires MarkedKept(w1, w2) && w.meta.Keys <= w.birth.Keys
    ensures LetsGo(w, w2, r)
  {
    var gone := Released(tests);
    forall c: Key | Deleting(w, c) && ChildOf(w, c, r) && c.kind == TestKind
      ensures if c in KeysOf(gone) then Swept(w, w2, c, TestRunController)
              else c in w2.meta && w2.meta[c] == w.meta[c]
    {
      if c in KeysOf(gone) {
        var i :| 0 <= i < |gone| && gone[i].key == c;
        assert Swept(w, w1, gone[i].key, TestRunController);
      }
    }
    assert ReleasedAmong(w, w2, r, tests);
  }

  lemma LetsGoSince(w: World, w1: World, w2: World, r: Key)
    requires Prepared(w, w1, r) && r.kind == RunKind && LetsGo(w1, w2, r)
    ensures LetsGo(w, w2, r)
  {
    var tests :| Tests(w1, r, tests) && ReleasedAmong(w1, w2, r, tests);
    forall i | 0 <= i < |tests| ensures TestOf(w, r, tests[i]) { assert TestOf(w1, r, tests[i]); }
    forall c: Key | Deleting(w, c) && ChildOf(w, c, r) && c.kind == TestKind
      ensures if c in KeysOf(Released(tests)) then Swept(w, w2, c, TestRunController)
              else c in w2.meta && w2.meta[c] == w.meta[c]
    {
      assert w1.meta[c] == w.meta[c] && Deleting(w1, c) && ChildOf(w1, c, r);
    }
    assert Tests(w, r, tests) && ReleasedAmong(w, w2, r, tests);
  }

  lemma MisnamedAreLive(w: World, w': World, r: Key, items: seq<Obj<Test>>, n: nat)
    requires LiveTests(w, r, items) && OnlyMisnamed(w, w', items, n)
    ensures MarkedKept(w, w')
  {
    forall k | k in w.meta && !Live(w, k) ensures k in w'.meta && w'.meta[k] == w.meta[k] {
      forall i | 0 <= i < |items| ensures items[i].key != k { assert TestOf(w, r, items[i]); }
    }
  }

  lemma NewTestsKeepMarked(w: World, w': World, r: Key, mapped: seq<Option<Obj<Test>>>, p: nat)
    requires p <= |mapped| && FilledBelow(w, w', r, mapped, p)
    ensures MarkedKept(w, w') && forall k :: k in w.birth ==> k in w'.birth
  {
  }

  lemma LiveOnesSwept(w: World, w': World, r: Key, items: seq<Obj<Test>>, failed: set<Key>)
    requires LiveTests(w, r, items) && Attempted(w, w', items, |items|, TestRunController, failed)
    ensures MarkedKept(w, w')
  {
    assert items[..|items|] == items;
    forall k | k in KeysOf(items) ensures Live(w, k) {
      var i :| 0 <= i < |items| && items[i].key == k;
      assert TestOf(w, r, items[i]);
    }
  }

  lemma AllTestsSwept(w: World, w': World, r: Key, items: seq<Obj<Test>>)
    requires LiveTests(w, r, items) && Attempted(w, w', items, |items|, TestRunController, {})
    ensures forall c: Key :: Live(w, c) && ChildOf(w, c, r) && c.kind == TestKind ==> Swept(w, w', c, TestRunController)
  {
    forall c: Key | Live(w, c) && ChildOf(w, c, r) && c.kind == TestKind ensures Swept(w, w', c, TestRunController) {
      var i :| 0 <= i < |items| && items[i].key == c;
    }
  }

  /** A pass over a deleted run sweeps its Tests, or the run itself if there are none. */
  ghost predicate Dismantled(w: World, w': World, r: Key) {
    && w'.birth == w.birth
    && (forall c :: c in w.meta && ChildOf(w, c, r) ==> Swept(w, w', c, TestRunController))
    && if forall c :: c in w.meta ==> !ChildOf(w, c, r) then Swept(w, w', r, TestRunController)
       else r in w.meta && r in w'.meta && w'.meta[r] == w.meta[r]
  }

  lemma AllChildrenSwept(w: World, w': World, r: Key, tests: seq<Obj<Test>>)
    requires WellBorn(w) && r.kind == RunKind && Tests(w, r, tests) && tests != [] && r in w.meta
    requires Attempted(w, w', tests, |tests|, TestRunController, {})
    ensures Dismantled(w, w', r)
  {
    forall c | c in w.meta && ChildOf(w, c, r) ensures Swept(w, w', c, TestRunController) {
      var i :| 0 <= i < |tests| && tests[i].key == c;
    }
    assert TestOf(w, r, tests[0]);
  }

  // ----- from one step of a reconciliation to the next

  function Started(phase: RunPhase): RunPhase { if phase == RunUnset then RunStarting else phase }

  /** Only the run's own finalizers and phase differ. */
  ghost predicate Prepared(w: World, w': World, r: Key) {
    && w' == w.(meta := w'.meta, runs := w'.runs)
    && w'.meta.Keys == w.meta.Keys && (forall q :: q in w.meta && q != r ==> w'.meta[q] == w.meta[q])
    && r in w.runs && w'.runs == w.runs[r := w.runs[r].(phase := Started(w.runs[r].phase))]
    && r in w.meta && w'.meta[r].deleting == w.meta[r].deleting && (w.meta[r].deleting ==> w'.meta[r] == w.meta[r])
    && (!w.meta[r].deleting && !w.runs[r].phase.IsFinal() ==> TestRunController in w'.meta[r].finalizers)
  }

  /** No body has changed, but for the first phase of a run that had none. */
  ghost predicate OnlyStarted(w: World, w': World, r: Key) {
    && r in w.runs && w' == w.(meta := w'.meta, runs := w'.runs)
    && w'.runs == w.runs[r := w.runs[r].(phase := Started(w.runs[r].phase))]
  }

  /** What a pass over a live run comes to. */
  ghost predicate Pass(w: World, w': World, r: Key, out: Ending, reliable: bool) {
    ComesTo(w, w', r, out, reliable) && (out != Stopped ==> LetsGo(w, w', r))
  }

  /** The same but for what becomes of deleted Tests. */
  ghost predicate ComesTo(w: World, w': World, r: Key, out: Ending, reliable: bool) {
    && (reliable ==> out != Stopped)
    && (RunInProgress(w, r) && out == Done ==> Tallied(w, w', r) && SlotsFilled(w', r))
    && (RunInProgress(w, r) && out == Done ==> Holds(w', r, TestRunController))
    && (out == Panicked ==> RunInProgress(w, r) && Overruns(w, r) && OnlyStarted(w, w', r))
    && (!RunInProgress(w, r) && out == Done ==> TestsRetained(w, w', r))
  }

  lemma TestsUnmoved(w: World, w': World, r: Key, tests: seq<Obj<Test>>)
    requires Prepared(w, w', r) && Tests(w, r, tests) && r.kind == RunKind
    ensures Tests(w', r, tests)
  {
    forall i | 0 <= i < |tests| ensures TestOf(w', r, tests[i]) {
      assert TestOf(w, r, tests[i]);
    }
  }

  lemma DismantledSince(w: World, w1: World, w2: World, r: Key)
    requires Prepared(w, w1, r) && Deleting(w, r) && Dismantled(w1, w2, r)
    ensures Dismantled(w, w2, r)
  {
    assert w1.meta == w.meta;
  }

  lemma SameLists(w: World, w': World, r: Key, items: seq<Key>)
    requires w'.birth == w.birth && forall c: Key :: c.kind == TestKind ==> (Live(w', c) <==> Live(w, c))
    ensures LiveList(w', r, items) <==> LiveList(w, r, items)
  {
    forall t: Key
      ensures t.kind == TestKind && Live(w, t) && ChildOf(w, t, r)
              <==> t.kind == TestKind && Live(w', t) && ChildOf(w', t, r)
    {
    }
  }

  /** Two worlds with the same Tests, live or not, and the same templates of the run. */
  ghost predicate SameForTally(w: World, w': World, r: Key) {
    && w'.birth == w.birth && w'.tests == w.tests
    && (forall c: Key :: c.kind == TestKind ==> (Live(w', c) <==> Live(w, c)))
    && r in w.runs && r in w'.runs && w'.runs[r].templates == w.runs[r].templates
    && w'.runs[r].retention == w.runs[r].retention
  }

  lemma SameSlots(w: World, w': World, items: seq<Key>, n: nat)
    requires w'.tests == w.tests
    ensures InBounds(w', items, n) <==> InBounds(w, items, n)
    ensures MappedSlots(w', items, n) == MappedSlots(w, items, n)
  {
    assert forall t :: Slot(w', t) == Slot(w, t);
    forall p: nat ensures Named(w', items, p) <==> Named(w, items, p) {}
    forall i | 0 <= i < |items| ensures ValidSlot(w', items[i], n) <==> ValidSlot(w, items[i], n) {}
  }

  lemma TalliedAfter(w: World, w1: World, w2: World, r: Key)
    requires SameForTally(w, w1, r) && Tallied(w1, w2, r)
    ensures Tallied(w, w2, r)
  {
    var items :| TalliedBy(w1, w2, r, items) && EmptyFilled(w1, w2, r, items);
    var n := |w.runs[r].templates|;
    SameLists(w, w1, r, items);
    SameSlots(w, w1, items, n);
    SameTestsSameTally(w, w1, MappedSlots(w, items, n), w.runs[r].templates);
    StaysReplenished(w, w1, w2, w2, r, MappedSlots(w, items, n), n);
    assert TalliedBy(w, w2, r, items) && EmptyFilled(w, w2, r, items);
  }

  lemma OverrunsAfter(w: World, w1: World, r: Key)
    requires SameForTally(w, w1, r) && Overruns(w1, r)
    ensures Overruns(w, r)
  {
    var items :| LiveList(w1, r, items) && !InBounds(w1, items, |w1.runs[r].templates|);
    SameLists(w, w1, r, items);
    SameSlots(w, w1, items, |w.runs[r].templates|);
  }

  lemma RetainedAfter(w: World, w1: World, w2: World, r: Key)
    requires w1.birth == w.birth && w1.runs == w.runs && TestsRetained(w1, w2, r)
    requires forall c: Key :: Live(w, c) ==> c in w1.meta && w1.meta[c] == w.meta[c]
    ensures TestsRetained(w, w2, r)
  {
    forall c: Key | Live(w, c) && ChildOf(w, c, r) && c.kind == TestKind
      ensures if DropsTests(w.runs[r]) then Swept(w, w2, c, TestRunController)
              else c in w2.meta && w2.meta[c] == w.meta[c]
    {
      assert Live(w1, c) && ChildOf(w1, c, r);
    }
  }

  lemma ComesToSame(w: World, w1: World, w2: World, r: Key, out: Ending, reliable: bool)
    requires r.kind == RunKind && r in w.runs && w.runs[r].phase != RunUnset && w1 == w.(meta := w1.meta)
    requires forall k :: Live(w, k) ==> k in w1.meta && w1.meta[k] == w.meta[k]
    requires forall k :: Live(w1, k) ==> Live(w, k)
    requires ComesTo(w1, w2, r, out, reliable)
    ensures ComesTo(w, w2, r, out, reliable)
  {
    assert SameForTally(w, w1, r);
    if out == Done && RunInProgress(w, r) { TalliedAfter(w, w1, w2, r); }
    if out == Done && !RunInProgress(w, r) { RetainedAfter(w, w1, w2, r); }
    if out == Panicked { OverrunsAfter(w, w1, r); }
  }

  lemma PassSince(w: World, w1: World, w2: World, r: Key, out: Ending, reliable: bool)
    requires Prepared(w, w1, r) && r.kind == RunKind && Live(w, r) && Pass(w1, w2, r, out, reliable)
    ensures Pass(w, w2, r, out, reliable)
  {
    assert SameForTally(w, w1, r);
    assert RunInProgress(w1, r) == RunInProgress(w, r);
    if RunInProgress(w, r) && out == Done { TalliedAfter(w, w1, w2, r); }
    if out == Panicked { OverrunsAfter(w, w1, r); }
    if !RunInProgress(w, r) && out == Done { RetainedSince(w, w1, w2, r); }
    if out != Stopped { LetsGoSince(w, w1, w2, r); }
  }

  lemma RetainedSince(w: World, w1: World, w2: World, r: Key)
    requires Prepared(w, w1, r) && r.kind == RunKind && !RunInProgress(w, r) && TestsRetained(w1, w2, r)
    ensures TestsRetained(w, w2, r)
  {
    forall c: Key | Live(w, c) && ChildOf(w, c, r) && c.kind == TestKind
      ensures if DropsTests(w.runs[r]) then Swept(w, w2, c, TestRunController)
              else c in w2.meta && w2.meta[c] == w.meta[c]
    {
      assert Live(w1, c) && ChildOf(w1, c, r) && w1.meta[c] == w.meta[c];
    }
  }

  lemma TestsCleanable(w: World, r: Key, tests: seq<Obj<Test>>)
    requires Tests(w, r, tests)
    ensures AllCleanable(w, tests, TestRunController)
  {
    forall o | o in tests ensures Cleanable(w, o, TestRunController) && o.key.kind in {RunKind, TestKind} {
      var i :| 0 <= i < |tests| && tests[i] == o;
      assert TestOf(w, r, tests[i]);
    }
  }

  /** Compaction leaves the list of the live Tests, and the live objects as they were. */
  lemma CompactedTests(w: World, w': World, r: Key, tests: seq<Obj<Test>>)
    requires Tests(w, r, tests) && ReleasedFrom(w, w', Released(tests), TestRunController)
    ensures LiveTests(w', r, Compacted(tests))
    ensures w' == w.(meta := w'.meta)
    ensures forall k :: Live(w, k) ==> k in w'.meta && w'.meta[k] == w.meta[k]
    ensures forall k :: Live(w', k) ==> Live(w, k)
  {
    var gone := Released(tests);
    ReleasedAreDeleted(tests);
    KeysDifferCompacted(tests);
    forall i | 0 <= i < |gone| ensures Deleting(w, gone[i].key) && !Live(w', gone[i].key) {
      assert gone[i] in tests && Swept(w, w', gone[i].key, TestRunController);
      var j :| 0 <= j < |tests| && tests[j] == gone[i];
      assert TestOf(w, r, tests[j]);
    }
    forall k | Live(w, k) ensures k in w'.meta && w'.meta[k] == w.meta[k] { assert k !in KeysOf(gone); }
    var items := Compacted(tests);
    forall i | 0 <= i < |items| ensures TestOf(w', r, items[i]) && !items[i].meta.deleting {
      CompactedMembers(tests, items[i]);
      var j :| 0 <= j < |tests| && tests[j] == items[i];
      assert TestOf(w, r, tests[j]);
    }
    forall k | Live(w', k) && ChildOf(w', k, r) && k.kind == TestKind ensures k in KeysOf(items) {
      assert k !in KeysOf(gone);
      StaysInList(w, r, tests, k);
    }
  }

  lemma StaysInList(w: World, r: Key, tests: seq<Obj<Test>>, k: Key)
    requires Tests(w, r, tests) && Live(w, k) && ChildOf(w, k, r) && k.kind == TestKind
    ensures k in KeysOf(Compacted(tests))
  {
    var items := Compacted(tests);
    var j :| 0 <= j < |tests| && tests[j].key == k;
    assert TestOf(w, r, tests[j]);
    CompactedMembers(tests, tests[j]);
    var i :| 0 <= i < |items| && items[i] == tests[j];
    assert items[i].key == k;
  }

  class TestRunReconciler {
    const api: Cluster

    constructor (api: Cluster)
      ensures this.api == api
    {
      this.api := api;
    }

    /** The Tests of a run, read from the store. */
    method ListTests(r: Key) returns (tests: seq<Obj<Test>>)
      requires api.Valid()
      ensures Tests(api.w, r, tests)
    {
      var ks := api.List(r, TestKind);
      api.IsReachable();
      var w := api.w;
      forall i | 0 <= i < |ks| ensures HasTestBody(w, ks[i]) {
        assert ks[i] in ks;
        assert HasBody(w, ks[i]);
      }
      tests := seq(|ks|,
                   i requires 0 <= i < |ks| && HasTestBody(w, ks[i]) => Obj(ks[i], w.meta[ks[i]], w.tests[ks[i]]));
      forall k | k in w.meta && ChildOf(w, k, r) && k.kind == TestKind ensures k in KeysOf(tests) {
        assert k in ks;
        var i :| 0 <= i < |ks| && ks[i] == k;
        assert tests[i].key == k;
      }
    }

    /**
     Maps Tests to slots. The index read from a name shadows the position in the list, so the entry stored
     in a slot is the one at the position of that name; past the end of the list the program panics.
     Tests whose name gives no slot are cleaned up.
     */
    method MapSlots(r: Key, items: seq<Obj<Test>>, n: nat, mapped: array<Option<Obj<Test>>>) returns (out: Ending)
      requires api.Valid() && r.kind == RunKind && Live(api.w, r) && RunInProgress(api.w, r)
      requires n == |api.w.runs[r].templates|
      requires LiveTests(api.w, r, items) && mapped.Length == n && forall p :: 0 <= p < n ==> mapped[p] == None
      modifies api, mapped
      ensures api.Valid() && old(api.log) <= api.log
      ensures OnlyMisnamed(old(api.w), api.w, items, n)
      ensures out == Done ==> MappedSoFar(old(api.w), api.w, items, |items|, n, mapped[..])
      ensures out == Panicked ==> !SafeSoFar(items, |items|, n)
      ensures api.reliable ==> out != Stopped
    {
      NothingMappedYet(api.w, r, items, n, mapped[..]);
      for i := 0 to |items|
        invariant api.Valid() && old(api.log) <= api.log
        invariant MappedSoFar(old(api.w), api.w, items, i, n, mapped[..])
      {
        out := MapNext(r, items, i, n, mapped, old(api.w));
        if out != Done { return; }
      }
      return Done;
    }

    /** One turn of that loop. */
    method MapNext(r: Key, items: seq<Obj<Test>>, i: nat, n: nat, mapped: array<Option<Obj<Test>>>, ghost w0: World)
        returns (out: Ending)
      requires api.Valid() && r.kind == RunKind && Live(w0, r) && RunInProgress(w0, r) && n == |w0.runs[r].templates|
      requires LiveTests(w0, r, items) && i < |items| && mapped.Length == n
      requires MappedSoFar(w0, api.w, items, i, n, mapped[..])
      modifies api, mapped
      ensures api.Valid() && old(api.log) <= api.log
      ensures OnlyMisnamed(w0, api.w, items, n)
      ensures out == Done ==> MappedSoFar(w0, api.w, items, i + 1, n, mapped[..])
      ensures out == Panicked ==> !SafeSoFar(items, |items|, n)
      ensures api.reliable ==> out != Stopped
    {
      var index := ParseIndex(items[i].body.generateName);
      ghost var was := mapped[..];
      if index.Some? && index.value < n {
        if index.value >= |items| {
          NotSafe(items, i, n);
          return Panicked;
        }
        Fill(mapped, index.value, items[index.value]);
        EntryMapped(w0, api.w, items, i, n, was, mapped[..]);
      } else {
        var fine := PassMisnamed(r, items, i, n, w0, was);
        assert mapped[..] == was;
        if !fine { return Stopped; }
      }
      return Done;
    }

    /** One turn of that loop at a Test whose name gives no slot. */
    method PassMisnamed(r: Key, items: seq<Obj<Test>>, i: nat, n: nat, ghost w0: World,
        ghost mapped: seq<Option<Obj<Test>>>)
      returns (ok: bool)
      requires api.Valid() && r.kind == RunKind && Live(w0, r) && RunInProgress(w0, r) && n == |w0.runs[r].templates|
      requires LiveTests(w0, r, items) && i < |items| && !NamesSlot(items[i], n)
      requires MappedSoFar(w0, api.w, items, i, n, mapped)
      modifies api
      ensures api.Valid() && old(api.log) <= api.log
      ensures if ok then MappedSoFar(w0, api.w, items, i + 1, n, mapped) else OnlyMisnamed(w0, api.w, items, n)
      ensures api.reliable ==> ok
    {
      assert TestOf(w0, r, items[i]);
      StillARun(w0, api.w, items, n, r);
      ok := CleanUpMisnamed(r, items[i], n);
      MisnamedGrows(w0, old(api.w), api.w, items, n, i);
      if ok {
        RestUntouched(old(api.w), api.w, items, i);
        OneMoreMapped(items, i, n);
      }
    }

    method CleanUpMisnamed(r: Key, o: Obj<Test>, n: nat) returns (ok: bool)
      requires api.Valid() && r.kind == RunKind && Live(api.w, r) && RunInProgress(api.w, r)
      requires n == |api.w.runs[r].templates|
      requires TestOf(api.w, r, o) && !o.meta.deleting && !NamesSlot(o, n)
      modifies api
      ensures api.Valid() && old(api.log) <= api.log && OnlyMeta(old(api.w), api.w, {o.key})
      ensures api.reliable ==> ok
    {
      assert ReasonToDelete(api.w, o.key, r);
      var m, err := CleanUp(api, TestRunController, o);
      ok := err == Ok;
    }

    /** Creates the Test of a slot that has none. */
    method CreateMissing(r: Key, p: nat) returns (ghost k: Key, ok: bool)
      requires api.Valid() && ReadyRun(api.w, r) && p < |api.w.runs[r].templates| && |r.name| > 0
      requires forall t :: t in api.w.meta && ChildOf(api.w, t, r) && Live(api.w, t) ==> Slot(api.w, t) != Some(p)
      requires FilledUpTo(api.w, r, p) && !NamesBeyond(api.w, r)
      modifies api
      ensures api.Valid() && old(api.log) <= api.log
      ensures if ok then TestCreated(old(api.w), api.w, r, p, k) else api.w == old(api.w)
      ensures api.reliable ==> ok
    {
      assert WellBodied(api.w) by { api.IsReachable(); }
      var name := api.Generate(TestKind, GenerateName(r, p));
      assert name in api.w.tests ==> HasBody(api.w, name);
      var reply := api.Write(r, OfRun(CreateTest(name, r, p)));
      k, ok := name, reply == Ok;
    }

    /** Creates the Test of slot `p` if the mapping left the slot empty. */
    method FillSlot(r: Key, ghost items: seq<Obj<Test>>, mapped: array<Option<Obj<Test>>>, p: nat, ghost w0: World)
        returns (ok: bool)
      requires api.Valid() && p < mapped.Length && ReadyRun(api.w, r) && mapped.Length == |api.w.runs[r].templates|
      requires |r.name| > 0 && r in w0.runs && w0.runs[r] == api.w.runs[r]
      requires Visitable(w0, r, items, mapped.Length) && SafeSoFar(items, |items|, mapped.Length)
      requires WellBorn(w0) && SlotsValid(w0)
      requires mapped[..] == SlotsAfter(items, |items|, mapped.Length)
      requires FilledBelow(w0, api.w, r, mapped[..], p)
      modifies api
      ensures api.Valid() && old(api.log) <= api.log
      ensures if ok then FilledBelow(w0, api.w, r, mapped[..], p + 1) else api.w == old(api.w)
      ensures api.reliable ==> ok
    {
      ok := true;
      if mapped[p].None? {
        SlotIsFree(w0, api.w, r, items, mapped.Length, p);
        BeforeAreFilled(w0, api.w, r, items, mapped[..], p);
        NoneBeyond(w0, api.w, r, items, mapped[..], p);
        ghost var k;
        k, ok := CreateMissing(r, p);
        if ok { FilledWithNew(w0, old(api.w), api.w, r, mapped[..], p, k); }
      } else {
        FilledAlready(w0, api.w, r, mapped[..], p);
      }
    }

    /** Counts the Test of a slot if it has its verdict. */
    method CountIfFinal(o: Option<Obj<Test>>, description: string, results: seq<TestResult>, completions: nat,
        passes: nat, failures: nat)
      returns (results': seq<TestResult>, completions': nat, passes': nat, failures': nat)
      ensures var done := o.Some? && o.value.body.phase.IsFinal();
              var passed := done && o.value.body.phase == TestPassed;
              && results' == results + (if done then [TestResult(description, o.value.key, passed)] else [])
              && completions' == completions + (if done then 1 else 0) && passes' == passes + (if passed then 1 else 0)
              && failures' == failures + if done && !passed then 1 else 0
    {
      results', completions', passes', failures' := results, completions, passes, failures;
      if o.Some? && o.value.body.phase.IsFinal() {
        completions' := completions + 1;
        var passed := o.value.body.phase == TestPassed;
        if passed { passes' := passes + 1; } else { failures' := failures + 1; }
        results' := results + [TestResult(description, o.value.key, passed)];
      }
    }

    /** Goes over the slots in template order: creates what is missing and counts what is final. */
    method FillAndTally(run: Obj<Run>, ghost items: seq<Obj<Test>>, mapped: array<Option<Obj<Test>>>)
      returns (results: seq<TestResult>, completions: nat, passes: nat, failures: nat, ok: bool)
      requires api.Valid() && ReadyRun(api.w, run.key) && run.body == api.w.runs[run.key]
      requires Visitable(api.w, run.key, items, mapped.Length) && mapped.Length == |run.body.templates|
      requires SafeSoFar(items, |items|, mapped.Length) && mapped[..] == SlotsAfter(items, |items|, mapped.Length)
      modifies api
      ensures api.Valid() && old(api.log) <= api.log
      ensures ok ==> FilledBelow(old(api.w), api.w, run.key, mapped[..], mapped.Length)
      ensures ok ==> results == Results(old(api.w), SlotKeys(mapped[..]), run.body.templates)
      ensures completions == |results| == passes + failures && passes == Passes(results)
      ensures api.reliable ==> ok
    {
      results, completions, passes, failures, ok := [], 0, 0, 0, true;
      ghost var slots := SlotKeys(mapped[..]);
      assert WellBorn(api.w) && SlotsValid(api.w) && |run.key.name| > 0 by {
        api.IsReachable();
      }
      NoneMadeYet(api.w, run.key, slots);
      for p := 0 to mapped.Length
        invariant api.Valid() && old(api.log) <= api.log && ok
        invariant FilledBelow(old(api.w), api.w, run.key, mapped[..], p)
        invariant results == Results(old(api.w), slots[..p], run.body.templates)
        invariant completions == |results| == passes + failures && passes == Passes(results)
      {
        StillReady(old(api.w), api.w, run.key, mapped[..], p);
        ok := FillSlot(run.key, items, mapped, p, old(api.w));
        if !ok { return; }
        ghost var before := results;
        results, completions, passes, failures :=
          CountIfFinal(mapped[p], run.body.templates[p], results, completions, passes, failures);
        OneMoreLine(old(api.w), items, mapped[..], run.body.templates, p, before, results);
      }
      assert slots[..mapped.Length] == slots;
    }

    method WriteTally(r: Key, items: seq<Key>, phase: RunPhase, results: seq<TestResult>) returns (ok: bool)
      requires api.Valid() && GuardRun(api.w, Tally(r, items, phase, results))
      modifies api
      ensures api.Valid() && old(api.log) <= api.log
      ensures ok ==> r in old(api.w).runs
                     && var x := old(api.w).runs[r].(phase := phase, results := results);
                        api.w == old(api.w).(runs := old(api.w).runs[r := x])
      ensures api.reliable ==> ok
    {
      var reply := api.Write(r, OfRun(Tally(r, items, phase, results)));
      ok := reply == Ok;
    }

    /** Writes the tally, and the verdict once every slot has one. */
    method Conclude(run: Obj<Run>, items: seq<Obj<Test>>, mapped: array<Option<Obj<Test>>>, results: seq<TestResult>,
        completions: nat, failures: nat, ghost w: World, ghost w1: World)
      returns (ok: bool)
      requires api.Valid() && ReadyRun(api.w, run.key) && run.body == api.w.runs[run.key]
      requires LiveTests(w, run.key, items) && w1.tests == w.tests && w1.runs == w.runs && w1.birth == w.birth
      requires run.key in w.runs && run.body == w.runs[run.key]
      requires SlotsVisited(w1, api.w, run.key, items, mapped[..]) && |mapped[..]| == |run.body.templates|
      requires results == Results(w1, SlotKeys(mapped[..]), run.body.templates)
      requires completions == |results| && failures == |results| - Passes(results)
      modifies api
      ensures api.Valid() && old(api.log) <= api.log
      ensures ok ==> Tallied(w, api.w, run.key) && SlotsFilled(api.w, run.key)
      ensures ok ==> api.w == old(api.w).(runs := api.w.runs)
      ensures api.reliable ==> ok
    {
      var phase := if mapped.Length != completions then RunRunning else if failures == 0 then RunPassed else RunFailed;
      MayTally(w1, api.w, run.key, items, mapped[..], results, phase);
      ghost var w2 := api.w;
      ok := WriteTally(run.key, Keys(items), phase, results);
      if ok { RunTallied(w, w1, w2, api.w, run.key, items, mapped[..], results, phase); }
    }

    /** What follows the mapping. */
    method FillAndConclude(run: Obj<Run>, items: seq<Obj<Test>>, mapped: array<Option<Obj<Test>>>, ghost w0: World)
      returns (ok: bool)
      requires api.Valid() && ReadyRun(api.w, run.key) && run.body == api.w.runs[run.key]
      requires LiveTests(w0, run.key, items) && api.w.tests == w0.tests && api.w.runs == w0.runs
      requires api.w.birth == w0.birth
      requires Visitable(api.w, run.key, items, mapped.Length) && mapped.Length == |run.body.templates|
      requires SafeSoFar(items, |items|, mapped.Length) && mapped[..] == SlotsAfter(items, |items|, mapped.Length)
      modifies api
      ensures api.Valid() && old(api.log) <= api.log
      ensures ok ==> Tallied(w0, api.w, run.key) && SlotsFilled(api.w, run.key)
      ensures ok ==> MarkedKept(old(api.w), api.w) && Holds(api.w, run.key, TestRunController)
      ensures api.reliable ==> ok
    {
      ghost var w1 := api.w;
      assert WellBorn(w1) by { api.IsReachable(); }
      var results, completions, passes, failures;
      results, completions, passes, failures, ok := FillAndTally(run, items, mapped);
      if !ok { return; }
      StillReady(w1, api.w, run.key, mapped[..], mapped.Length);
      NewTestsKeepMarked(w1, api.w, run.key, mapped[..], mapped.Length);
      ok := Conclude(run, items, mapped, results, completions, failures, w0, w1);
    }

    /** The pass over a run in progress. */
    method IsRunning(run: Obj<Run>, items: seq<Obj<Test>>) returns (out: Ending)
      requires api.Valid() && ReadyRun(api.w, run.key) && run.body == api.w.runs[run.key]
      requires LiveTests(api.w, run.key, items)
      modifies api
      ensures api.Valid() && old(api.log) <= api.log
      ensures out == Done ==> Tallied(old(api.w), api.w, run.key) && SlotsFilled(api.w, run.key)
      ensures out == Done ==> Holds(api.w, run.key, TestRunController)
      ensures out == Panicked ==> Overruns(old(api.w), run.key) && api.w == old(api.w).(meta := api.w.meta)
      ensures out != Stopped ==> MarkedKept(old(api.w), api.w)
      ensures api.reliable ==> out != Stopped
    {
      var r := run.key;
      var n := |run.body.templates|;
      var mapped := new Option<Obj<Test>>[n](_ => None);
      out := MapSlots(r, items, n, mapped);
      MisnamedAreLive(old(api.w), api.w, r, items, n);
      ListIsAgreed(old(api.w), r, items);
      SlotsAreMapped(old(api.w), items, n);
      if out == Panicked { OverrunBy(old(api.w), r, items); }
      if out != Done { return; }
      AfterMapping(old(api.w), api.w, r, items, n);
      AllAreChildren(old(api.w), api.w, r, items);
      var ok := FillAndConclude(run, items, mapped, old(api.w));
      return if ok then Done else Stopped;
    }

    /** Removes the Tests of a final run if the retention policy says so. */
    method IsComplete(run: Obj<Run>, items: seq<Obj<Test>>) returns (ok: bool)
      requires api.Valid() && run.key.kind == RunKind && Live(api.w, run.key)
      requires run.key in api.w.runs && run.body == api.w.runs[run.key] && run.body.phase.IsFinal()
      requires LiveTests(api.w, run.key, items)
      modifies api
      ensures api.Valid() && old(api.log) <= api.log
      ensures ok ==> TestsRetained(old(api.w), api.w, run.key)
      ensures MarkedKept(old(api.w), api.w)
      ensures api.reliable ==> ok
    {
      ok := true;
      if run.body.retention == Never || (run.body.retention == OnFailure && run.body.phase == RunPassed) {
        forall i | 0 <= i < |items|
          ensures Cleanable(api.w, items[i], TestRunController) && StandingReason(api.w, items[i].key, run.key)
        {
          assert TestOf(api.w, run.key, items[i]);
        }
        assert run.key !in KeysOf(items);
        ghost var failed;
        var modified;
        modified, ok, failed := CleanUpAll(api, TestRunController, items, run.key);
        LiveOnesSwept(old(api.w), api.w, run.key, items, failed);
        if ok { AllTestsSwept(old(api.w), api.w, run.key, items); }
      }
    }

    /** Removes the Tests of a deleted run; when none are left, lets the run go. */
    method IsDeleted(run: Obj<Run>, tests: seq<Obj<Test>>) returns (ok: bool)
      requires api.Valid() && run.key.kind == RunKind && Deleting(api.w, run.key) && run.meta == api.w.meta[run.key]
      requires Tests(api.w, run.key, tests)
      modifies api
      ensures api.Valid() && old(api.log) <= api.log
      ensures ok ==> Dismantled(old(api.w), api.w, run.key)
      ensures api.reliable ==> ok
    {
      var r := run.key;
      assert WellBorn(api.w) && NoneLingers(api.w) by { api.IsReachable(); }
      if |tests| > 0 {
        forall i | 0 <= i < |tests|
          ensures Cleanable(api.w, tests[i], TestRunController) && StandingReason(api.w, tests[i].key, r)
        {
          assert TestOf(api.w, r, tests[i]);
        }
        assert r !in KeysOf(tests);
        var modified, fine, failed := CleanUpAll(api, TestRunController, tests, r);
        if fine { AllChildrenSwept(old(api.w), api.w, r, tests); }
        return fine;
      } else {
        forall c | c in api.w.meta ensures !ChildOf(api.w, c, r) {
          assert ChildOf(api.w, c, r) ==> c in KeysOf(tests);
        }
        var patched, err, _ := RemoveFinalizer(api, TestRunController, run);
        if err == Ok { TakeOffSweeps(old(api.w), api.w, r, TestRunController); }
        return err == Ok;
      }
    }

    /** Makes sure that a live run in progress has the finalizer, and that the run has a phase. */
    method Prepare(run: Obj<Run>) returns (o: Obj<Run>, ok: bool)
      requires api.Valid() && run.key.kind == RunKind && Stored(api.w, run.key) && run.meta == api.w.meta[run.key]
      requires run.key in api.w.runs && run.body == api.w.runs[run.key]
      modifies api
      ensures api.Valid() && old(api.log) <= api.log
      ensures ok ==>
                && Prepared(old(api.w), api.w, run.key) && o.key == run.key && o.meta == api.w.meta[run.key]
                && o.body == api.w.runs[run.key]
      ensures api.reliable ==> ok
    {
      o := run;
      if !run.body.phase.IsFinal() && !run.meta.deleting {
        var patched, err: Reply;
        patched, err, o := AddFinalizer(api, TestRunController, run);
        if err != Ok { return o, false; }
      }
      o, ok := Start(o);
    }

    /** Gives a run without a phase its first one. */
    method Start(run: Obj<Run>) returns (o: Obj<Run>, ok: bool)
      requires api.Valid() && Stored(api.w, run.key) && run.key in api.w.runs && run.body == api.w.runs[run.key]
      modifies api
      ensures api.Valid() && old(api.log) <= api.log && o.key == run.key && o.meta == run.meta
      ensures ok ==> o.body == run.body.(phase := Started(run.body.phase))
      ensures ok ==> api.w == old(api.w).(runs := old(api.w).runs[run.key := o.body])
      ensures api.reliable ==> ok
    {
      o, ok := run, true;
      if run.body.phase == RunUnset {
        var reply := api.Write(run.key, OfRun(RunStarts(run.key)));
        ok := reply == Ok;
        o := run.(body := run.body.(phase := RunStarting));
      }
    }

    /** One reconciliation of a TestRun. */
    method Reconcile(r: Key) returns (out: Ending)
      requires api.Valid() && r.kind == RunKind
      modifies api
      ensures api.Valid() && old(api.log) <= api.log
      ensures r !in old(api.w).meta ==> api.w == old(api.w)
      ensures api.reliable ==> out != Stopped
      ensures Deleting(old(api.w), r) && out == Done ==> Dismantled(old(api.w), api.w, r)
      ensures Deleting(old(api.w), r) ==> out != Panicked
      ensures Live(old(api.w), r) && RunInProgress(old(api.w), r) && out == Done ==>
                Tallied(old(api.w), api.w, r) && SlotsFilled(api.w, r)
      ensures Live(old(api.w), r) && RunInProgress(old(api.w), r) && out == Done ==> Holds(api.w, r, TestRunController)
      ensures out == Panicked ==> Overruns(old(api.w), r) && OnlyStarted(old(api.w), api.w, r)
      ensures Live(old(api.w), r) && out != Stopped ==> LetsGo(old(api.w), api.w, r)
      ensures Live(old(api.w), r) && !RunInProgress(old(api.w), r) ==> out != Panicked
      ensures Live(old(api.w), r) && !RunInProgress(old(api.w), r) && out == Done ==>
          TestsRetained(old(api.w), api.w, r)
    {
      if r !in api.w.meta { return Done; }
      assert r in api.w.runs by {
        api.IsReachable();
        assert HasBody(api.w, r);
      }
      var run := Obj(r, api.w.meta[r], api.w.runs[r]);
      var tests := ListTests(r);
      var o, ok := Prepare(run);
      if !ok { return Stopped; }
      ghost var w1 := api.w;
      TestsUnmoved(old(api.w), w1, r, tests);
      if o.meta.deleting {
        ok := IsDeleted(o, tests);
        if ok { DismantledSince(old(api.w), w1, api.w, r); }
        return if ok then Done else Stopped;
      }
      out := IsLive(o, tests);
      PassSince(old(api.w), w1, api.w, r, out, api.reliable);
    }

    /** Closes the gaps that deleted Tests leave in the list, and goes on by phase. */
    method IsLive(run: Obj<Run>, tests: seq<Obj<Test>>) returns (out: Ending)
      requires api.Valid() && run.key.kind == RunKind && Live(api.w, run.key) && run.meta == api.w.meta[run.key]
      requires run.key in api.w.runs && run.body == api.w.runs[run.key] && Tests(api.w, run.key, tests)
      requires run.body.phase != RunUnset && (!run.body.phase.IsFinal() ==> Holds(api.w, run.key, TestRunController))
      modifies api
      ensures api.Valid() && old(api.log) <= api.log
      ensures Pass(old(api.w), api.w, run.key, out, api.reliable)
    {
      var r := run.key;
      assert WellBorn(api.w) by { api.IsReachable(); }
      var items := new Obj<Test>[|tests|](i requires 0 <= i < |tests| => tests[i]);
      assert items[..] == tests;
      TestsCleanable(api.w, r, tests);
      var n, ok, gone := Compact(api, TestRunController, items);
      if !ok { return Stopped; }
      ghost var w1 := api.w;
      CompactedTests(old(api.w), w1, r, tests);
      out := ByPhase(run, items[..n]);
      ComesToSame(old(api.w), w1, api.w, r, out, api.reliable);
      if out != Stopped { LetsGoByPass(old(api.w), w1, api.w, r, tests); }
    }

    /** What the phase of a live run asks for. */
    method ByPhase(run: Obj<Run>, items: seq<Obj<Test>>) returns (out: Ending)
      requires api.Valid() && run.key.kind == RunKind && Live(api.w, run.key)
      requires run.key in api.w.runs && run.body == api.w.runs[run.key] && LiveTests(api.w, run.key, items)
      requires run.body.phase != RunUnset && (!run.body.phase.IsFinal() ==> Holds(api.w, run.key, TestRunController))
      modifies api
      ensures api.Valid() && old(api.log) <= api.log
      ensures ComesTo(old(api.w), api.w, run.key, out, api.reliable)
      ensures out != Stopped ==> MarkedKept(old(api.w), api.w)
    {
      if run.body.phase.IsFinal() {
        var ok := IsComplete(run, items);
        return if ok then Done else Stopped;
      }
      out := IsRunning(run, items);
    }
  }
}
