/**
 The slot mapping of the TestRun reconciler and the tally over it.

 The mapping loop reads an index from each Test's generated name and then uses that index on
 both sides of the assignment, so slot `p` receives the list entry at position `p`.
 */
module Slots {
  import opened Prelude
  import opened Store

  // ----- names

  /** Only the last digit of an index survives the name: reading it back is exact below ten. */
  lemma ParseGenerated(run: Key, index: nat)
    requires |run.name| > 0
    ensures ParseIndex(GenerateName(run, index)) == Some(index % 10)
    ensures ParseIndex(GenerateName(run, index)) == Some(index) <==> index < 10
  {
    var name := GenerateName(run, index);
    var digits := Decimal(index);
    assert name[|name| - 2] == digits[|digits| - 1];
    assert |name| >= 4;
  }

  // ----- lists whose entries name distinct slots

  /** Every entry names a slot below `n`, and no two name the same one. */
  ghost predicate OneEach(w: World, items: seq<Key>, n: nat) {
    && (forall i :: 0 <= i < |items| ==> ValidSlot(w, items[i], n))
    && (forall i, j :: 0 <= i < j < |items| ==> Slot(w, items[i]) != Slot(w, items[j]))
  }

  ghost function SlotList(w: World, items: seq<Key>, n: nat): (s: seq<nat>)
    requires OneEach(w, items, n)
    ensures |s| == |items| && Distinct(s)
    ensures forall i :: 0 <= i < |s| ==> s[i] < n && Slot(w, items[i]) == Some(s[i])
  {
    seq(|items|, i requires 0 <= i < |items| => Slot(w, items[i]).value)
  }

  /** When nothing is indexed past the list, the slots named are exactly the positions of the list. */
  lemma NamedArePositions(w: World, items: seq<Key>, n: nat, p: nat)
    requires OneEach(w, items, n) && InBounds(w, items, n)
    ensures Named(w, items, p) <==> p < |items|
  {
    var s := SlotList(w, items, n);
    if p < |items| {
      forall i | 0 <= i < |s| ensures s[i] < |s| {
        assert ValidSlot(w, items[i], n);
      }
      Pigeonhole(s, p);
      var i :| 0 <= i < |s| && s[i] == p;
      assert Slot(w, items[i]) == Some(p);
    }
    if Named(w, items, p) {
      var i :| 0 <= i < |items| && Slot(w, items[i]) == Some(p);
      assert ValidSlot(w, items[i], n);
    }
  }

  /** A list with one entry a slot has no more entries than there are slots. */
  lemma NoMoreThanSlots(w: World, items: seq<Key>, n: nat)
    requires OneEach(w, items, n)
    ensures |items| <= n
  {
    var s := SlotList(w, items, n);
    SizeOfDistinct(s, |s|);
    var image := set i | 0 <= i < |s| :: s[i];
    SubsetSize(image, Below(n));
  }

  /**
   The loop runs past the list exactly when some slot below the list's length has no Test while a later one has:
   the Tests that are missing must be the last ones.
   */
  lemma PanicsUnlessSuffixMissing(w: World, items: seq<Key>, n: nat)
    requires OneEach(w, items, n)
    ensures InBounds(w, items, n) <==> (forall p: nat, q: nat :: p < q && Named(w, items, q) ==> Named(w, items, p))
  {
    if InBounds(w, items, n) {
      forall p: nat, q: nat | p < q && Named(w, items, q) ensures Named(w, items, p) {
        NamedArePositions(w, items, n, p);
        NamedArePositions(w, items, n, q);
      }
    }
    if forall p: nat, q: nat :: p < q && Named(w, items, q) ==> Named(w, items, p) {
      forall i | 0 <= i < |items| && ValidSlot(w, items[i], n) ensures Slot(w, items[i]).value < |items| {
        var q := Slot(w, items[i]).value;
        assert Named(w, items, q);
        AsManyEntriesAsNames(w, items, n, q);
      }
    }
  }

  lemma AsManyEntriesAsNames(w: World, items: seq<Key>, n: nat, q: nat)
    requires OneEach(w, items, n)
    requires forall p: nat :: p <= q ==> Named(w, items, p)
    ensures q < |items|
  {
    var s := SlotList(w, items, n);
    var image := set i | 0 <= i < |s| :: s[i];
    SizeOfDistinct(s, |s|);
    forall p | p in Below(q + 1) ensures p in image {
      assert Named(w, items, p);
      var i :| 0 <= i < |items| && Slot(w, items[i]) == Some(p);
      assert s[i] == p;
    }
    SubsetSize(Below(q + 1), image);
  }

  // ----- the mapping that was meant

  /** The list entry that names slot `p`. */
  ghost function Intended(w: World, items: seq<Key>, p: nat): Option<Key> {
    if Named(w, items, p)
    then var i :| 0 <= i < |items| && Slot(w, items[i]) == Some(p); Some(items[i])
    else None
  }

  ghost function IntendedSlots(w: World, items: seq<Key>, n: nat): (s: seq<Option<Key>>)
    ensures |s| == n && forall p :: 0 <= p < n ==> s[p] == Intended(w, items, p)
  {
    seq(n, p requires 0 <= p < n => Intended(w, items, p))
  }

  /** As written, the mapping is the intended one exactly when the list happens to be in slot order. */
  lemma AgreesInSlotOrder(w: World, items: seq<Key>, n: nat)
    requires OneEach(w, items, n) && InBounds(w, items, n) && Distinct(items)
    ensures MappedSlots(w, items, n) == IntendedSlots(w, items, n)
            <==> forall i :: 0 <= i < |items| ==> Slot(w, items[i]) == Some(i)
  {
    NoMoreThanSlots(w, items, n);
    var a, b := MappedSlots(w, items, n), IntendedSlots(w, items, n);
    if a == b {
      forall i | 0 <= i < |items| ensures Slot(w, items[i]) == Some(i) {
        NamedArePositions(w, items, n, i);
        assert a[i] == b[i];
      }
    }
    if forall i :: 0 <= i < |items| ==> Slot(w, items[i]) == Some(i) {
      forall p | 0 <= p < n ensures a[p] == b[p] {
        NamedArePositions(w, items, n, p);
        if p < |items| {
          assert Slot(w, items[p]) == Some(p);
        }
      }
    }
  }

  // ----- the tally

  function Entries(slots: seq<Option<Key>>): set<Key> {
    set p | 0 <= p < |slots| && slots[p].Some? :: slots[p].value
  }

  ghost predicate OnceEach(slots: seq<Option<Key>>) {
    forall p, q :: 0 <= p < q < |slots| && slots[p].Some? ==> slots[p] != slots[q]
  }

  /** The slots whose Test is final, in slot order. */
  function DoneSlots(w: World, slots: seq<Option<Key>>): (s: seq<nat>)
    ensures forall k :: 0 <= k < |s| ==> s[k] < |slots| && Counts(w, slots[s[k]])
    ensures forall j, k :: 0 <= j < k < |s| ==> s[j] < s[k]
    ensures forall p: nat :: p < |slots| && Counts(w, slots[p]) ==> p in s
  {
    if slots == [] then [] else
      var last := |slots| - 1;
      var before := DoneSlots(w, slots[..last]);
      assert forall p: nat :: p < last ==> slots[..last][p] == slots[p];
      if Counts(w, slots[last]) then before + [last] else before
  }

  predicate ResultOf(w: World, o: Option<Key>, description: string, x: TestResult) {
    && Counts(w, o) && x == TestResult(description, o.value, w.tests[o.value].phase == TestPassed)
  }

  /** The results are one line for each slot that is done, in template order, with the verdict of its entry. */
  lemma {:induction false} ResultsFollowSlots(w: World, slots: seq<Option<Key>>, templates: seq<string>)
    requires |slots| <= |templates|
    ensures var r := Results(w, slots, templates);
            var s := DoneSlots(w, slots);
            |r| == |s| && forall k :: 0 <= k < |r| ==> ResultOf(w, slots[s[k]], templates[s[k]], r[k])
  {
    if slots != [] {
      ResultsFollowSlots(w, slots[..|slots| - 1], templates);
    }
  }

  lemma {:induction false} AllPassIffPasses(r: seq<TestResult>)
    ensures Passes(r) <= |r|
    ensures Passes(r) == |r| <==> forall k :: 0 <= k < |r| ==> r[k].passed
  {
    if r != [] {
      AllPassIffPasses(r[..|r| - 1]);
    }
  }

  function Finals(w: World, ts: set<Key>): set<Key> { set t | t in ts && t in w.tests && w.tests[t].phase.IsFinal() }

  function PassedOf(w: World, ts: set<Key>): set<Key> {
    set t | t in ts && t in w.tests && w.tests[t].phase == TestPassed
  }

  function TestsOf(r: seq<TestResult>): set<Key> { set k | 0 <= k < |r| :: r[k].test }

  /** The results name the final entries, each once. */
  lemma ResultsCover(w: World, slots: seq<Option<Key>>, templates: seq<string>)
    requires |slots| <= |templates| && OnceEach(slots)
    ensures var r := Results(w, slots, templates);
            && TestsOf(r) == Finals(w, Entries(slots))
            && EachTestOnce(r)
  {
    var r := Results(w, slots, templates);
    var s := DoneSlots(w, slots);
    ResultsFollowSlots(w, slots, templates);
    forall t | t in Finals(w, Entries(slots)) ensures t in TestsOf(r) {
      var p :| 0 <= p < |slots| && slots[p] == Some(t);
      assert Counts(w, slots[p]);
      var k :| 0 <= k < |s| && s[k] == p;
      assert ResultOf(w, slots[s[k]], templates[s[k]], r[k]);
    }
    forall k | 0 <= k < |r| ensures r[k].test in Finals(w, Entries(slots)) {
      assert ResultOf(w, slots[s[k]], templates[s[k]], r[k]);
    }
    forall j, k | 0 <= j < k < |r| ensures r[j].test != r[k].test {
      assert ResultOf(w, slots[s[j]], templates[s[j]], r[j]);
      assert ResultOf(w, slots[s[k]], templates[s[k]], r[k]);
    }
  }

  function PassedIn(r: seq<TestResult>): set<Key> { set k | 0 <= k < |r| && r[k].passed :: r[k].test }

  lemma OneMoreResult(init: seq<TestResult>, x: TestResult)
    ensures TestsOf(init + [x]) == TestsOf(init) + {x.test}
    ensures PassedIn(init + [x]) == PassedIn(init) + if x.passed then {x.test} else {}
  {
    var r := init + [x];
    assert r[|init|] == x;
    assert forall k :: 0 <= k < |init| ==> r[k] == init[k];
    forall t | t in TestsOf(init) ensures t in TestsOf(r) {
      var k :| 0 <= k < |init| && init[k].test == t;
      assert r[k].test == t;
    }
    forall t | t in PassedIn(init) ensures t in PassedIn(r) {
      var k :| 0 <= k < |init| && init[k].passed && init[k].test == t;
      assert r[k].test == t;
    }
  }

  ghost predicate EachTestOnce(r: seq<TestResult>) {
    forall j, k :: 0 <= j < k < |r| ==> r[j].test != r[k].test
  }

  lemma {:induction false} PassesCount(r: seq<TestResult>)
    requires EachTestOnce(r)
    ensures Passes(r) == |PassedIn(r)| && |r| == |TestsOf(r)|
  {
    if r == [] {
      assert PassedIn(r) == {} && TestsOf(r) == {};
    } else {
      var last := r[|r| - 1];
      var init := r[..|r| - 1];
      PassesCount(init);
      OneMoreResult(init, last);
      assert r == init + [last];
      LastIsNew(r);
    }
  }

  lemma LastIsNew(r: seq<TestResult>)
    requires EachTestOnce(r) && r != []
    ensures r[|r| - 1].test !in TestsOf(r[..|r| - 1]) && r[|r| - 1].test !in PassedIn(r[..|r| - 1])
  {
  }

  /** Completions and passes depend only on which Tests fill the slots. */
  lemma TallyCounts(w: World, slots: seq<Option<Key>>, templates: seq<string>)
    requires |slots| <= |templates| && OnceEach(slots)
    ensures var r := Results(w, slots, templates);
            |r| == |Finals(w, Entries(slots))| && Passes(r) == |PassedOf(w, Entries(slots))|
  {
    var r := Results(w, slots, templates);
    ResultsCover(w, slots, templates);
    ResultsFollowSlots(w, slots, templates);
    PassesCount(r);
    forall k | 0 <= k < |r| ensures r[k].passed <==> r[k].test in PassedOf(w, Entries(slots)) {
      var p := DoneSlots(w, slots)[k];
      assert ResultOf(w, slots[p], templates[p], r[k]);
      assert r[k].test in TestsOf(r);
    }
    assert PassedOf(w, Entries(slots)) <= Finals(w, Entries(slots));
    assert PassedIn(r) == PassedOf(w, Entries(slots));
  }

  ghost function Members(items: seq<Key>): set<Key> { set i | 0 <= i < |items| :: items[i] }

  lemma MappedEntries(w: World, items: seq<Key>, n: nat)
    requires OneEach(w, items, n) && InBounds(w, items, n) && Distinct(items)
    ensures Entries(MappedSlots(w, items, n)) == Members(items) && OnceEach(MappedSlots(w, items, n))
  {
    NoMoreThanSlots(w, items, n);
    var slots := MappedSlots(w, items, n);
    forall i | 0 <= i < |items| ensures slots[i] == Some(items[i]) {
      NamedArePositions(w, items, n, i);
    }
    forall p | |items| <= p < n ensures slots[p] == None {
      NamedArePositions(w, items, n, p);
    }
  }

  lemma IntendedEntries(w: World, items: seq<Key>, n: nat)
    requires OneEach(w, items, n) && Distinct(items)
    ensures Entries(IntendedSlots(w, items, n)) == Members(items) && OnceEach(IntendedSlots(w, items, n))
  {
    var slots := IntendedSlots(w, items, n);
    forall i | 0 <= i < |items| ensures items[i] in Entries(slots) {
      var p := Slot(w, items[i]).value;
      assert ValidSlot(w, items[i], n) && Named(w, items, p);
      assert slots[p] == Some(items[i]);
    }
    forall p, q | 0 <= p < q < n && slots[p].Some? ensures slots[p] != slots[q] {
      assert Slot(w, slots[p].value) == Some(p);
      if slots[q].Some? { assert Slot(w, slots[q].value) == Some(q); }
    }
  }

  /** For one Test a slot, the tally is the same for every order of the list, and the intended mapping gives it too. */
  lemma TallyIgnoresOrder(w: World, items: seq<Key>, items': seq<Key>, templates: seq<string>)
    requires OneEach(w, items, |templates|) && InBounds(w, items, |templates|) && Distinct(items)
    requires OneEach(w, items', |templates|) && InBounds(w, items', |templates|) && Distinct(items')
    requires Members(items) == Members(items')
    ensures var n := |templates|;
            var a := Results(w, MappedSlots(w, items, n), templates);
            var b := Results(w, MappedSlots(w, items', n), templates);
            var c := Results(w, IntendedSlots(w, items, n), templates);
            && |a| == |b| == |c| && Passes(a) == Passes(b) == Passes(c)
            && Outcome(w, MappedSlots(w, items, n), a) == Outcome(w, MappedSlots(w, items', n), b)
               == Outcome(w, IntendedSlots(w, items, n), c)
  {
    var n := |templates|;
    MappedEntries(w, items, n);
    MappedEntries(w, items', n);
    IntendedEntries(w, items, n);
    TallyCounts(w, MappedSlots(w, items, n), templates);
    TallyCounts(w, MappedSlots(w, items', n), templates);
    TallyCounts(w, IntendedSlots(w, items, n), templates);
    DoneWhenFull(w, MappedSlots(w, items, n), templates);
    DoneWhenFull(w, MappedSlots(w, items', n), templates);
    DoneWhenFull(w, IntendedSlots(w, items, n), templates);
  }

  lemma {:induction false} DoneWhenFull(w: World, slots: seq<Option<Key>>, templates: seq<string>)
    requires |slots| <= |templates|
    ensures |Results(w, slots, templates)| <= |slots|
    ensures AllDone(w, slots) <==> |Results(w, slots, templates)| == |slots|
  {
    if slots != [] {
      DoneWhenFull(w, slots[..|slots| - 1], templates);
      assert AllDone(w, slots) <==> AllDone(w, slots[..|slots| - 1]) && Counts(w, slots[|slots| - 1]);
    }
  }

  // ----- how many live Tests a run has

  /** Slots that have live Tests have different ones. */
  lemma {:induction false} AtLeastFilled(w: World, r: Key, m: nat)
    requires forall p: nat :: p < m ==> SlotFilled(w, r, p)
    ensures m <= |BelowSlot(w, r, m)|
  {
    if m > 0 {
      AtLeastFilled(w, r, m - 1);
      assert SlotFilled(w, r, m - 1);
      var t :| LiveInSlot(w, r, t, m - 1);
      SubsetSize(BelowSlot(w, r, m - 1) + {t}, BelowSlot(w, r, m));
    }
  }

  function BelowSlot(w: World, r: Key, m: nat): set<Key> {
    set t | t in LiveTestsOf(w, r) && Slot(w, t).Some? && Slot(w, t).value < m
  }

  lemma CountsFilled(w: World, r: Key, m: nat)
    requires forall p: nat :: p < m ==> SlotFilled(w, r, p)
    ensures m <= |LiveTestsOf(w, r)|
  {
    AtLeastFilled(w, r, m);
    SubsetSize(BelowSlot(w, r, m), LiveTestsOf(w, r));
  }

  /** A list without repetitions is as long as the set of its entries is large. */
  lemma ListSize(items: seq<Key>, ts: set<Key>)
    requires Distinct(items) && forall t :: t in items <==> t in ts
    ensures |items| == |ts|
  {
    SizeOfDistinct(items, |items|);
    assert (set i | 0 <= i < |items| :: items[i]) == ts;
  }
}
