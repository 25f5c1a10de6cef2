/** Shared vocabulary: options, duplicate-free sequences and the removal of a value from a list. */
module Prelude {

  datatype Option<+T> = None | Some(value: T)

  ghost predicate Distinct<T>(s: seq<T>) {
    forall i, j :: 0 <= i < j < |s| ==> s[i] != s[j]
  }

  /** The elements of `s` other than `x`, in their order. */
  function Without<T(==,!new)>(s: seq<T>, x: T): (r: seq<T>)
    ensures forall y :: y in r <==> y in s && y != x
  {
    if s == [] then [] else if s[0] == x then Without(s[1..], x) else [s[0]] + Without(s[1..], x)
  }

  /** The natural numbers below `n`. */
  ghost function Below(n: nat): (r: set<nat>)
    ensures |r| == n && forall i: nat :: i in r <==> i < n
  {
    if n == 0 then {} else Below(n - 1) + {n - 1}
  }

  /** A duplicate-free list of natural numbers below its own length lists all of them. */
  lemma {:induction false} Pigeonhole(s: seq<nat>, v: nat)
    requires Distinct(s)
    requires forall i :: 0 <= i < |s| ==> s[i] < |s|
    requires v < |s|
    ensures v in s
  {
    var image := set i | 0 <= i < |s| :: s[i];
    SizeOfDistinct(s, |s|);
    if v !in s {
      SubsetSize(image, Below(|s|) - {v});
    }
  }

  lemma {:induction false} SizeOfDistinct<T>(s: seq<T>, n: nat)
    requires Distinct(s) && n <= |s|
    ensures |set i | 0 <= i < n :: s[i]| == n
  {
    var b := set i | 0 <= i < n :: s[i];
    if n == 0 {
      assert b == {};
    } else {
      SizeOfDistinct(s, n - 1);
      assert b == (set i | 0 <= i < n - 1 :: s[i]) + {s[n - 1]};
    }
  }

  lemma {:induction false} SubsetSize<T>(a: set<T>, b: set<T>)
    requires a <= b
    ensures |a| <= |b|
  {
    if a != {} {
      var x :| x in a;
      SubsetSize(a - {x}, b - {x});
    }
  }

  /** The elements of a finite set, in some order. */
  lemma {:induction false} AsList<T>(ks: set<T>) returns (l: seq<T>)
    ensures Distinct(l) && forall k :: k in l <==> k in ks
  {
    if ks == {} {
      l := [];
    } else {
      var k :| k in ks;
      var rest := AsList(ks - {k});
      l := [k] + rest;
    }
  }
}
