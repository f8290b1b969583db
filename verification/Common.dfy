// Types and sums shared by every component of the model.

module Common {

  datatype Option<+T> = None | Some(value: T)

  datatype Result<+T, +E> = Ok(value: T) | Err(error: E)

  const TWO64: int := 0x1_0000_0000_0000_0000

  type U64 = n: nat | n < TWO64

  function Max(a: int, b: int): int { if a > b then a else b }

  function Min(a: int, b: int): int { if a < b then a else b }

  /** The first n elements, or all of them. */
  function Take<T>(s: seq<T>, n: nat): seq<T> {
    if |s| <= n then s else s[..n]
  }

  ghost predicate Distinct<T>(s: seq<T>) {
    forall i, j :: 0 <= i < j < |s| ==> s[i] != s[j]
  }

  ghost function Elements<T>(s: seq<T>): set<T> { set x | x in s }

  /** A sequence without repetitions has as many elements as its set. */
  lemma {:induction false} DistinctCardinality<T>(s: seq<T>)
    requires Distinct(s)
    ensures |Elements(s)| == |s|
  {
    if s != [] {
      var init := s[..|s| - 1];
      var last := s[|s| - 1];
      DistinctCardinality(init);
      assert s == init + [last];
      assert Elements(s) == Elements(init) + {last};
      forall i | 0 <= i < |init|
        ensures init[i] != last
      {
        assert s[i] != s[|s| - 1];
      }
    }
  }

  // ---- Least elements ----

  predicate IsLeast(s: set<U64>, x: U64) {
    x in s && forall y :: y in s ==> x <= y
  }

  lemma {:induction false} LeastExists(s: set<U64>)
    requires s != {}
    ensures exists x :: IsLeast(s, x)
    decreases |s|
  {
    var x :| x in s;
    assert forall y :: y in s ==> y == x || y in s - {x};
    if s - {x} == {} {
      assert IsLeast(s, x);
    } else {
      LeastExists(s - {x});
      var y :| IsLeast(s - {x}, y);
      assert IsLeast(s, if x <= y then x else y);
    }
  }

  ghost function LeastOf(s: set<U64>): (x: U64)
    requires s != {}
    ensures IsLeast(s, x)
  {
    LeastExists(s);
    var x :| IsLeast(s, x);
    x
  }

  // ---- Sums ----

  /** Sum of a weight over a finite set. */
  ghost function SumSet<T(!new)>(s: set<T>, weight: T -> int): int {
    if s == {} then 0 else
      var x :| x in s;
      weight(x) + SumSet(s - {x}, weight)
  }

  lemma {:induction false} SumSetRemove<T(!new)>(s: set<T>, weight: T -> int, y: T)
    requires y in s
    ensures SumSet(s, weight) == weight(y) + SumSet(s - {y}, weight)
    decreases |s|
  {
    var x :| x in s && SumSet(s, weight) == weight(x) + SumSet(s - {x}, weight);
    if x != y {
      SumSetRemove(s - {x}, weight, y);
      SumSetRemove(s - {y}, weight, x);
      assert s - {x} - {y} == s - {y} - {x};
    }
  }

  lemma {:induction false} SumSetUnion<T(!new)>(a: set<T>, b: set<T>, weight: T -> int)
    requires a !! b
    ensures SumSet(a + b, weight) == SumSet(a, weight) + SumSet(b, weight)
    decreases |a|
  {
    if a == {} {
      assert a + b == b;
    } else {
      var x :| x in a;
      SumSetRemove(a, weight, x);
      SumSetRemove(a + b, weight, x);
      assert (a + b) - {x} == (a - {x}) + b;
      SumSetUnion(a - {x}, b, weight);
    }
  }

  /** Carrying a set along an injective, weight-preserving map keeps its sum. */
  lemma {:induction false} SumSetImage<S(!new), T(!new)>(a: set<S>, image: set<T>, f: S -> T, v: S -> int, w: T -> int)
    requires forall x, y :: x in a && y in a && f(x) == f(y) ==> x == y
    requires forall x :: x in a ==> v(x) == w(f(x))
    requires image == set x | x in a :: f(x)
    ensures SumSet(a, v) == SumSet(image, w)
    decreases |a|
  {
    if a == {} {
      assert image == {};
    } else {
      var x :| x in a;
      SumSetRemove(a, v, x);
      SumSetRemove(image, w, f(x));
      assert image - {f(x)} == set y | y in a - {x} :: f(y);
      SumSetImage(a - {x}, image - {f(x)}, f, v, w);
    }
  }

  /** Two weights that agree on a set give the same sum. */
  lemma SumSetCongruent<T(!new)>(s: set<T>, v: T -> int, w: T -> int)
    requires forall x :: x in s ==> v(x) == w(x)
    ensures SumSet(s, v) == SumSet(s, w)
  {
    SumSetImage(s, s, x => x, v, w);
  }

  lemma {:induction false} SumSetZero<T(!new)>(s: set<T>, w: T -> int)
    requires forall x :: x in s ==> w(x) == 0
    ensures SumSet(s, w) == 0
    decreases |s|
  {
    if s != {} {
      var x :| x in s;
      SumSetRemove(s, w, x);
      SumSetZero(s - {x}, w);
    }
  }

  /** Elements of weight zero may be left out. */
  lemma SumSetSupport<T(!new)>(s: set<T>, part: set<T>, w: T -> int)
    requires part <= s
    requires forall x :: x in s - part ==> w(x) == 0
    ensures SumSet(s, w) == SumSet(part, w)
  {
    SumSetUnion(part, s - part, w);
    SumSetZero(s - part, w);
    assert part + (s - part) == s;
  }
}
