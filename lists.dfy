/**
 * The array idioms the components share: `filter`, removing every copy of
 * a value, appending a value that is not yet present, and the
 * "remove if present, else append" toggle used for tags, items and days.
 */
module Lists {

  /** No value occurs twice. */
  predicate Distinct<T(==)>(xs: seq<T>) {
    forall i, j :: 0 <= i < j < |xs| ==> xs[i] != xs[j]
  }

  /** `r` is `xs` with some elements dropped and the rest kept in order. */
  predicate IsSubsequence<T(==)>(r: seq<T>, xs: seq<T>) {
    if r == [] then true
    else if xs == [] then false
    else if r[0] == xs[0] then IsSubsequence(r[1..], xs[1..])
    else IsSubsequence(r, xs[1..])
  }

  /** Every sequence is a subsequence of itself. */
  lemma {:induction false} SubsequenceReflexive<T>(xs: seq<T>)
    ensures IsSubsequence(xs, xs)
  {
    if xs != [] {
      SubsequenceReflexive(xs[1..]);
    }
  }

  /**
   * `xs.filter(p)`: the elements satisfying `p`, in their original order.
   * Exactly the values of `xs` satisfying `p` are kept.
   */
  function Filter<T(!new)>(xs: seq<T>, p: T -> bool): (r: seq<T>)
    ensures |r| <= |xs|
    ensures forall y :: y in r <==> y in xs && p(y)
  {
    if xs == [] then []
    else if p(xs[0]) then [xs[0]] + Filter(xs[1..], p)
    else Filter(xs[1..], p)
  }

  /** What Filter keeps stays in its original order. */
  lemma {:induction false} FilterIsSubsequence<T(!new)>(xs: seq<T>, p: T -> bool)
    ensures IsSubsequence(Filter(xs, p), xs)
  {
    if xs != [] {
      FilterIsSubsequence(xs[1..], p);
      if p(xs[0]) {
        assert ([xs[0]] + Filter(xs[1..], p))[1..] == Filter(xs[1..], p);
      }
    }
  }

  /** Filtering keeps everything exactly when every element passes. */
  lemma {:induction false} FilterAll<T(!new)>(xs: seq<T>, p: T -> bool)
    requires forall y :: y in xs ==> p(y)
    ensures Filter(xs, p) == xs
  {
    if xs != [] {
      FilterAll(xs[1..], p);
      assert [xs[0]] + xs[1..] == xs;
    }
  }

  /**
   * Filtering by a predicate and by its negation splits the sequence:
   * the two counts add up to its length.
   */
  lemma {:induction false} FilterPartition<T(!new)>(xs: seq<T>, p: T -> bool, q: T -> bool)
    requires forall y :: q(y) == !p(y)
    ensures |Filter(xs, p)| + |Filter(xs, q)| == |xs|
  {
    if xs != [] {
      FilterPartition(xs[1..], p, q);
    }
  }

  /** Filtering twice is filtering by the conjunction. */
  lemma {:induction false} FilterFilter<T(!new)>(xs: seq<T>, p: T -> bool, q: T -> bool, pq: T -> bool)
    requires forall y :: pq(y) == (p(y) && q(y))
    ensures Filter(Filter(xs, p), q) == Filter(xs, pq)
  {
    if xs != [] {
      FilterFilter(xs[1..], p, q, pq);
      if p(xs[0]) {
        assert ([xs[0]] + Filter(xs[1..], p))[1..] == Filter(xs[1..], p);
      }
    }
  }

  /** Filtering by two predicates that agree everywhere gives the same result. */
  lemma {:induction false} FilterSame<T(!new)>(xs: seq<T>, p: T -> bool, q: T -> bool)
    requires forall y :: p(y) == q(y)
    ensures Filter(xs, p) == Filter(xs, q)
  {
    if xs != [] {
      FilterSame(xs[1..], p, q);
    }
  }

  /** Filtering preserves distinctness. */
  lemma {:induction false} FilterDistinct<T(!new)>(xs: seq<T>, p: T -> bool)
    requires Distinct(xs)
    ensures Distinct(Filter(xs, p))
  {
    if xs != [] {
      FilterDistinct(xs[1..], p);
      assert xs[0] !in xs[1..] by {
        forall k | 0 <= k < |xs| - 1 ensures xs[1..][k] != xs[0] {
          assert xs[1..][k] == xs[k + 1];
        }
      }
    }
  }

  /** `xs.filter(y => y !== x)`: every copy of `x` removed, the rest kept in order. */
  function Without<T(==,!new)>(xs: seq<T>, x: T): (r: seq<T>)
    ensures x !in r
    ensures forall y :: y in r <==> y in xs && y != x
    ensures x !in xs ==> r == xs
    ensures Distinct(xs) ==> Distinct(r)
    ensures IsSubsequence(r, xs)
  {
    var r := Filter(xs, y => y != x);
    FilterIsSubsequence(xs, y => y != x);
    assert x !in xs ==> r == xs by {
      if x !in xs { FilterAll(xs, y => y != x); }
    }
    assert Distinct(xs) ==> Distinct(r) by {
      if Distinct(xs) { FilterDistinct(xs, y => y != x); }
    }
    r
  }

  /** Removing one value from a sequence without repeats shortens it by exactly one when the value is present. */
  lemma {:induction false} WithoutLength<T(!new)>(xs: seq<T>, x: T)
    requires Distinct(xs)
    ensures |Without(xs, x)| == if x in xs then |xs| - 1 else |xs|
  {
    if xs != [] {
      assert Distinct(xs[1..]) by {
        forall i, j | 0 <= i < j < |xs| - 1 ensures xs[1..][i] != xs[1..][j] {
          assert xs[1..][i] == xs[i + 1] && xs[1..][j] == xs[j + 1];
        }
      }
      WithoutLength(xs[1..], x);
      assert xs[0] == x ==> x !in xs[1..] by {
        forall k | 0 <= k < |xs| - 1 ensures xs[1..][k] != xs[0] {
          assert xs[1..][k] == xs[k + 1];
        }
      }
      assert Without(xs, x) == Filter(xs, y => y != x);
      assert Without(xs[1..], x) == Filter(xs[1..], y => y != x);
      assert x in xs <==> xs[0] == x || x in xs[1..];
    }
  }

  /** `xs.includes(x) ? xs : [...xs, x]`: adds `x` at the end unless it is already there. */
  function AddAbsent<T(==,!new)>(xs: seq<T>, x: T): (r: seq<T>)
    ensures x in r
    ensures forall y :: y in r <==> y in xs || y == x
    ensures Distinct(xs) ==> Distinct(r)
    ensures x in xs ==> r == xs
    ensures x !in xs ==> |r| == |xs| + 1 && r[..|xs|] == xs && r[|xs|] == x
  {
    if x in xs then xs else xs + [x]
  }

  /**
   * `xs.includes(x) ? xs.filter(y => y !== x) : [...xs, x]`: flips whether
   * `x` belongs, and leaves every other value's membership alone.
   */
  function Toggle<T(==,!new)>(xs: seq<T>, x: T): (r: seq<T>)
    ensures x in r <==> x !in xs
    ensures forall y :: y != x ==> (y in r <==> y in xs)
    ensures Distinct(xs) ==> Distinct(r)
  {
    if x in xs then Without(xs, x) else AddAbsent(xs, x)
  }

  /** Toggling the same value twice gives back the same members; when the value was absent, the very same sequence. */
  lemma ToggleTwice<T(!new)>(xs: seq<T>, x: T)
    ensures forall y :: y in Toggle(Toggle(xs, x), x) <==> y in xs
    ensures x !in xs ==> Toggle(Toggle(xs, x), x) == xs
  {
    if x !in xs {
      var t := xs + [x];
      assert Toggle(xs, x) == t;
      assert Toggle(t, x) == Without(t, x);
      WithoutAppend(xs, x);
    }
  }

  /** Appending a value and then removing it restores a sequence that did not hold it. */
  lemma {:induction false} WithoutAppend<T(!new)>(xs: seq<T>, x: T)
    requires x !in xs
    ensures Without(xs + [x], x) == xs
  {
    FilterAppendOne(xs, x, y => y != x);
    FilterAll(xs, y => y != x);
    assert Filter([x], y => y != x) == [];
  }

  lemma {:induction false} FilterAppendOne<T(!new)>(xs: seq<T>, x: T, p: T -> bool)
    ensures Filter(xs + [x], p) == Filter(xs, p) + Filter([x], p)
  {
    if xs != [] {
      assert (xs + [x])[0] == xs[0] && (xs + [x])[1..] == xs[1..] + [x];
      FilterAppendOne(xs[1..], x, p);
    } else {
      assert xs + [x] == [x];
    }
  }

  /** Filtering distributes over concatenation. */
  lemma {:induction false} FilterAppend<T(!new)>(xs: seq<T>, ys: seq<T>, p: T -> bool)
    ensures Filter(xs + ys, p) == Filter(xs, p) + Filter(ys, p)
  {
    if xs == [] {
      assert xs + ys == ys;
    } else {
      assert (xs + ys)[0] == xs[0] && (xs + ys)[1..] == xs[1..] + ys;
      FilterAppend(xs[1..], ys, p);
    }
  }

  /** A sequence is the concatenation of its three slices at two cut points. */
  lemma ThreeSlices<T>(xs: seq<T>, i: nat, j: nat, front: seq<T>, back: seq<T>)
    requires i <= j <= |xs| && front == xs[..i] && back == xs[j..]
    ensures xs == front + (xs[i..j] + back)
  {
    assert xs[i..] == xs[i..j] + xs[j..];
  }

  /** Dropping twice is dropping the sum. */
  lemma DropDrop<T>(xs: seq<T>, i: nat, k: nat)
    requires i + k <= |xs|
    ensures xs[i..][k..] == xs[i + k..]
  {
  }
}
