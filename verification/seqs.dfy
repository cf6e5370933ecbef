/**
 * The Kotlin collection operations the view models use on lists:
 * `find` / `indexOfFirst` / `indexOf`, `filter` / `removeAll`, `sumOf`, and
 * removal of one element by position.
 */
module Seqs {
  import opened Wrappers

  /** Index of the first element satisfying `p`, or None (Kotlin's `indexOfFirst`, -1 as None). */
  function FirstIndexWhere<T>(s: seq<T>, p: T -> bool): (r: Option<nat>)
    ensures r.None? <==> forall j :: 0 <= j < |s| ==> !p(s[j])
    ensures r.Some? ==> r.value < |s| && p(s[r.value])
    ensures r.Some? ==> forall j :: 0 <= j < r.value ==> !p(s[j])
  {
    if |s| == 0 then None
    else if p(s[0]) then Some(0)
    else match FirstIndexWhere(s[1..], p)
      case None => None
      case Some(i) => Some(i + 1)
  }

  /** Index of the first element equal to `x` (Kotlin's `indexOf`, by structural equality). */
  function IndexOf<T(==)>(s: seq<T>, x: T): (r: Option<nat>)
    ensures r.None? <==> x !in s
    ensures r.Some? ==> r.value < |s| && s[r.value] == x
    ensures r.Some? ==> forall j :: 0 <= j < r.value ==> s[j] != x
  {
    FirstIndexWhere(s, (y: T) => y == x)
  }

  /** `s` without its element at position `i`, the rest in order. */
  function RemoveAt<T>(s: seq<T>, i: nat): (r: seq<T>)
    requires i < |s|
    ensures |r| == |s| - 1
    ensures forall j :: 0 <= j < i ==> r[j] == s[j]
    ensures forall j :: i <= j < |r| ==> r[j] == s[j + 1]
  {
    s[..i] + s[i + 1..]
  }

  /** Number of elements of `s` that satisfy `p`. */
  function CountWhere<T>(s: seq<T>, p: T -> bool): nat
  {
    if |s| == 0 then 0 else (if p(s[0]) then 1 else 0) + CountWhere(s[1..], p)
  }

  /** `a` can be obtained from `b` by deleting elements: same elements, same relative order. */
  predicate Subsequence<T(==)>(a: seq<T>, b: seq<T>)
  {
    if |a| == 0 then true
    else if |b| == 0 then false
    else (a[0] == b[0] && Subsequence(a[1..], b[1..])) || Subsequence(a, b[1..])
  }

  /** The elements of `s` satisfying `p`, in order (Kotlin's `filter`; `removeAll` keeps the complement). */
  function Filter<T(==)>(s: seq<T>, p: T -> bool): (r: seq<T>)
    ensures |r| == CountWhere(s, p)
    ensures Subsequence(r, s)
    ensures forall j :: 0 <= j < |r| ==> p(r[j])
    ensures forall j :: 0 <= j < |r| ==> r[j] in s
    ensures forall j :: 0 <= j < |s| && p(s[j]) ==> s[j] in r
  {
    if |s| == 0 then []
    else
      var rest := Filter(s[1..], p);
      if p(s[0]) then
        assert ([s[0]] + rest)[1..] == rest;
        [s[0]] + rest
      else rest
  }

  /** The negation of a predicate (what `removeAll` keeps). */
  function Not<T>(p: T -> bool): T -> bool
  {
    (x: T) => !p(x)
  }

  /** Each element satisfies either `p` or its negation. */
  lemma {:induction false} CountWhereNot<T>(s: seq<T>, p: T -> bool)
    ensures CountWhere(s, Not(p)) == |s| - CountWhere(s, p)
  {
    if |s| > 0 {
      CountWhereNot(s[1..], p);
    }
  }

  /** Kotlin's `sumOf` with an `Int` selector. */
  function SumOf<T>(s: seq<T>, f: T -> int): int
  {
    if |s| == 0 then 0 else f(s[0]) + SumOf(s[1..], f)
  }

  /** Kotlin's `sumOf` with a `Double` selector, on exact reals. */
  function SumOfReal<T>(s: seq<T>, f: T -> real): real
  {
    if |s| == 0 then 0.0 else f(s[0]) + SumOfReal(s[1..], f)
  }

  lemma {:induction false} SumOfAppend<T>(a: seq<T>, b: seq<T>, f: T -> int)
    ensures SumOf(a + b, f) == SumOf(a, f) + SumOf(b, f)
  {
    if |a| == 0 {
      assert a + b == b;
    } else {
      assert (a + b)[1..] == a[1..] + b;
      SumOfAppend(a[1..], b, f);
    }
  }

  /** Replacing one element changes the sum by the difference of the two selector values. */
  lemma {:induction false} SumOfUpdate<T>(s: seq<T>, i: nat, x: T, f: T -> int)
    requires i < |s|
    ensures SumOf(s[i := x], f) == SumOf(s, f) - f(s[i]) + f(x)
  {
    if i > 0 {
      assert s[i := x][1..] == s[1..][i - 1 := x];
      SumOfUpdate(s[1..], i - 1, x, f);
    }
  }

  /** Removing one element lowers the sum by that element's selector value. */
  lemma {:induction false} SumOfRemoveAt<T>(s: seq<T>, i: nat, f: T -> int)
    requires i < |s|
    ensures SumOf(RemoveAt(s, i), f) == SumOf(s, f) - f(s[i])
  {
    if i > 0 {
      assert RemoveAt(s, i)[1..] == RemoveAt(s[1..], i - 1);
      SumOfRemoveAt(s[1..], i - 1, f);
    } else {
      assert RemoveAt(s, 0) == s[1..];
    }
  }

  /** A sum splits over the elements that satisfy `p` and those that do not. */
  lemma {:induction false} SumOfFilterSplit<T>(s: seq<T>, p: T -> bool, f: T -> int)
    ensures SumOf(s, f) == SumOf(Filter(s, p), f) + SumOf(Filter(s, Not(p)), f)
  {
    if |s| > 0 {
      SumOfFilterSplit(s[1..], p, f);
      var keep := Filter(s[1..], p);
      var drop := Filter(s[1..], Not(p));
      if p(s[0]) {
        assert SumOf([s[0]] + keep, f) == f(s[0]) + SumOf(keep, f) by {
          assert ([s[0]] + keep)[1..] == keep;
        }
      } else {
        assert SumOf([s[0]] + drop, f) == f(s[0]) + SumOf(drop, f) by {
          assert ([s[0]] + drop)[1..] == drop;
        }
      }
    }
  }

  lemma {:induction false} SumOfRealAppend<T>(a: seq<T>, b: seq<T>, f: T -> real)
    ensures SumOfReal(a + b, f) == SumOfReal(a, f) + SumOfReal(b, f)
  {
    if |a| == 0 {
      assert a + b == b;
    } else {
      assert (a + b)[1..] == a[1..] + b;
      SumOfRealAppend(a[1..], b, f);
    }
  }

  lemma {:induction false} SumOfRealUpdate<T>(s: seq<T>, i: nat, x: T, f: T -> real)
    requires i < |s|
    ensures SumOfReal(s[i := x], f) == SumOfReal(s, f) - f(s[i]) + f(x)
  {
    if i > 0 {
      assert s[i := x][1..] == s[1..][i - 1 := x];
      SumOfRealUpdate(s[1..], i - 1, x, f);
    }
  }
}
