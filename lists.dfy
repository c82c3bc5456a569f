/**
 * The array operations the pages are built from: `filter` with a callback,
 * and the list-as-set toggle (`includes ? filter(!==) : [...xs, x]`) that the
 * favorites lists and the property-type and amenity checkboxes all use.
 */
module Lists {

  /** `s.filter(keep)`: the elements of `s` that satisfy `keep`, in order. */
  function Filter<T>(s: seq<T>, keep: T -> bool): (r: seq<T>)
    ensures |r| <= |s|
    ensures forall x :: x in r ==> x in s && keep(x)
    decreases |s|
  {
    if s == [] then []
    else if keep(s[0]) then [s[0]] + Filter(s[1..], keep)
    else Filter(s[1..], keep)
  }

  /**
   * `idx` embeds `r` in `s`: position k of `r` holds the element at position
   * idx[k] of `s`, and the positions strictly increase.
   */
  ghost predicate Embedding<T>(idx: seq<int>, r: seq<T>, s: seq<T>) {
    && |idx| == |r|
    && (forall k :: 0 <= k < |idx| ==> 0 <= idx[k] < |s| && r[k] == s[idx[k]])
    && (forall k, l :: 0 <= k < l < |idx| ==> idx[k] < idx[l])
  }

  /** `r` occurs in `s` in the same relative order. */
  ghost predicate IsSubsequence<T>(r: seq<T>, s: seq<T>) {
    exists idx :: Embedding(idx, r, s)
  }

  /** Every element that satisfies `keep` survives; together with the contract of Filter this is an iff. */
  lemma {:induction false} FilterMembership<T>(s: seq<T>, keep: T -> bool, x: T)
    ensures x in Filter(s, keep) <==> x in s && keep(x)
    decreases |s|
  {
    if s != [] && x != s[0] {
      FilterMembership(s[1..], keep, x);
      assert x in s <==> x in s[1..];
    }
  }

  /** An embedding into the tail of a list, shifted by one, embeds into the whole list. */
  lemma EmbeddingShift<T>(idx: seq<int>, r: seq<T>, s: seq<T>, a: T, keepHead: bool)
    returns (idx': seq<int>)
    requires Embedding(idx, r, s)
    ensures keepHead ==> Embedding(idx', [a] + r, [a] + s)
    ensures !keepHead ==> Embedding(idx', r, [a] + s)
  {
    var shifted := seq(|idx|, k requires 0 <= k < |idx| => idx[k] + 1);
    idx' := if keepHead then [0] + shifted else shifted;
  }

  /** Filtering never reorders: the result is an order-preserving subsequence. */
  lemma {:induction false} FilterIsSubsequence<T>(s: seq<T>, keep: T -> bool)
    ensures IsSubsequence(Filter(s, keep), s)
    decreases |s|
  {
    var idx := FilterEmbedding(s, keep);
  }

  /** The positions in `s` of the elements a filter keeps, as a witness that the result is a subsequence. */
  lemma {:induction false} FilterEmbedding<T>(s: seq<T>, keep: T -> bool) returns (idx: seq<int>)
    ensures Embedding(idx, Filter(s, keep), s)
    decreases |s|
  {
    if s == [] {
      idx := [];
    } else {
      var tail := FilterEmbedding(s[1..], keep);
      assert [s[0]] + s[1..] == s;
      idx := EmbeddingShift(tail, Filter(s[1..], keep), s[1..], s[0], keep(s[0]));
    }
  }

  /** A filter that every element passes is the identity. */
  lemma {:induction false} FilterKeepsAll<T>(s: seq<T>, keep: T -> bool)
    requires forall x :: x in s ==> keep(x)
    ensures Filter(s, keep) == s
    decreases |s|
  {
    if s != [] {
      FilterKeepsAll(s[1..], keep);
    }
  }

  /** Filtering an already filtered list with the same callback changes nothing. */
  lemma FilterIdempotent<T>(s: seq<T>, keep: T -> bool)
    ensures Filter(Filter(s, keep), keep) == Filter(s, keep)
  {
    FilterKeepsAll(Filter(s, keep), keep);
  }

  /** Two callbacks that agree on the elements of `s` select the same list. */
  lemma {:induction false} FilterCongruent<T>(s: seq<T>, f: T -> bool, g: T -> bool)
    requires forall x :: x in s ==> f(x) == g(x)
    ensures Filter(s, f) == Filter(s, g)
    decreases |s|
  {
    if s != [] {
      FilterCongruent(s[1..], f, g);
    }
  }

  /** The callback that accepts what both `f` and `g` accept. */
  function Both<T>(f: T -> bool, g: T -> bool): T -> bool {
    x => f(x) && g(x)
  }

  /** The callback that demands `keep` only when `guard` holds. */
  function When<T>(guard: bool, keep: T -> bool): T -> bool {
    x => guard ==> keep(x)
  }

  /** `if (guard) s = s.filter(keep)`: a filter that only runs when its guard holds. */
  function FilterWhen<T>(s: seq<T>, guard: bool, keep: T -> bool): seq<T> {
    if guard then Filter(s, keep) else s
  }

  /** Two filters in a row are one filter by the conjunction of their callbacks. */
  lemma {:induction false} FilterFilter<T>(s: seq<T>, f: T -> bool, g: T -> bool)
    ensures Filter(Filter(s, f), g) == Filter(s, Both(f, g))
    decreases |s|
  {
    if s != [] {
      FilterFilter(s[1..], f, g);
    }
  }

  /** A guarded filter is an unconditional filter by the guarded callback. */
  lemma FilterWhenIsFilter<T>(s: seq<T>, guard: bool, keep: T -> bool)
    ensures FilterWhen(s, guard, keep) == Filter(s, When(guard, keep))
  {
    if guard {
      FilterCongruent(s, keep, When(guard, keep));
    } else {
      FilterKeepsAll(s, When(guard, keep));
    }
  }

  /** Filtering distributes over concatenation. */
  lemma {:induction false} FilterAppend<T>(a: seq<T>, b: seq<T>, keep: T -> bool)
    ensures Filter(a + b, keep) == Filter(a, keep) + Filter(b, keep)
    decreases |a|
  {
    if a != [] {
      FilterAppend(a[1..], b, keep);
      assert (a + b)[1..] == a[1..] + b;
    } else {
      assert a + b == b;
    }
  }

  /** No value occurs twice. */
  predicate NoDuplicates<T(==)>(s: seq<T>) {
    forall i, j :: 0 <= i < j < |s| ==> s[i] != s[j]
  }

  /** Filtering a duplicate-free list leaves it duplicate-free. */
  lemma {:induction false} FilterNoDuplicates<T>(s: seq<T>, keep: T -> bool)
    requires NoDuplicates(s)
    ensures NoDuplicates(Filter(s, keep))
    decreases |s|
  {
    if s != [] {
      assert NoDuplicates(s[1..]);
      FilterNoDuplicates(s[1..], keep);
      var rest := Filter(s[1..], keep);
      if keep(s[0]) {
        assert s[0] !in s[1..];
        assert s[0] !in rest;
        var r := [s[0]] + rest;
        forall i, j | 0 <= i < j < |r| ensures r[i] != r[j] {
          if i == 0 {
            assert r[j] in rest;
          }
        }
      }
    }
  }

  /** `xs.filter(y => y !== x)`. */
  function RemoveAll<T(==)>(xs: seq<T>, x: T): seq<T> {
    Filter(xs, y => y != x)
  }

  /**
   * The toggle every page uses: when `x` is listed, every occurrence is
   * removed; otherwise `x` is appended.
   */
  function Toggle<T(==)>(xs: seq<T>, x: T): (r: seq<T>)
    ensures x in r <==> x !in xs
    ensures forall y :: y in r ==> y in xs || y == x
    ensures forall y :: y in xs && y != x ==> y in r
  {
    if x in xs then
      var r := RemoveAll(xs, x);
      assert forall y :: y in xs && y != x ==> y in r by {
        forall y | y in xs && y != x ensures y in r {
          FilterMembership(xs, z => z != x, y);
        }
      }
      r
    else xs + [x]
  }

  /** Removing is an in-order deletion: what is left keeps its relative order. */
  lemma ToggleRemovesInOrder<T>(xs: seq<T>, x: T)
    requires x in xs
    ensures IsSubsequence(Toggle(xs, x), xs)
    ensures |Toggle(xs, x)| < |xs|
  {
    FilterIsSubsequence(xs, y => y != x);
    FilterShorter(xs, y => y != x, x);
  }

  /** Adding puts the value last, after the list as it was. */
  lemma ToggleAppendsLast<T>(xs: seq<T>, x: T)
    requires x !in xs
    ensures xs < Toggle(xs, x)
    ensures |Toggle(xs, x)| == |xs| + 1 && Toggle(xs, x)[|xs|] == x
  {
  }

  /** Dropping an element that fails the callback makes the list strictly shorter. */
  lemma {:induction false} FilterShorter<T>(s: seq<T>, keep: T -> bool, x: T)
    requires x in s && !keep(x)
    ensures |Filter(s, keep)| < |s|
    decreases |s|
  {
    if s[0] != x {
      FilterShorter(s[1..], keep, x);
    }
  }

  /** Toggling keeps a duplicate-free list duplicate-free. */
  lemma ToggleNoDuplicates<T>(xs: seq<T>, x: T)
    requires NoDuplicates(xs)
    ensures NoDuplicates(Toggle(xs, x))
  {
    if x in xs {
      FilterNoDuplicates(xs, y => y != x);
    } else {
      var r := xs + [x];
      forall i, j | 0 <= i < j < |r| ensures r[i] != r[j] {
        if j == |xs| {
          assert r[i] in xs;
        }
      }
    }
  }

  /** Toggling an absent value twice restores the list exactly. */
  lemma ToggleTwiceRestores<T>(xs: seq<T>, x: T)
    requires x !in xs
    ensures Toggle(Toggle(xs, x), x) == xs
  {
    var keep := (y: T) => y != x;
    FilterAppend(xs, [x], keep);
    FilterKeepsAll(xs, keep);
    assert Filter([x], keep) == [];
  }

  /** From any list, toggling twice gives back the same set of values (the order may change). */
  lemma ToggleTwiceSameValues<T>(xs: seq<T>, x: T)
    ensures forall y :: y in Toggle(Toggle(xs, x), x) ==> y in xs
    ensures forall y :: y in xs ==> y in Toggle(Toggle(xs, x), x)
  {
  }
}
