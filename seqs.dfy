/**
 * Order-preserving filter, map and count over sequences: Python list
 * comprehensions and `for ... append` loops, JavaScript `filter`/`map`.
 */
module Seqs {

  function Filter<T>(s: seq<T>, p: T -> bool): (r: seq<T>)
    ensures |r| <= |s|
    ensures forall x :: x in r ==> x in s && p(x)
  {
    if s == [] then [] else (if p(s[0]) then [s[0]] else []) + Filter(s[1..], p)
  }

  /** Everything kept satisfies `p`, and everything of `s` that satisfies `p` is kept. */
  lemma {:induction false} FilterMembership<T>(s: seq<T>, p: T -> bool, x: T)
    ensures x in Filter(s, p) <==> x in s && p(x)
  {
    if s != [] {
      FilterMembership(s[1..], p, x);
      assert x in s <==> x == s[0] || x in s[1..];
    }
  }

  /** Filtering distributes over concatenation, so relative order is preserved. */
  lemma {:induction false} FilterAppend<T>(a: seq<T>, b: seq<T>, p: T -> bool)
    ensures Filter(a + b, p) == Filter(a, p) + Filter(b, p)
  {
    if a == [] {
      assert a + b == b;
    } else {
      assert (a + b)[1..] == a[1..] + b;
      FilterAppend(a[1..], b, p);
    }
  }

  /** Filtering keeps everything exactly when everything satisfies `p`. */
  lemma {:induction false} FilterAll<T>(s: seq<T>, p: T -> bool)
    requires forall x :: x in s ==> p(x)
    ensures Filter(s, p) == s
  {
    if s != [] {
      FilterAll(s[1..], p);
    }
  }

  /** A one-element sequence keeps its element exactly when it satisfies `p`. */
  lemma FilterSingle<T>(x: T, p: T -> bool)
    ensures Filter([x], p) == if p(x) then [x] else []
  {
    assert [x][1..] == [];
  }

  /** Two of three parts commute when one of them is empty. */
  lemma SwapEmpty<T>(a: seq<T>, b: seq<T>, c: seq<T>)
    requires b == [] || c == []
    ensures a + b + c == (a + c) + b
  {
  }

  /**
   * Inserting `x` at position `k` filters to the old filter followed by `x`'s
   * own, provided nothing after position `k` is kept when `x` is.
   */
  lemma FilterInsert<T>(s: seq<T>, x: T, k: nat, p: T -> bool)
    requires k <= |s|
    requires p(x) ==> Filter(s[k..], p) == []
    ensures Filter(s[..k] + [x] + s[k..], p) == Filter(s, p) + Filter([x], p)
  {
    var a, b := s[..k], s[k..];
    assert s == a + b;
    FilterAppend(a, b, p);
    FilterAppend(a + [x], b, p);
    FilterAppend(a, [x], p);
    FilterSingle(x, p);
    SwapEmpty(Filter(a, p), Filter([x], p), Filter(b, p));
  }

  /** Filtering keeps nothing when nothing satisfies `p`. */
  lemma {:induction false} FilterNone<T>(s: seq<T>, p: T -> bool)
    requires forall x :: x in s ==> !p(x)
    ensures Filter(s, p) == []
  {
    if s != [] {
      FilterNone(s[1..], p);
    }
  }

  function MapSeq<T, U>(s: seq<T>, f: T -> U): (r: seq<U>)
    ensures |r| == |s|
    ensures forall i :: 0 <= i < |s| ==> r[i] == f(s[i])
  {
    seq(|s|, i requires 0 <= i < |s| => f(s[i]))
  }

  /** Number of elements satisfying `p`. */
  function Count<T>(s: seq<T>, p: T -> bool): (n: nat)
    ensures n <= |s|
  {
    if s == [] then 0 else (if p(s[0]) then 1 else 0) + Count(s[1..], p)
  }

  /** Counting is the length of the filtered sequence. */
  lemma {:induction false} CountIsFilterLength<T>(s: seq<T>, p: T -> bool)
    ensures Count(s, p) == |Filter(s, p)|
  {
    if s != [] {
      CountIsFilterLength(s[1..], p);
    }
  }

  /** Appending one element adds one to the count exactly when it satisfies `p`. */
  lemma CountSnoc<T>(s: seq<T>, x: T, p: T -> bool)
    ensures Count(s + [x], p) == Count(s, p) + (if p(x) then 1 else 0)
  {
    FilterAppend(s, [x], p);
    CountIsFilterLength(s + [x], p);
    CountIsFilterLength(s, p);
    CountIsFilterLength([x], p);
  }

  /** Mapping distributes over concatenation. */
  lemma MapSeqAppend<T, U>(a: seq<T>, b: seq<T>, f: T -> U)
    ensures MapSeq(a + b, f) == MapSeq(a, f) + MapSeq(b, f)
  {
    var l := MapSeq(a + b, f);
    var r := MapSeq(a, f) + MapSeq(b, f);
    forall i | 0 <= i < |l| ensures l[i] == r[i] {
      if i < |a| {
        assert (a + b)[i] == a[i];
      } else {
        assert (a + b)[i] == b[i - |a|];
      }
    }
  }

  /**
   * One more step of a `for x in s: if p(x): out.append(f(x))` loop: the
   * result grows by `f(x)` exactly when `x` passes the test.
   */
  lemma MapFilterSnoc<T, U>(s: seq<T>, x: T, p: T -> bool, f: T -> U)
    ensures MapSeq(Filter(s + [x], p), f) == MapSeq(Filter(s, p), f) + (if p(x) then [f(x)] else [])
  {
    FilterAppend(s, [x], p);
    assert Filter([x], p) == (if p(x) then [x] else []) by {
      assert [x][1..] == [];
    }
    MapSeqAppend(Filter(s, p), Filter([x], p), f);
  }

  /** What a filter-then-map result holds: the images of the elements that pass. */
  lemma MapFilterMembership<T, U>(s: seq<T>, p: T -> bool, f: T -> U, y: U)
    ensures y in MapSeq(Filter(s, p), f) <==> exists x :: x in s && p(x) && y == f(x)
  {
    var kept := Filter(s, p);
    if y in MapSeq(kept, f) {
      var i :| 0 <= i < |kept| && MapSeq(kept, f)[i] == y;
      FilterMembership(s, p, kept[i]);
    }
    if exists x :: x in s && p(x) && y == f(x) {
      var x :| x in s && p(x) && y == f(x);
      FilterMembership(s, p, x);
      var i :| 0 <= i < |kept| && kept[i] == x;
      assert MapSeq(kept, f)[i] == y;
    }
  }
}
