/**
 * PHP 8's `usort` is a stable sort: elements that its comparison function
 * calls equal keep their relative order. For a comparison that is a total
 * preorder the stable sorted permutation is unique, so any stable sort
 * describes `usort`; this module uses insertion sort, and proves that its
 * result is ordered, is a permutation of its input, and is stable.
 *
 * `le(a, b)` stands for "the comparison of `a` with `b` is <= 0".
 */
module Sorting {

  ghost predicate TotalPreorder<T(!new)>(le: (T, T) -> bool) {
    && (forall a, b :: le(a, b) || le(b, a))
    && (forall a, b, c :: le(a, b) && le(b, c) ==> le(a, c))
  }

  ghost predicate SortedBy<T>(s: seq<T>, le: (T, T) -> bool) {
    forall i, j :: 0 <= i < j < |s| ==> le(s[i], s[j])
  }

  /** Inserts `x` after every element that is not strictly greater than it. */
  function Insert<T>(x: T, s: seq<T>, le: (T, T) -> bool): (r: seq<T>)
    ensures |r| == |s| + 1
  {
    if s == [] then [x]
    else if !le(s[0], x) then [x] + s
    else [s[0]] + Insert(x, s[1..], le)
  }

  function InsertionSort<T>(s: seq<T>, le: (T, T) -> bool): (r: seq<T>)
    ensures |r| == |s|
  {
    if s == [] then [] else Insert(s[|s| - 1], InsertionSort(s[..|s| - 1], le), le)
  }

  lemma {:induction false} InsertPermutes<T>(x: T, s: seq<T>, le: (T, T) -> bool)
    ensures multiset(Insert(x, s, le)) == multiset(s) + multiset{x}
  {
    if s != [] && le(s[0], x) {
      InsertPermutes(x, s[1..], le);
      assert s == [s[0]] + s[1..];
    }
  }

  lemma {:induction false} InsertSorted<T(!new)>(x: T, s: seq<T>, le: (T, T) -> bool)
    requires TotalPreorder(le)
    requires SortedBy(s, le)
    ensures SortedBy(Insert(x, s, le), le)
  {
    if s != [] && le(s[0], x) {
      InsertSorted(x, s[1..], le);
      InsertPermutes(x, s[1..], le);
      var r := Insert(x, s[1..], le);
      forall y | y in r ensures le(s[0], y) {
        assert y in multiset(r);
        if y != x {
          assert y in multiset(s[1..]);
        }
      }
    }
  }

  /** The result of the sort is ordered by `le`. */
  lemma {:induction false} SortSorted<T(!new)>(s: seq<T>, le: (T, T) -> bool)
    requires TotalPreorder(le)
    ensures SortedBy(InsertionSort(s, le), le)
  {
    if s != [] {
      SortSorted(s[..|s| - 1], le);
      InsertSorted(s[|s| - 1], InsertionSort(s[..|s| - 1], le), le);
    }
  }

  /** The result of the sort is a permutation of its input. */
  lemma {:induction false} SortPermutes<T>(s: seq<T>, le: (T, T) -> bool)
    ensures multiset(InsertionSort(s, le)) == multiset(s)
  {
    if s != [] {
      SortPermutes(s[..|s| - 1], le);
      InsertPermutes(s[|s| - 1], InsertionSort(s[..|s| - 1], le), le);
      assert s == s[..|s| - 1] + [s[|s| - 1]];
    }
  }

  // ---------------------------------------------------------------------------
  // Stability
  // ---------------------------------------------------------------------------

  /** `a` and `b` compare equal. */
  ghost predicate Tied<T>(a: T, b: T, le: (T, T) -> bool) {
    le(a, b) && le(b, a)
  }

  /** The elements of `s` that compare equal to `e`, in order. */
  ghost function TiedWith<T>(s: seq<T>, e: T, le: (T, T) -> bool): seq<T> {
    if s == [] then []
    else (if Tied(s[0], e, le) then [s[0]] else []) + TiedWith(s[1..], e, le)
  }

  lemma {:induction false} TiedWithAppend<T>(a: seq<T>, b: seq<T>, e: T, le: (T, T) -> bool)
    ensures TiedWith(a + b, e, le) == TiedWith(a, e, le) + TiedWith(b, e, le)
  {
    if a == [] {
      assert a + b == b;
    } else {
      TiedWithAppend(a[1..], b, e, le);
      assert (a + b)[0] == a[0];
      assert (a + b)[1..] == a[1..] + b;
    }
  }

  lemma {:induction false} TiedWithNone<T>(s: seq<T>, e: T, le: (T, T) -> bool)
    requires forall y :: y in s ==> !Tied(y, e, le)
    ensures TiedWith(s, e, le) == []
  {
    if s != [] {
      TiedWithNone(s[1..], e, le);
    }
  }

  /** Nothing in a sorted sequence that starts above `x` is tied with something tied with `x`. */
  lemma NoneTiedAbove<T(!new)>(x: T, s: seq<T>, e: T, le: (T, T) -> bool)
    requires TotalPreorder(le)
    requires SortedBy(s, le)
    requires s != [] && !le(s[0], x) && Tied(x, e, le)
    ensures TiedWith(s, e, le) == []
  {
    forall y | y in s ensures !Tied(y, e, le) {
      var i :| 0 <= i < |s| && s[i] == y;
      if i > 0 { assert le(s[0], s[i]); }
    }
    TiedWithNone(s, e, le);
  }

  lemma InsertStableFront<T(!new)>(x: T, s: seq<T>, e: T, le: (T, T) -> bool)
    requires TotalPreorder(le)
    requires SortedBy(s, le)
    requires s != [] && !le(s[0], x)
    ensures TiedWith(Insert(x, s, le), e, le)
         == TiedWith(s, e, le) + (if Tied(x, e, le) then [x] else [])
  {
    if Tied(x, e, le) {
      NoneTiedAbove(x, s, e, le);
    }
    assert Insert(x, s, le) == [x] + s;
    assert ([x] + s)[1..] == s;
  }

  lemma {:induction false} InsertStable<T(!new)>(x: T, s: seq<T>, e: T, le: (T, T) -> bool)
    requires TotalPreorder(le)
    requires SortedBy(s, le)
    ensures TiedWith(Insert(x, s, le), e, le)
         == TiedWith(s, e, le) + (if Tied(x, e, le) then [x] else [])
  {
    if s == [] {
    } else if !le(s[0], x) {
      InsertStableFront(x, s, e, le);
    } else {
      var r := Insert(x, s[1..], le);
      assert SortedBy(s[1..], le);
      InsertStable(x, s[1..], e, le);
      assert Insert(x, s, le) == [s[0]] + r;
      assert ([s[0]] + r)[1..] == r;
    }
  }

  /**
   * Stability: for every element `e`, the elements tied with `e` appear in
   * the result in the order they had in the input.
   */
  lemma {:induction false} SortStable<T(!new)>(s: seq<T>, e: T, le: (T, T) -> bool)
    requires TotalPreorder(le)
    ensures TiedWith(InsertionSort(s, le), e, le) == TiedWith(s, e, le)
  {
    if s != [] {
      var init, last := s[..|s| - 1], s[|s| - 1];
      SortStable(init, e, le);
      SortSorted(init, le);
      InsertStable(last, InsertionSort(init, le), e, le);
      TiedWithAppend(init, [last], e, le);
      assert s == init + [last];
    }
  }

  // ---------------------------------------------------------------------------
  // The order of PHP's `<=>` on two non-numeric strings
  // ---------------------------------------------------------------------------

  /** Byte-wise lexicographic order: `a <=> b` is at most 0. */
  predicate StrLe(a: string, b: string) {
    if a == [] then true
    else if b == [] then false
    else if a[0] != b[0] then a[0] < b[0]
    else StrLe(a[1..], b[1..])
  }

  lemma {:induction false} StrLeTotal(a: string, b: string)
    ensures StrLe(a, b) || StrLe(b, a)
  {
    if a != [] && b != [] && a[0] == b[0] {
      StrLeTotal(a[1..], b[1..]);
    }
  }

  lemma {:induction false} StrLeTransitive(a: string, b: string, c: string)
    requires StrLe(a, b) && StrLe(b, c)
    ensures StrLe(a, c)
  {
    if a != [] && b != [] && c != [] && a[0] == b[0] && b[0] == c[0] {
      StrLeTransitive(a[1..], b[1..], c[1..]);
    }
  }

  lemma {:induction false} StrLeAntisymmetric(a: string, b: string)
    requires StrLe(a, b) && StrLe(b, a)
    ensures a == b
  {
    if a != [] && b != [] {
      StrLeAntisymmetric(a[1..], b[1..]);
      assert a == [a[0]] + a[1..];
      assert b == [b[0]] + b[1..];
    }
  }
}
