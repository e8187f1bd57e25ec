/**
 * `Array.prototype.sort` with a comparator, as the components call it: the
 * comparator is three-way (negative puts the first argument before the
 * second), and the sort is stable. The model is an insertion sort; what the
 * components rely on is that its result is a permutation of the input that
 * is ordered by the comparator.
 */
module Sorting {

  /**
   * A three-way comparator that orders consistently: swapping the arguments
   * flips the sign, and "not after" is transitive. `localeCompare`, a
   * numeric difference and their negations are all of this kind.
   */
  ghost predicate Consistent<T(!new)>(cmp: (T, T) -> int) {
    && (forall a, b :: cmp(a, b) < 0 <==> cmp(b, a) > 0)
    && (forall a, b, c :: cmp(a, b) <= 0 && cmp(b, c) <= 0 ==> cmp(a, c) <= 0)
  }

  /** No element is placed after one that the comparator puts before it. */
  ghost predicate SortedBy<T>(s: seq<T>, cmp: (T, T) -> int) {
    forall i, j :: 0 <= i < j < |s| ==> cmp(s[i], s[j]) <= 0
  }

  /** The comparator of the opposite direction (`-comparison`). */
  function Negated<T>(cmp: (T, T) -> int): (T, T) -> int {
    (a: T, b: T) => -cmp(a, b)
  }

  lemma NegatedConsistent<T(!new)>(cmp: (T, T) -> int)
    requires Consistent(cmp)
    ensures Consistent(Negated(cmp))
  {
    var n := Negated(cmp);
    forall a, b, c | n(a, b) <= 0 && n(b, c) <= 0
      ensures n(a, c) <= 0
    {
      assert cmp(b, a) <= 0 && cmp(c, b) <= 0;
    }
  }

  /** Puts `x` before the first element that it does not follow. */
  function Insert<T>(x: T, s: seq<T>, cmp: (T, T) -> int): (r: seq<T>)
    ensures multiset(r) == multiset(s) + multiset{x}
    ensures |r| == |s| + 1
  {
    if s == [] then [x]
    else if cmp(x, s[0]) <= 0 then [x] + s
    else
      assert s == [s[0]] + s[1..];
      [s[0]] + Insert(x, s[1..], cmp)
  }

  /** A stable sort by `cmp`: each element goes before the equal elements that followed it. */
  function Sort<T>(s: seq<T>, cmp: (T, T) -> int): (r: seq<T>)
    ensures multiset(r) == multiset(s)
    ensures |r| == |s|
  {
    if s == [] then []
    else
      assert s == [s[0]] + s[1..];
      Insert(s[0], Sort(s[1..], cmp), cmp)
  }

  /** Putting in front of a sorted sequence an element that precedes all of it keeps it sorted. */
  lemma ConsSorted<T>(h: T, t: seq<T>, cmp: (T, T) -> int)
    requires SortedBy(t, cmp)
    requires forall k :: 0 <= k < |t| ==> cmp(h, t[k]) <= 0
    ensures SortedBy([h] + t, cmp)
  {
    var r := [h] + t;
    forall i, j | 0 <= i < j < |r|
      ensures cmp(r[i], r[j]) <= 0
    {
      assert r[j] == t[j - 1];
      if i > 0 {
        assert r[i] == t[i - 1];
      }
    }
  }

  /** Every element of `Insert(x, s, cmp)` is `x` or an element of `s`. */
  lemma InsertMembers<T>(x: T, s: seq<T>, cmp: (T, T) -> int, k: int)
    requires 0 <= k < |Insert(x, s, cmp)|
    ensures Insert(x, s, cmp)[k] == x || Insert(x, s, cmp)[k] in s
  {
    var r := Insert(x, s, cmp);
    assert r[k] in multiset(r);
  }

  lemma {:induction false} InsertSorted<T(!new)>(x: T, s: seq<T>, cmp: (T, T) -> int)
    requires Consistent(cmp) && SortedBy(s, cmp)
    ensures SortedBy(Insert(x, s, cmp), cmp)
  {
    if s == [] {
    } else if cmp(x, s[0]) <= 0 {
      forall k | 0 <= k < |s|
        ensures cmp(x, s[k]) <= 0
      {
        if k > 0 {
          assert cmp(s[0], s[k]) <= 0;
        }
      }
      ConsSorted(x, s, cmp);
    } else {
      var tail := Insert(x, s[1..], cmp);
      InsertSorted(x, s[1..], cmp);
      assert cmp(s[0], x) < 0;
      forall k | 0 <= k < |tail|
        ensures cmp(s[0], tail[k]) <= 0
      {
        InsertMembers(x, s[1..], cmp, k);
        if tail[k] != x {
          var m :| 0 <= m < |s[1..]| && s[1..][m] == tail[k];
          assert s[m + 1] == tail[k];
        }
      }
      ConsSorted(s[0], tail, cmp);
    }
  }

  /** The sort's result is ordered by any consistent comparator. */
  lemma {:induction false} SortSorted<T(!new)>(s: seq<T>, cmp: (T, T) -> int)
    requires Consistent(cmp)
    ensures SortedBy(Sort(s, cmp), cmp)
  {
    if s != [] {
      SortSorted(s[1..], cmp);
      InsertSorted(s[0], Sort(s[1..], cmp), cmp);
    }
  }

  /** Elements of a permutation of `s` are elements of `s`. */
  lemma SortMembers<T>(s: seq<T>, cmp: (T, T) -> int)
    ensures forall x :: x in Sort(s, cmp) <==> x in s
  {
    var r := Sort(s, cmp);
    forall x
      ensures x in r <==> x in s
    {
      assert x in r <==> x in multiset(r);
      assert x in s <==> x in multiset(s);
    }
  }

  // ---------------------------------------------------------------------------
  // The default order of `Array.prototype.sort()` on strings

  /** Lexicographic order on code points; `sort()` without a comparator uses this order on UTF-16 code units. */
  function LexCompare(a: string, b: string): (c: int)
    ensures -1 <= c <= 1
  {
    if a == [] && b == [] then 0
    else if a == [] then -1
    else if b == [] then 1
    else if a[0] < b[0] then -1
    else if a[0] > b[0] then 1
    else LexCompare(a[1..], b[1..])
  }

  lemma {:induction false} LexCompareZero(a: string, b: string)
    ensures LexCompare(a, b) == 0 <==> a == b
  {
    if a != [] && b != [] && a[0] == b[0] {
      LexCompareZero(a[1..], b[1..]);
      assert a == [a[0]] + a[1..] && b == [b[0]] + b[1..];
    }
  }

  lemma {:induction false} LexCompareFlip(a: string, b: string)
    ensures LexCompare(a, b) < 0 <==> LexCompare(b, a) > 0
  {
    if a != [] && b != [] && a[0] == b[0] {
      LexCompareFlip(a[1..], b[1..]);
    }
  }

  lemma {:induction false} LexCompareTransitive(a: string, b: string, c: string)
    requires LexCompare(a, b) <= 0 && LexCompare(b, c) <= 0
    ensures LexCompare(a, c) <= 0
  {
    if a != [] && b != [] && c != [] && a[0] == b[0] && b[0] == c[0] {
      LexCompareTransitive(a[1..], b[1..], c[1..]);
    }
  }

  lemma LexCompareConsistent()
    ensures Consistent(LexCompare)
  {
    forall a, b
      ensures LexCompare(a, b) < 0 <==> LexCompare(b, a) > 0
    {
      LexCompareFlip(a, b);
    }
    forall a, b, c | LexCompare(a, b) <= 0 && LexCompare(b, c) <= 0
      ensures LexCompare(a, c) <= 0
    {
      LexCompareTransitive(a, b, c);
    }
  }
}
