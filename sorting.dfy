// Python's sorted() with a comparison function: a stable sort. A comparison that raises
// is None, and then so is the sort. The arrangement is computed by insertion; for a
// comparison that answers consistently on the keys, a stable sort has exactly one
// possible result, so which comparisons Python's own algorithm makes does not matter.
module Sorting {
  import opened Wrappers

  /** A cmp function in Python 2 style: negative, zero or positive; None when it raises. */
  type Cmp<!T> = (T, T) -> Option<int>

  /** The sign of a - b, as Python 2's cmp() of two numbers. */
  function Compare(a: int, b: int): (c: int)
    ensures c == -1 || c == 0 || c == 1
    ensures c < 0 <==> a < b
    ensures c > 0 <==> a > b
  {
    if a < b then -1 else if a > b then 1 else 0
  }

  /** sorted(..., reverse=True): the comparison with its arguments swapped, which keeps the sort stable. */
  function Flip<T>(cmp: Cmp<T>): Cmp<T> {
    (a: T, b: T) => cmp(b, a)
  }

  /** The comparison says a sorts no later than b. */
  predicate Le<T>(cmp: Cmp<T>, a: T, b: T) {
    cmp(a, b).Some? && cmp(a, b).value <= 0
  }

  /** Every neighbouring pair is in order. */
  predicate Sorted<T>(t: seq<T>, cmp: Cmp<T>) {
    forall i :: 0 <= i < |t| - 1 ==> Le(cmp, t[i], t[i + 1])
  }

  /**
   * cmp answers every comparison among the elements of u, and a > b implies b <= a. These
   * two facts are all the insertion sort needs for a sorted permutation; transitivity is not
   * asked for.
   */
  ghost predicate Consistent<T>(cmp: Cmp<T>, u: seq<T>) {
    forall a, b :: a in u && b in u ==>
      cmp(a, b).Some? && (cmp(a, b).value > 0 ==> Le(cmp, b, a))
  }

  /** Puts x before the first element of s that x does not exceed. */
  function Insert<T>(x: T, s: seq<T>, cmp: Cmp<T>): (r: Option<seq<T>>)
    ensures r.Some? ==> multiset(r.value) == multiset(s) + multiset{x}
  {
    if s == [] then Some([x])
    else match cmp(x, s[0])
      case None => None
      case Some(c) =>
        if c <= 0 then Some([x] + s)
        else match Insert(x, s[1..], cmp)
          case None => None
          case Some(t) =>
            assert s == [s[0]] + s[1..];
            Some([s[0]] + t)
  }

  /** sorted(s, cmp): a stable sort of s, or None when a comparison raises. */
  function Sort<T>(s: seq<T>, cmp: Cmp<T>): (r: Option<seq<T>>)
    ensures r.Some? ==> multiset(r.value) == multiset(s)
  {
    if s == [] then Some([])
    else match Sort(s[1..], cmp)
      case None => None
      case Some(t) =>
        assert s == [s[0]] + s[1..];
        Insert(s[0], t, cmp)
  }

  lemma {:induction false} InsertSorted<T>(x: T, s: seq<T>, cmp: Cmp<T>, u: seq<T>)
    requires Consistent(cmp, u) && x in u && forall a :: a in s ==> a in u
    requires Sorted(s, cmp)
    ensures Insert(x, s, cmp).Some?
    ensures Sorted(Insert(x, s, cmp).value, cmp)
    ensures s != [] ==> Insert(x, s, cmp).value[0] in {x, s[0]}
  {
    if s != [] {
      assert s[0] in s;
      var c := cmp(x, s[0]).value;
      if c > 0 {
        forall a | a in s[1..] ensures a in u {
          assert a in s;
        }
        InsertSorted(x, s[1..], cmp, u);
      }
    }
  }

  /** With a consistent comparison the sort succeeds and its result is in order. */
  lemma {:induction false} SortSorted<T>(s: seq<T>, cmp: Cmp<T>, u: seq<T>)
    requires Consistent(cmp, u) && forall a :: a in s ==> a in u
    ensures Sort(s, cmp).Some?
    ensures Sorted(Sort(s, cmp).value, cmp)
  {
    if s != [] {
      forall a | a in s[1..] ensures a in u {
        assert a in s;
      }
      SortSorted(s[1..], cmp, u);
      var t := Sort(s[1..], cmp).value;
      forall a | a in t ensures a in u {
        assert a in multiset(t);
        assert a in s[1..];
      }
      assert s[0] in s;
      InsertSorted(s[0], t, cmp, u);
    }
  }

  /** A sort never adds, drops or duplicates an element. */
  lemma SortPermutes<T>(s: seq<T>, cmp: Cmp<T>)
    requires Sort(s, cmp).Some?
    ensures multiset(Sort(s, cmp).value) == multiset(s)
    ensures |Sort(s, cmp).value| == |s|
  {
    assert |multiset(Sort(s, cmp).value)| == |multiset(s)|;
  }
}
