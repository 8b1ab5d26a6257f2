// The bookkeeping both statistics experiments share: the occurrence dictionary their
// perform() methods fill, and the top-X / threshold filter and final sort that turn it
// into the list of keys they report.
module Statistics {
  import opened Wrappers
  import opened PyStrings
  import opened PyValues
  import opened Sorting

  // ---------------------------------------------------------------------------
  // The occurrence dictionary

  /** dict.get(x, 0) on the occurrence dictionary. */
  function CountOf(m: map<string, nat>, x: string): nat {
    if x in m then m[x] else 0
  }

  /** _add_interval / _add_ngram: one more occurrence of x. */
  function Bump(m: map<string, nat>, x: string): map<string, nat> {
    m[x := CountOf(m, x) + 1]
  }

  /** The dictionary after adding every label in turn, starting from {}. */
  function Tally(labels: seq<string>): map<string, nat> {
    if labels == [] then map[] else Bump(Tally(labels[..|labels| - 1]), labels[|labels| - 1])
  }

  /** The labels in the order they were first added: the dictionary's keys in insertion order. */
  function FirstSeen(labels: seq<string>): seq<string> {
    if labels == [] then []
    else
      var p := FirstSeen(labels[..|labels| - 1]);
      if labels[|labels| - 1] in labels[..|labels| - 1] then p else p + [labels[|labels| - 1]]
  }

  predicate Distinct<T(==)>(s: seq<T>) {
    forall i, j :: 0 <= i < j < |s| ==> s[i] != s[j]
  }

  /** order lists the keys of m, each once. */
  predicate Counters(m: map<string, nat>, order: seq<string>) {
    Distinct(order) && (forall x <- order :: x in m) && (forall x <- m.Keys :: x in order)
  }

  /** Bumping a key adds exactly one to it and leaves every other count as it was. */
  lemma BumpChanges(m: map<string, nat>, x: string)
    ensures CountOf(Bump(m, x), x) == CountOf(m, x) + 1
    ensures forall y :: y != x ==> CountOf(Bump(m, x), y) == CountOf(m, y)
    ensures Bump(m, x).Keys == m.Keys + {x}
  {
  }

  /** The dictionary counts each label as often as it was added, and holds no other key. */
  lemma {:induction false} TallyCounts(labels: seq<string>)
    ensures forall x :: x in Tally(labels) <==> x in labels
    ensures forall x :: CountOf(Tally(labels), x) == multiset(labels)[x]
  {
    if labels != [] {
      var p, y := labels[..|labels| - 1], labels[|labels| - 1];
      TallyCounts(p);
      assert labels == p + [y];
      BumpChanges(Tally(p), y);
    }
  }

  /** FirstSeen lists every label once. */
  lemma {:induction false} FirstSeenCounters(labels: seq<string>)
    ensures Counters(Tally(labels), FirstSeen(labels))
  {
    TallyCounts(labels);
    if labels != [] {
      var p, y := labels[..|labels| - 1], labels[|labels| - 1];
      FirstSeenCounters(p);
      TallyCounts(p);
      assert labels == p + [y];
    }
  }

  /** Adding one more label is one more _add_interval call on the dictionary. */
  lemma TallyAppend(labels: seq<string>, x: string)
    ensures Tally(labels + [x]) == Bump(Tally(labels), x)
    ensures FirstSeen(labels + [x]) == if x in Tally(labels) then FirstSeen(labels) else FirstSeen(labels) + [x]
  {
    assert (labels + [x])[..|labels|] == labels;
    TallyCounts(labels);
  }

  // ---------------------------------------------------------------------------
  // Filtering and sorting the keys

  /** sorted(keys, key=lambda x: counts[x]): keys compared by their counts. */
  function ByCount(m: map<string, nat>): Cmp<string> {
    (x: string, y: string) => Some(Compare(CountOf(m, x), CountOf(m, y)))
  }

  /** The keys whose count reaches t, in their order (the new_keys loop). */
  function AtLeast(keys: seq<string>, m: map<string, nat>, t: int): seq<string> {
    if keys == [] then []
    else
      var p := AtLeast(keys[..|keys| - 1], m, t);
      if CountOf(m, keys[|keys| - 1]) >= t then p + [keys[|keys| - 1]] else p
  }

  /**
   * Steps (2.1) to (4) of perform(): with a topX or a threshold, the keys by descending
   * count, cut at int(topX), then, unless the last one already reaches int(threshold),
   * only those that do; without either, all the keys.
   */
  function TopKeys(m: map<string, nat>, order: seq<string>, topX: Value, threshold: Value): Result<seq<string>> {
    if topX == VNone && threshold == VNone then Success(order)
    else
      match CutTop(ByDescendingCount(m, order), topX)
      case Failure(e) => Failure(e)
      case Success(cut) => if threshold == VNone then Success(cut) else Threshold(m, cut, PyInt(threshold))
  }

  /** sorted(counts, key=lambda x: counts[x], reverse=True). */
  function ByDescendingCount(m: map<string, nat>, order: seq<string>): seq<string> {
    match Sort(order, Flip(ByCount(m)))
    case Some(desc) => desc
    case None => order // ByCount always answers, see Descending
  }

  /** keys[:int(topX)] when topX is set. */
  function CutTop(keys: seq<string>, topX: Value): Result<seq<string>> {
    if topX == VNone then Success(keys)
    else match PyInt(topX)
      case Failure(e) => Failure(e)
      case Success(k) => Success(SliceTo(keys, k))
  }

  /** Step (4) with thresh = int(threshold): unless the last key already reaches it, keep those that do. */
  function Threshold(m: map<string, nat>, keys: seq<string>, t: Result<int>): Result<seq<string>> {
    match t
    case Failure(e) => Failure(e)
    case Success(t) =>
      if keys == [] then Failure(IndexError) // self._keys[-1] on an empty list
      else if CountOf(m, keys[|keys| - 1]) < t then Success(AtLeast(keys, m, t))
      else Success(keys)
  }

  /** The comparison of the final sort: by count or by the name comparison, reversed unless ascending. */
  function FinalCmp(m: map<string, nat>, sortOrder: Value, sortBy: Value, nameCmp: Cmp<string>): Cmp<string> {
    var cmp := if sortBy == VStr("frequency") then ByCount(m) else nameCmp;
    if sortOrder == VStr("ascending") then cmp else Flip(cmp)
  }

  /** Steps (2.1) to (4), then the final sort; a comparison that raises makes it fail. */
  function Selection(m: map<string, nat>, order: seq<string>, topX: Value, threshold: Value,
                     sortOrder: Value, sortBy: Value, nameCmp: Cmp<string>): Result<seq<string>> {
    SortKeys(TopKeys(m, order, topX, threshold), FinalCmp(m, sortOrder, sortBy, nameCmp))
  }

  /** The final sorted() on the filtered keys, when the filter did not raise. */
  function SortKeys(keys: Result<seq<string>>, cmp: Cmp<string>): Result<seq<string>> {
    match keys
    case Failure(e) => Failure(e)
    case Success(keys) =>
      match Sort(keys, cmp)
      case None => Failure(ValueError)
      case Some(sorted) => Success(sorted)
  }

  /** The filter and sort of both perform() methods; sorted() is Sort. */
  method FilterAndSort(m: map<string, nat>, order: seq<string>, topX: Value, threshold: Value,
                       sortOrder: Value, sortBy: Value, nameCmp: Cmp<string>)
    returns (r: Result<seq<string>>)
    ensures r == Selection(m, order, topX, threshold, sortOrder, sortBy, nameCmp)
  {
    var keys := FilterKeys(m, order, topX, threshold);
    r := SortKeys(keys, FinalCmp(m, sortOrder, sortBy, nameCmp));
  }

  /** Steps (2.1) to (4): the descending sort, the topX cut and the threshold. */
  method FilterKeys(m: map<string, nat>, order: seq<string>, topX: Value, threshold: Value)
    returns (r: Result<seq<string>>)
    ensures r == TopKeys(m, order, topX, threshold)
  {
    if topX == VNone && threshold == VNone {
      return Success(order);
    }
    var keys := ByDescendingCount(m, order);
    if topX != VNone {
      var k := PyInt(topX);
      if k.Failure? {
        return Failure(k.error);
      }
      keys := SliceTo(keys, k.value);
    }
    assert CutTop(ByDescendingCount(m, order), topX) == Success(keys);
    if threshold == VNone {
      return Success(keys);
    }
    r := ApplyThreshold(m, keys, threshold);
  }

  /** Step (4): thresh = int(threshold), then the filter unless the last key already reaches it. */
  method ApplyThreshold(m: map<string, nat>, keys: seq<string>, threshold: Value)
    returns (r: Result<seq<string>>)
    ensures r == Threshold(m, keys, PyInt(threshold))
  {
    var t := PyInt(threshold);
    if t.Failure? {
      return Failure(t.error);
    }
    if keys == [] {
      return Failure(IndexError);
    }
    if CountOf(m, keys[|keys| - 1]) < t.value {
      var newKeys := KeepAtLeast(keys, m, t.value);
      return Success(newKeys);
    }
    return Success(keys);
  }

  /** The new_keys loop: the keys whose count reaches t, in order. */
  method KeepAtLeast(keys: seq<string>, m: map<string, nat>, t: int) returns (newKeys: seq<string>)
    ensures newKeys == AtLeast(keys, m, t)
  {
    newKeys := [];
    var i := 0;
    while i < |keys|
      invariant 0 <= i <= |keys|
      invariant newKeys == AtLeast(keys[..i], m, t)
    {
      assert keys[..i + 1][..i] == keys[..i];
      if CountOf(m, keys[i]) >= t {
        newKeys := newKeys + [keys[i]];
      }
      i := i + 1;
    }
    assert keys[..i] == keys;
  }

  // ---------------------------------------------------------------------------
  // What the filter and the sort promise

  lemma ByCountConsistent(m: map<string, nat>, u: seq<string>)
    ensures Consistent(ByCount(m), u) && Consistent(Flip(ByCount(m)), u)
  {
  }

  /** Along keys sorted by descending count, counts never go up. */
  lemma {:induction false} DescendingCounts(s: seq<string>, m: map<string, nat>, i: int, j: int)
    requires Sorted(s, Flip(ByCount(m))) && 0 <= i <= j < |s|
    ensures CountOf(m, s[i]) >= CountOf(m, s[j])
    decreases j - i
  {
    if i < j {
      assert Le(Flip(ByCount(m)), s[i], s[i + 1]);
      DescendingCounts(s, m, i + 1, j);
    }
  }

  lemma {:induction false} AtLeastSpec(keys: seq<string>, m: map<string, nat>, t: int)
    ensures forall x :: x in AtLeast(keys, m, t) <==> x in keys && CountOf(m, x) >= t
    ensures |AtLeast(keys, m, t)| <= |keys|
    ensures multiset(AtLeast(keys, m, t)) <= multiset(keys)
  {
    if keys != [] {
      var p, y := keys[..|keys| - 1], keys[|keys| - 1];
      AtLeastSpec(p, m, t);
      assert keys == p + [y];
    }
  }

  /** The sorted list the cut starts from: every key, by descending count. */
  lemma Descending(m: map<string, nat>, order: seq<string>)
    ensures Sorted(ByDescendingCount(m, order), Flip(ByCount(m)))
    ensures multiset(ByDescendingCount(m, order)) == multiset(order)
  {
    ByCountConsistent(m, order);
    SortSorted(order, Flip(ByCount(m)), order);
  }

  /** The cut is a prefix, no longer than int(topX). */
  lemma CutTopPrefix(keys: seq<string>, topX: Value)
    requires CutTop(keys, topX).Success?
    ensures keys[..|CutTop(keys, topX).value|] == CutTop(keys, topX).value
    ensures topX != VNone ==> PyInt(topX).Success?
    ensures topX != VNone && PyInt(topX).value >= 0 ==> |CutTop(keys, topX).value| <= PyInt(topX).value
  {
  }

  /** The threshold step keeps exactly the keys that reach it, or all of them when the last one does. */
  lemma ThresholdSpec(m: map<string, nat>, keys: seq<string>, t: int)
    requires Threshold(m, keys, Success(t)).Success?
    ensures multiset(Threshold(m, keys, Success(t)).value) <= multiset(keys)
    ensures |Threshold(m, keys, Success(t)).value| <= |keys|
    ensures forall x :: x in keys && x !in Threshold(m, keys, Success(t)).value ==> CountOf(m, x) < t
    ensures Sorted(keys, Flip(ByCount(m))) ==>
      forall x :: x in Threshold(m, keys, Success(t)).value ==> CountOf(m, x) >= t
  {
    AtLeastSpec(keys, m, t);
    if Sorted(keys, Flip(ByCount(m))) && CountOf(m, keys[|keys| - 1]) >= t {
      forall x | x in keys ensures CountOf(m, x) >= t {
        var i :| 0 <= i < |keys| && keys[i] == x;
        DescendingCounts(keys, m, i, |keys| - 1);
      }
    }
  }

  /** A prefix of a list sorted by descending count is sorted too. */
  lemma PrefixSorted(s: seq<string>, m: map<string, nat>, k: nat)
    requires Sorted(s, Flip(ByCount(m))) && k <= |s|
    ensures Sorted(s[..k], Flip(ByCount(m)))
  {
    forall i | 0 <= i < k - 1 ensures Le(Flip(ByCount(m)), s[..k][i], s[..k][i + 1]) {
      assert s[..k][i] == s[i] && s[..k][i + 1] == s[i + 1];
    }
  }

  /** The filter keeps only keys there are, at most once each as often as they are listed. */
  lemma TopKeysSubset(m: map<string, nat>, order: seq<string>, topX: Value, threshold: Value)
    requires TopKeys(m, order, topX, threshold).Success?
    ensures multiset(TopKeys(m, order, topX, threshold).value) <= multiset(order)
  {
    if topX != VNone || threshold != VNone {
      var desc := ByDescendingCount(m, order);
      Descending(m, order);
      var cut := CutTop(desc, topX).value;
      CutTopPrefix(desc, topX);
      PrefixMultiset(desc, |cut|);
      var r := TopKeys(m, order, topX, threshold).value;
      assert multiset(r) <= multiset(cut) by {
        if threshold != VNone {
          ThresholdSpec(m, cut, PyInt(threshold).value);
        }
      }
    }
  }

  lemma PrefixMultiset(s: seq<string>, k: nat)
    requires k <= |s|
    ensures multiset(s[..k]) <= multiset(s)
  {
    assert s == s[..k] + s[k..];
  }

  /** With topX set, no more than int(topX) keys are reported. */
  lemma TopKeysAtMostTopX(m: map<string, nat>, order: seq<string>, topX: Value, threshold: Value)
    requires topX != VNone && TopKeys(m, order, topX, threshold).Success?
    ensures PyInt(topX).Success?
    ensures PyInt(topX).value >= 0 ==> |TopKeys(m, order, topX, threshold).value| <= PyInt(topX).value
  {
    var desc := ByDescendingCount(m, order);
    var cut := CutTop(desc, topX).value;
    CutTopPrefix(desc, topX);
    if threshold != VNone {
      ThresholdSpec(m, cut, PyInt(threshold).value);
    }
  }

  /** With a threshold set, every key reported occurs at least int(threshold) times. */
  lemma TopKeysReachThreshold(m: map<string, nat>, order: seq<string>, topX: Value, threshold: Value)
    requires threshold != VNone && TopKeys(m, order, topX, threshold).Success?
    ensures PyInt(threshold).Success?
    ensures forall x :: x in TopKeys(m, order, topX, threshold).value ==> CountOf(m, x) >= PyInt(threshold).value
  {
    var desc := ByDescendingCount(m, order);
    Descending(m, order);
    var cut := CutTop(desc, topX).value;
    CutTopPrefix(desc, topX);
    PrefixSorted(desc, m, |cut|);
    ThresholdSpec(m, cut, PyInt(threshold).value);
  }

  /** A key that is filtered out never occurs more often than a key that is kept. */
  lemma TopKeysMostFrequent(m: map<string, nat>, order: seq<string>, topX: Value, threshold: Value, x: string, y: string)
    requires topX != VNone || threshold != VNone
    requires TopKeys(m, order, topX, threshold).Success?
    requires x in TopKeys(m, order, topX, threshold).value
    requires y in order && y !in TopKeys(m, order, topX, threshold).value
    ensures CountOf(m, y) <= CountOf(m, x)
  {
    var desc := ByDescendingCount(m, order);
    Descending(m, order);
    var cut := CutTop(desc, topX).value;
    CutTopPrefix(desc, topX);
    PrefixSorted(desc, m, |cut|);
    var r := TopKeys(m, order, topX, threshold).value;
    assert x in cut by {
      if threshold != VNone {
        ThresholdSpec(m, cut, PyInt(threshold).value);
        assert x in multiset(cut);
      }
    }
    var i :| 0 <= i < |cut| && cut[i] == x;
    assert y in multiset(desc);
    var j :| 0 <= j < |desc| && desc[j] == y;
    if j < |cut| {
      // y was dropped by the threshold, which x passed
      assert y in cut;
      ThresholdSpec(m, cut, PyInt(threshold).value);
    } else {
      DescendingCounts(desc, m, i, j);
    }
  }

  /** Without topX or threshold, every key is reported. */
  lemma SelectionKeepsAll(m: map<string, nat>, order: seq<string>, sortOrder: Value, sortBy: Value, nameCmp: Cmp<string>)
    requires Selection(m, order, VNone, VNone, sortOrder, sortBy, nameCmp).Success?
    ensures multiset(Selection(m, order, VNone, VNone, sortOrder, sortBy, nameCmp).value) == multiset(order)
  {
  }

  /** The final sort reorders the filtered keys and puts them in order. */
  lemma SelectionSorted(m: map<string, nat>, order: seq<string>, topX: Value, threshold: Value,
                        sortOrder: Value, sortBy: Value, nameCmp: Cmp<string>)
    requires TopKeys(m, order, topX, threshold).Success?
    requires sortBy == VStr("frequency") || Consistent(nameCmp, order)
    ensures Selection(m, order, topX, threshold, sortOrder, sortBy, nameCmp).Success?
    ensures Sorted(Selection(m, order, topX, threshold, sortOrder, sortBy, nameCmp).value,
                   FinalCmp(m, sortOrder, sortBy, nameCmp))
    ensures multiset(Selection(m, order, topX, threshold, sortOrder, sortBy, nameCmp).value)
         == multiset(TopKeys(m, order, topX, threshold).value)
  {
    var keys := TopKeys(m, order, topX, threshold).value;
    var cmp := FinalCmp(m, sortOrder, sortBy, nameCmp);
    TopKeysSubset(m, order, topX, threshold);
    forall a | a in keys ensures a in order {
      assert a in multiset(keys);
    }
    assert Consistent(cmp, order) by {
      ByCountConsistent(m, order);
      if sortBy != VStr("frequency") {
        FlipConsistent(nameCmp, order);
      }
    }
    SortSorted(keys, cmp, order);
  }

  /** Swapping the arguments of a consistent comparison keeps it consistent. */
  lemma FlipConsistent(cmp: Cmp<string>, u: seq<string>)
    requires Consistent(cmp, u)
    ensures Consistent(Flip(cmp), u)
  {
    forall a, b | a in u && b in u
      ensures Flip(cmp)(a, b).Some? && (Flip(cmp)(a, b).value > 0 ==> Le(Flip(cmp), b, a))
    {
      assert Flip(cmp)(a, b) == cmp(b, a);
      assert Flip(cmp)(b, a) == cmp(a, b);
    }
  }

  /** A threshold with nothing left after the cut is the IndexError of self._keys[-1]. */
  lemma ThresholdOnNothing(m: map<string, nat>, topX: Value, threshold: Value)
    requires threshold != VNone && PyInt(threshold).Success?
    requires topX != VNone ==> PyInt(topX).Success?
    ensures TopKeys(m, [], topX, threshold) == Failure(IndexError)
  {
  }
}
