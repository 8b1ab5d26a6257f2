// vis/analyzers/indexers/interval.py: the vertical and horizontal interval indexers.
// music21's Interval(Note(lower), Note(upper)) is the parameter f; pandas Series are a
// pair of sequences (index, values); the multiprocessing run of the indexer function
// over each combination is not part of this model.
module IntervalIndexers {
  import opened Wrappers
  import opened PyStrings
  import opened PyValues
  import opened Music21

  // ---------------------------------------------------------------------------
  // key_to_tuple

  /** key_to_tuple(key): the two integers before and after the first comma. */
  function KeyToTuple(key: string): (r: Result<(int, int)>)
    ensures r.Success? ==> ParseInt(Split(key, ',')[0]) == Some(r.value.0)
  {
    var post := Split(key, ',');
    match ParseInt(post[0])
    case None => Failure(ValueError)
    case Some(a) =>
      if |post| < 2 then Failure(IndexError)
      else
        match ParseInt(post[1])
        case None => Failure(ValueError)
        case Some(b) => Success((a, b))
  }

  /** The label of the part combination [l, r]: unicode(l) + ',' + unicode(r). */
  function PairLabel(l: int, r: int): string {
    IntToString(l) + "," + IntToString(r)
  }

  /** key_to_tuple(str(a) + ',' + str(b)) == (a, b). */
  lemma KeyToTupleRoundTrip(a: int, b: int)
    ensures KeyToTuple(PairLabel(a, b)) == Success((a, b))
  {
    var parts := [IntToString(a), IntToString(b)];
    IntToStringPlain(a);
    IntToStringPlain(b);
    assert Join(parts[1..], ',') == IntToString(b);
    assert Join(parts, ',') == PairLabel(a, b);
    SplitJoin(parts, ',');
    ParseIntToString(a);
    ParseIntToString(b);
  }

  /** Different part combinations have different labels. */
  lemma PairLabelsDiffer(a: int, b: int, c: int, d: int)
    requires (a, b) != (c, d)
    ensures PairLabel(a, b) != PairLabel(c, d)
  {
    KeyToTupleRoundTrip(a, b);
    KeyToTupleRoundTrip(c, d);
  }

  // ---------------------------------------------------------------------------
  // interval_to_int

  /** A cell of an interval index: a string, a float, or numpy.nan. */
  datatype Cell = Text(s: string) | Number(x: real) | NaN

  /** interval_to_int(interv, nan_is): 'Rest', nan_is, or the signed value of the last character. */
  function IntervalToInt(interv: Cell, nanIs: Value): (r: Result<Value>)
    ensures interv.Text? && EndsWith(interv.s, "t") ==> r == Success(VStr(Rest))
    ensures interv.NaN? ==> r == Success(nanIs)
    ensures interv.Number? ==> r == Failure(AttributeError("startswith"))
    ensures interv.Text? && r.Success? && r.value.VInt? ==> -9 <= r.value.i <= 9
  {
    match interv
    case NaN => Success(nanIs)
    case Number(_) => Failure(AttributeError("startswith"))
    case Text(s) =>
      if EndsWith(s, "t") then Success(VStr(Rest))
      else
        var last := LastChars(s, 1);
        LastDigit(last);
        match ParseInt(last)
        case None => Failure(ValueError)
        case Some(d) => Success(VInt(if StartsWith(s, "-") then d * -1 else d))
  }

  /** int() of at most one character is a single digit when it succeeds. */
  lemma LastDigit(t: string)
    requires |t| <= 1
    ensures ParseInt(t).Some? ==> |t| == 1 && IsDigit(t[0]) && ParseInt(t) == Some(DigitValue(t[0]))
  {
    if |t| == 1 && IsDigit(t[0]) {
      assert t[..0] == [];
      ParseDigits(t);
    } else if |t| == 1 {
      if IsSpace(t[0]) {
        assert t[1..] == [];
        assert LStrip(t) == [];
        StripBothEnds(t);
      } else {
        StripNoSpace(t);
      }
    } else {
      assert Strip(t) == t;
    }
  }

  /** Only the last character counts: a final digit d gives d, or -d after a leading '-'. */
  lemma IntervalToIntLastDigit(s: string, nanIs: Value)
    requires |s| > 0 && IsDigit(s[|s| - 1])
    ensures IntervalToInt(Text(s), nanIs) == Success(VInt(if StartsWith(s, "-") then -(DigitValue(s[|s| - 1]) as int) else DigitValue(s[|s| - 1]) as int))
  {
    var last := LastChars(s, 1);
    assert last == [s[|s| - 1]];
    assert !EndsWith(s, "t");
    LastDigit(last);
  }

  /** A string whose last character is not a digit (and is not 't') raises ValueError. */
  lemma IntervalToIntNoDigit(s: string, nanIs: Value)
    requires |s| > 0 && !IsDigit(s[|s| - 1]) && s[|s| - 1] != 't'
    ensures IntervalToInt(Text(s), nanIs) == Failure(ValueError)
  {
    var last := LastChars(s, 1);
    assert last == [s[|s| - 1]];
    LastDigit(last);
  }

  /** interval_to_int('P12') is 2: a compound interval loses its tens. */
  lemma CompoundIntervalToInt(s: string, nanIs: Value)
    requires s == "P12"
    ensures IntervalToInt(Text(s), nanIs) == Success(VInt(2))
  {
    assert s[..1] == "P" && s[2] == '2';
    IntervalToIntLastDigit(s, nanIs);
  }

  // ---------------------------------------------------------------------------
  // real_indexer

  /** A character of an interval quality: u'AMPmd'. */
  predicate IsQuality(c: char) { c == 'A' || c == 'M' || c == 'P' || c == 'm' || c == 'd' }

  /** Every quality character of an interval name, in order: the A, M, P, m and d characters. */
  function QualityLetters(name: string): (q: string)
    ensures forall i :: 0 <= i < |q| ==> IsQuality(q[i])
    ensures |q| <= |name|
  {
    if name == [] then ""
    else QualityLetters(name[..|name| - 1]) + (if IsQuality(name[|name| - 1]) then [name[|name| - 1]] else "")
  }

  /** The quality of a name is its own quality: extracting again changes nothing. */
  lemma {:induction false} QualityLettersIdempotent(name: string)
    ensures QualityLetters(QualityLetters(name)) == QualityLetters(name)
  {
    if name != [] {
      var p := name[..|name| - 1];
      QualityLettersIdempotent(p);
      QualityLettersAppend(QualityLetters(p), if IsQuality(name[|name| - 1]) then [name[|name| - 1]] else "");
    }
  }

  /** Quality letters of a concatenation are the concatenation of the quality letters. */
  lemma {:induction false} QualityLettersAppend(a: string, b: string)
    ensures QualityLetters(a + b) == QualityLetters(a) + QualityLetters(b)
    decreases |b|
  {
    if b == [] {
      assert a + b == a;
    } else {
      var b' := b[..|b| - 1];
      assert (a + b)[..|a + b| - 1] == a + b';
      QualityLettersAppend(a, b');
    }
  }

  /** A string with no quality character contributes none. */
  lemma {:induction false} QualityLettersNone(s: string)
    requires forall i :: 0 <= i < |s| ==> !IsQuality(s[i])
    ensures QualityLetters(s) == ""
  {
    if s != [] {
      QualityLettersNone(s[..|s| - 1]);
    }
  }

  /** The interval number real_indexer writes: 8 stays 8 in simple mode, else the simple or compound size. */
  function SizeOf(iv: Interval, simple: bool): nat {
    if simple && iv.genericUndirected != 8 then iv.simpleUndirected else iv.genericUndirected
  }

  /**
   * real_indexer(simultaneity, simple, quality, False): None unless there are two parts,
   * 'Rest' when music21 cannot read a pitch, else a '-' for a descending interval and,
   * with quality, the quality characters and the size.
   */
  function RealIndexer(simultaneity: seq<string>, simple: bool, quality: bool, f: IntervalOf): (r: Option<string>)
    ensures r.None? <==> |simultaneity| != 2
  {
    if |simultaneity| != 2 then None
    else
      var upper, lower := simultaneity[0], simultaneity[1];
      match f(lower, upper)
      case None => Some(Rest)
      case Some(iv) =>
        var post := if iv.direction < 0 then "-" else "";
        if quality then
          var size := if simple && 8 == iv.genericUndirected then "8" else IntToString(SizeOf(iv, simple));
          Some(post + QualityLetters(iv.name) + size)
        else Some(post)
  }

  /** Without quality (and without tones) the label is the direction alone: '' or '-'. */
  lemma RealIndexerNoQuality(upper: string, lower: string, simple: bool, f: IntervalOf)
    requires f(lower, upper).Some?
    ensures RealIndexer([upper, lower], simple, false, f) == Some(if f(lower, upper).value.direction < 0 then "-" else "")
  {
  }

  /**
   * A label with quality names the interval: it starts with '-' exactly for a descending
   * interval, its quality characters are those of the interval's name, and it ends in the
   * decimal size.
   */
  lemma RealIndexerQuality(upper: string, lower: string, simple: bool, f: IntervalOf)
    requires f(lower, upper).Some?
    ensures var text := RealIndexer([upper, lower], simple, true, f).value;
      var iv := f(lower, upper).value;
      var size := NatToString(SizeOf(iv, simple));
      && (|text| > 0 && text[0] == '-' <==> iv.direction < 0)
      && QualityLetters(text) == QualityLetters(iv.name)
      && |size| <= |text| && text[|text| - |size|..] == size
      && ParseInt(text[|text| - |size|..]) == Some(SizeOf(iv, simple) as int)
  {
    var iv := f(lower, upper).value;
    var size := NatToString(SizeOf(iv, simple));
    if simple && 8 == iv.genericUndirected {
      assert NatToString(8) == "8";
    }
    assert RealIndexer([upper, lower], simple, true, f) == Some((if iv.direction < 0 then "-" else "") + QualityLetters(iv.name) + size);
    LabelParts(if iv.direction < 0 then "-" else "", iv.name, size);
  }

  /** A sign, the quality of a name and a number: each part can be read back from the whole. */
  lemma LabelParts(sign: string, name: string, size: string)
    requires sign == "" || sign == "-"
    requires |size| > 0 && AllDigits(size)
    ensures var text := sign + QualityLetters(name) + size;
      && (|text| > 0 && text[0] == '-' <==> sign == "-")
      && QualityLetters(text) == QualityLetters(name)
      && |size| <= |text| && text[|text| - |size|..] == size
      && ParseInt(size) == Some(DigitsValue(size) as int)
  {
    var letters := QualityLetters(name);
    var text := sign + letters + size;
    assert text[|text| - |size|..] == size;
    LabelQuality(sign, name, size);
    if sign == "" {
      assert text == letters + size;
      if |letters| > 0 {
        assert text[0] == letters[0];
      } else {
        assert text[0] == size[0];
      }
    }
    ParseDigits(size);
  }

  lemma LabelQuality(sign: string, name: string, size: string)
    requires sign == "" || sign == "-"
    requires AllDigits(size)
    ensures QualityLetters(sign + QualityLetters(name) + size) == QualityLetters(name)
  {
    var letters := QualityLetters(name);
    SignHasNoQuality(sign, letters);
    QualityLettersIdempotent(name);
    DigitsHaveNoQuality(sign + letters, size);
  }

  lemma SignHasNoQuality(sign: string, t: string)
    requires sign == "" || sign == "-"
    ensures QualityLetters(sign + t) == QualityLetters(t)
  {
    QualityLettersAppend(sign, t);
    QualityLettersNone(sign);
  }

  lemma DigitsHaveNoQuality(t: string, size: string)
    requires AllDigits(size)
    ensures QualityLetters(t + size) == QualityLetters(t)
  {
    QualityLettersAppend(t, size);
    QualityLettersNone(size);
  }

  /**
   * interval_to_int reads back what real_indexer writes for a simple interval with
   * quality: the size, negated for a descending interval.
   */
  lemma LabelToInt(upper: string, lower: string, f: IntervalOf, nanIs: Value)
    requires f(lower, upper).Some? && SizeOf(f(lower, upper).value, true) < 10
    ensures var iv := f(lower, upper).value;
      IntervalToInt(Text(RealIndexer([upper, lower], true, true, f).value), nanIs)
        == Success(VInt(if iv.direction < 0 then -(SizeOf(iv, true) as int) else SizeOf(iv, true) as int))
  {
    var iv := f(lower, upper).value;
    var text := RealIndexer([upper, lower], true, true, f).value;
    SimpleQualityLabel(upper, lower, f);
    SignedDigit(text, SizeOf(iv, true), iv.direction < 0, nanIs);
  }

  /** A simple label with quality and a one-digit size ends in that digit, after a '-' exactly when descending. */
  lemma SimpleQualityLabel(upper: string, lower: string, f: IntervalOf)
    requires f(lower, upper).Some? && SizeOf(f(lower, upper).value, true) < 10
    ensures var text := RealIndexer([upper, lower], true, true, f).value;
      var iv := f(lower, upper).value;
      && |text| > 0 && text[|text| - 1..] == [DigitChar(SizeOf(iv, true))]
      && (text[0] == '-' <==> iv.direction < 0)
  {
    var n := SizeOf(f(lower, upper).value, true);
    RealIndexerQuality(upper, lower, true, f);
    assert NatToString(n) == [DigitChar(n)];
  }

  /** A label that ends in the digit for n reads as n, negated when it starts with '-'. */
  lemma SignedDigit(text: string, n: nat, negative: bool, nanIs: Value)
    requires n < 10 && |text| > 0 && text[|text| - 1..] == [DigitChar(n)]
    requires text[0] == '-' <==> negative
    ensures IntervalToInt(Text(text), nanIs) == Success(VInt(if negative then -(n as int) else n as int))
  {
    var d := text[|text| - 1];
    assert d == DigitChar(n);
    IntervalToIntLastDigit(text, nanIs);
    assert StartsWith(text, "-") <==> text[0] == '-' by {
      assert text[..1] == [text[0]];
    }
  }

  // ---------------------------------------------------------------------------
  // The indexer functions and IntervalIndexer's settings

  /** The six module-level functions handed to the multiprocessor. */
  datatype IndexerFunc = TonesSimple | TonesComp | QualSimple | QualComp | NqSimple | NqComp

  /** The (simple, quality, byTones) arguments each of them passes to real_indexer. */
  function Flags(func: IndexerFunc): (bool, bool, bool) {
    match func
    case TonesSimple => (true, false, true)
    case TonesComp => (false, false, true)
    case QualSimple => (true, true, false)
    case QualComp => (false, true, false)
    case NqSimple => (true, false, false)
    case NqComp => (false, false, false)
  }

  type IndexerSettings = map<string, Value>

  const SimpleOrCompound := "simple or compound"
  const Quality := "quality"
  const ByTones := "byTones"

  /** A setting's value, else IntervalIndexer.default_settings's. */
  function Resolved(raw: IndexerSettings, key: string, default: Value): Value {
    if key in raw then raw[key] else default
  }

  /** The indexer function __init__ chooses: byTones first, then quality, then simple or compound. */
  function ChooseIndexer(settings: IndexerSettings): IndexerFunc
    requires SimpleOrCompound in settings && Quality in settings && ByTones in settings
  {
    var simple := VStr("simple") == settings[SimpleOrCompound];
    if Truthy(settings[ByTones]) then (if simple then TonesSimple else TonesComp)
    else if Truthy(settings[Quality]) then (if simple then QualSimple else QualComp)
    else if simple then NqSimple else NqComp
  }

  /**
   * The chosen function computes what the settings ask for: simple exactly for 'simple',
   * tones exactly when byTones is set, and quality only when it is set and byTones is not.
   */
  lemma ChooseIndexerFlags(settings: IndexerSettings)
    requires SimpleOrCompound in settings && Quality in settings && ByTones in settings
    ensures Flags(ChooseIndexer(settings)).0 <==> settings[SimpleOrCompound] == VStr("simple")
    ensures Flags(ChooseIndexer(settings)).1 <==> Truthy(settings[Quality]) && !Truthy(settings[ByTones])
    ensures Flags(ChooseIndexer(settings)).2 <==> Truthy(settings[ByTones])
  {
  }

  /** With no settings at all, intervals are compound, without quality, not by tones. */
  lemma DefaultIndexer(raw: IndexerSettings)
    requires SimpleOrCompound !in raw && Quality !in raw && ByTones !in raw
    ensures ChooseIndexer(map[SimpleOrCompound := Resolved(raw, SimpleOrCompound, VStr("compound")),
                              Quality := Resolved(raw, Quality, VBool(false)),
                              ByTones := Resolved(raw, ByTones, VBool(false))]) == NqComp
  {
  }

  /** A pandas Series: the offsets and the values at them. */
  datatype Series = Series(index: seq<real>, values: seq<string>)

  // ---------------------------------------------------------------------------
  // IntervalIndexer.run: every two-part combination

  /** The combinations [left, right] for one left part, right ascending. */
  function Row(left: nat, n: nat): seq<(nat, nat)>
    requires left < n
  {
    seq(n - left - 1, k requires 0 <= k < n - left - 1 => (left, left + 1 + k))
  }

  /** The combinations with a left part below k, in the order the nested loops make them. */
  function PairsUpTo(k: nat, n: nat): seq<(nat, nat)>
    requires k <= n
  {
    if k == 0 then [] else PairsUpTo(k - 1, n) + Row(k - 1, n)
  }

  /** Every combination of n parts. */
  function AllPairs(n: nat): seq<(nat, nat)> {
    PairsUpTo(n, n)
  }

  /** The "l,r" label of every combination. */
  function Labels(pairs: seq<(nat, nat)>): (labels: seq<string>)
    ensures |labels| == |pairs|
    ensures forall i :: 0 <= i < |pairs| ==> labels[i] == PairLabel(pairs[i].0, pairs[i].1)
  {
    seq(|pairs|, i requires 0 <= i < |pairs| => PairLabel(pairs[i].0, pairs[i].1))
  }

  /** The lexicographic order on combinations. */
  predicate Before(p: (nat, nat), q: (nat, nat)) {
    p.0 < q.0 || (p.0 == q.0 && p.1 < q.1)
  }

  /** The combinations with a left part below k are exactly the pairs l < r < n with l < k. */
  lemma {:induction false} PairsUpToMembers(k: nat, n: nat)
    requires k <= n
    ensures forall p: (nat, nat) :: p in PairsUpTo(k, n) <==> p.0 < k && p.0 < p.1 < n
  {
    if k > 0 {
      PairsUpToMembers(k - 1, n);
      var row := Row(k - 1, n);
      forall p: (nat, nat) | p.0 == k - 1 && p.0 < p.1 < n
        ensures p in row
      {
        assert row[p.1 - k] == p;
      }
    }
  }

  /** The combinations come in strictly ascending lexicographic order, so none repeats. */
  lemma {:induction false} PairsUpToAscending(k: nat, n: nat)
    requires k <= n
    ensures forall i, j :: 0 <= i < j < |PairsUpTo(k, n)| ==> Before(PairsUpTo(k, n)[i], PairsUpTo(k, n)[j])
  {
    if k > 0 {
      PairsUpToAscending(k - 1, n);
      PairsUpToMembers(k - 1, n);
      var p, row := PairsUpTo(k - 1, n), Row(k - 1, n);
      var s := p + row;
      forall i, j | 0 <= i < j < |s|
        ensures Before(s[i], s[j])
      {
        if j < |p| {
        } else if i < |p| {
          assert s[i] in p;
          assert s[j] == row[j - |p|];
        } else {
          assert s[i] == row[i - |p|] && s[j] == row[j - |p|];
        }
      }
    }
  }

  /** Twice the number of combinations with a left part below k. */
  lemma {:induction false} PairsUpToCount(k: nat, n: nat)
    requires k <= n
    ensures 2 * |PairsUpTo(k, n)| == k * (2 * n - k - 1)
  {
    if k > 0 {
      PairsUpToCount(k - 1, n);
      assert 2 * |PairsUpTo(k, n)| == (k - 1) * (2 * n - k) + 2 * (n - k);
    }
  }

  /**
   * run() makes exactly the pairs l < r of parts, in lexicographic order, n(n-1)/2 of them,
   * and no two share a label.
   */
  lemma AllPairsSpec(n: nat)
    ensures forall p: (nat, nat) :: p in AllPairs(n) <==> p.0 < p.1 < n
    ensures forall i, j :: 0 <= i < j < |AllPairs(n)| ==> Before(AllPairs(n)[i], AllPairs(n)[j])
    ensures 2 * |AllPairs(n)| == n * (n - 1)
    ensures forall i, j :: 0 <= i < j < |AllPairs(n)| ==> Labels(AllPairs(n))[i] != Labels(AllPairs(n))[j]
  {
    PairsUpToMembers(n, n);
    PairsUpToAscending(n, n);
    PairsUpToCount(n, n);
    var ps := AllPairs(n);
    forall i, j | 0 <= i < j < |ps|
      ensures Labels(ps)[i] != Labels(ps)[j]
    {
      PairLabelsDiffer(ps[i].0, ps[i].1, ps[j].0, ps[j].1);
    }
  }

  /** Labelling one more combination appends its label. */
  lemma LabelsSnoc(pairs: seq<(nat, nat)>, p: (nat, nat))
    ensures Labels(pairs + [p]) == Labels(pairs) + [PairLabel(p.0, p.1)]
  {
    assert (pairs + [p])[|pairs|] == p;
  }

  /** The combinations [left, r] for left < r < right, r ascending. */
  function RowTo(left: nat, right: nat): seq<(nat, nat)>
    requires left < right
  {
    seq(right - left - 1, k requires 0 <= k < right - left - 1 => (left, left + 1 + k))
  }

  lemma RowToSnoc(left: nat, right: nat)
    requires left < right
    ensures RowTo(left, right + 1) == RowTo(left, right) + [(left, right)]
  {
  }

  lemma AppendStep(before: seq<(nat, nat)>, x: seq<(nat, nat)>, p: (nat, nat))
    ensures before + x + [p] == before + (x + [p])
  {
  }

  /** The inner loop of run(): the combinations [left, right] for every right part after left. */
  method AddRow(left: nat, n: nat, before: seq<(nat, nat)>, beforeLabels: seq<string>)
    returns (combinations: seq<(nat, nat)>, labels: seq<string>)
    requires left < n && beforeLabels == Labels(before)
    ensures combinations == before + Row(left, n)
    ensures labels == Labels(combinations)
  {
    combinations, labels := before, beforeLabels;
    var right := left + 1;
    assert RowTo(left, right) == [];
    while right < n
      invariant left + 1 <= right <= n
      invariant combinations == before + RowTo(left, right)
      invariant labels == Labels(combinations)
    {
      RowToSnoc(left, right);
      AppendStep(before, RowTo(left, right), (left, right));
      LabelsSnoc(combinations, (left, right));
      combinations := combinations + [(left, right)];
      labels := labels + [PairLabel(left, right)];
      right := right + 1;
    }
    assert RowTo(left, n) == Row(left, n);
  }

  /** True when every part's index and values have the same length. */
  predicate WellFormed(score: seq<Series>) {
    forall x :: 0 <= x < |score| ==> |score[x].index| == |score[x].values|
  }

  /** Python's s[:-1]: everything but the last item. */
  function DropLast<T>(s: seq<T>): seq<T> {
    if s == [] then [] else s[..|s| - 1]
  }

  /** Python's s[1:]: everything but the first item. */
  function DropFirst<T>(s: seq<T>): seq<T> {
    if s == [] then [] else s[1..]
  }

  /** pandas.Series(x.values[:-1], index=x.index.tolist()[1:]): each value moved to the next offset. */
  function Delayed(x: Series): Series {
    Series(DropFirst(x.index), DropLast(x.values))
  }

  /** x.iloc[1:]: the part without its first event. */
  function Later(x: Series): Series {
    Series(DropFirst(x.index), DropFirst(x.values))
  }

  class IntervalIndexer {
    var score: seq<Series>
    var settings: IndexerSettings
    var indexerFunc: IndexerFunc

    /** IntervalIndexer(score, settings): each setting or its default, then the indexer function. */
    constructor (score: seq<Series>, settings: Option<IndexerSettings>)
      ensures this.score == score
      ensures this.settings.Keys == {SimpleOrCompound, Quality, ByTones}
      ensures var raw := if settings.None? then map[] else settings.value;
        && this.settings[SimpleOrCompound] == Resolved(raw, SimpleOrCompound, VStr("compound"))
        && this.settings[Quality] == Resolved(raw, Quality, VBool(false))
        && this.settings[ByTones] == Resolved(raw, ByTones, VBool(false))
      ensures indexerFunc == ChooseIndexer(this.settings)
    {
      var raw := if settings.None? then map[] else settings.value;
      var s: IndexerSettings := map[];
      if SimpleOrCompound in raw {
        s := s[SimpleOrCompound := raw[SimpleOrCompound]];
      } else {
        s := s[SimpleOrCompound := VStr("compound")];
      }
      if Quality in raw {
        s := s[Quality := raw[Quality]];
      } else {
        s := s[Quality := VBool(false)];
      }
      if ByTones in raw {
        s := s[ByTones := raw[ByTones]];
      } else {
        s := s[ByTones := VBool(false)];
      }
      this.score := score;
      this.settings := s;
      indexerFunc := ChooseIndexer(s);
    }

    /** run(): the part combinations and their labels, before the multiprocessing step. */
    method Run() returns (combinations: seq<(nat, nat)>, labels: seq<string>)
      ensures combinations == AllPairs(|score|)
      ensures labels == Labels(combinations)
    {
      var n := |score|;
      combinations := [];
      labels := [];
      var left := 0;
      while left < n
        invariant 0 <= left <= n
        invariant combinations == PairsUpTo(left, n)
        invariant labels == Labels(combinations)
      {
        combinations, labels := AddRow(left, n, combinations, labels);
        left := left + 1;
      }
    }

    /**
     * HorizontalIntervalIndexer.run(): the parts are labelled '0'..'k-1'; each part x is
     * replaced by its values delayed by one event, its events after the first are appended
     * as part k+x, and x is paired with k+x, the later part as the upper voice.
     */
    method HorizontalRun() returns (combinations: seq<(nat, nat)>, labels: seq<string>)
      modifies this
      ensures score == seq(|old(score)|, x requires 0 <= x < |old(score)| => Delayed(old(score)[x]))
                     + seq(|old(score)|, x requires 0 <= x < |old(score)| => Later(old(score)[x]))
      ensures combinations == seq(|old(score)|, x requires 0 <= x < |old(score)| => (|old(score)| + x, x))
      ensures labels == seq(|old(score)|, x requires 0 <= x < |old(score)| => NatToString(x))
      ensures settings == old(settings) && indexerFunc == old(indexerFunc)
    {
      var parts := score;
      var k := |parts|;
      labels := seq(k, x requires 0 <= x < k => NatToString(x));
      var newParts := seq(k, x requires 0 <= x < k => Later(parts[x]));
      score := seq(k, x requires 0 <= x < k => Delayed(parts[x]));
      var newZero := |score|;
      score := score + newParts;
      combinations := seq(newZero, x requires 0 <= x < newZero => (newZero + x, x));
    }
  }

  /**
   * After the shift, combination x compares, at the offset of each note after the first,
   * that note (upper) with the note before it (lower): both copies have one event fewer
   * than the part and share the later offsets.
   */
  lemma HorizontalPairing(parts: seq<Series>, x: nat, j: nat)
    requires WellFormed(parts) && x < |parts| && j + 1 < |parts[x].values|
    ensures var shifted := seq(|parts|, y requires 0 <= y < |parts| => Delayed(parts[y]))
                         + seq(|parts|, y requires 0 <= y < |parts| => Later(parts[y]));
      var upper, lower := shifted[|parts| + x], shifted[x];
      && |upper.values| == |lower.values| == |upper.index| == |lower.index| == |parts[x].values| - 1
      && upper.index == lower.index
      && upper.values[j] == parts[x].values[j + 1] && lower.values[j] == parts[x].values[j]
      && lower.index[j] == parts[x].index[j + 1]
  {
  }

  // ---------------------------------------------------------------------------
  // VariableHorizontalIntervalIndexer.__init__

  const NoDistanceMessage := "VariableHorizontalIntervalIndexer requires an intervalDistance setting."
  const SmallDistanceMessage := "VariableHorizontalIntervalIndexer requires an intervalDistance setting no smaller than 0.001."

  /** The intervalDistance check: a RuntimeError when it is missing or below 0.001. */
  function IntervalDistance(settings: Option<IndexerSettings>): (r: Result<Value>)
    ensures r.Success? <==> settings.Some? && "intervalDistance" in settings.value && !LessThanNumber(settings.value["intervalDistance"], 0.001)
    ensures r.Failure? ==> r.error.RuntimeError?
    ensures r.Success? ==> r.value == settings.value["intervalDistance"]
  {
    if settings.None? || "intervalDistance" !in settings.value then Failure(RuntimeError(NoDistanceMessage))
    else if LessThanNumber(settings.value["intervalDistance"], 0.001) then Failure(RuntimeError(SmallDistanceMessage))
    else Success(settings.value["intervalDistance"])
  }

  /** An accepted numeric distance is at least 0.001; None and False are never accepted. */
  lemma AcceptedDistance(settings: Option<IndexerSettings>)
    requires IntervalDistance(settings).Success?
    ensures IntervalDistance(settings).value.VReal? ==> IntervalDistance(settings).value.r >= 0.001
    ensures IntervalDistance(settings).value.VInt? ==> IntervalDistance(settings).value.i >= 1
    ensures IntervalDistance(settings).value != VNone && IntervalDistance(settings).value != VBool(false)
  {
  }

  /** A string, a list or True is never below 0.001 in Python 2, so the check lets it through. */
  lemma NonNumericDistance(settings: IndexerSettings)
    requires "intervalDistance" in settings
    requires settings["intervalDistance"].VStr? || settings["intervalDistance"].VList? || settings["intervalDistance"] == VBool(true)
    ensures IntervalDistance(Some(settings)) == Success(settings["intervalDistance"])
  {
  }

  /** VariableHorizontalIntervalIndexer(score, settings): an IntervalIndexer that also keeps intervalDistance. */
  method NewVariableHorizontal(score: seq<Series>, settings: Option<IndexerSettings>) returns (r: Result<IntervalIndexer>)
    ensures r.Failure? <==> IntervalDistance(settings).Failure?
    ensures r.Failure? ==> r == Failure(IntervalDistance(settings).error)
    ensures r.Success? ==> fresh(r.value) && r.value.score == score
    ensures r.Success? ==> r.value.settings.Keys == {SimpleOrCompound, Quality, ByTones, "intervalDistance"}
    ensures r.Success? ==> r.value.settings["intervalDistance"] == IntervalDistance(settings).value
    ensures r.Success? ==> var raw := if settings.None? then map[] else settings.value;
      && r.value.settings[SimpleOrCompound] == Resolved(raw, SimpleOrCompound, VStr("compound"))
      && r.value.settings[Quality] == Resolved(raw, Quality, VBool(false))
      && r.value.settings[ByTones] == Resolved(raw, ByTones, VBool(false))
    ensures r.Success? ==> r.value.indexerFunc == ChooseIndexer(r.value.settings - {"intervalDistance"})
  {
    var x := new IntervalIndexer(score, settings);
    var d := IntervalDistance(settings);
    if d.Failure? {
      return Failure(d.error);
    }
    ghost var inherited := x.settings;
    x.settings := x.settings["intervalDistance" := d.value];
    assert x.settings - {"intervalDistance"} == inherited;
    r := Success(x);
  }
}
