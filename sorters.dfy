// The two comparison functions the statistics experiments sort by name with:
// IntervalsStatistics.interval_sorter and IntervalNGramStatistics.ngram_sorter.
module Sorters {
  import opened Wrappers
  import opened PyStrings
  import opened Sorting

  /** An interval label with every '+' and '-' removed: the direction is not compared. */
  function RemoveSigns(s: string): (r: string)
    ensures |r| <= |s|
  {
    RemoveChar(RemoveChar(s, '+'), '-')
  }

  /** Python's s[1:]. */
  function Tail(s: string): string {
    if s == [] then [] else s[1..]
  }

  /** The tie-break on the quality letter, in the order its branches are tried. */
  function QualityCmp(l: char, r: char): int {
    if l == 'd' then -1
    else if r == 'd' then 1
    else if l == 'A' then 1
    else if r == 'A' then -1
    else if l == 'm' then -1
    else if r == 'm' then 1
    else 0
  }

  /**
   * interval_sorter(left, right): -1, 0 or 1, or None where Python raises (an IndexError
   * on an empty label, a ValueError when what follows the first character is not an int).
   */
  function IntervalSorter(left: string, right: string): Option<int>
  {
    CompareUnsigned(RemoveSigns(left), RemoveSigns(right))
  }

  /** interval_sorter once the signs are gone: bare sizes are given the quality 'P'. */
  function CompareUnsigned(l0: string, r0: string): Option<int>
  {
    if l0 == [] then None
    else if IsDigit(l0[0]) && r0 == [] then None
    else if IsDigit(l0[0]) && IsDigit(r0[0]) then CompareQualified("P" + l0, "P" + r0)
    else CompareQualified(l0, r0)
  }

  /** interval_sorter's comparisons: equal text, then the size after the first character, then the quality. */
  function CompareQualified(l: string, r: string): Option<int>
    requires l != []
  {
    if l == r then Some(0)
    else if r == [] then None // int('') raises
    else CompareSizes(ParseInt(Tail(l)), ParseInt(Tail(r)), l[0], r[0])
  }

  /** The sizes int() read after the quality letters, then the qualities; None when int() failed. */
  function CompareSizes(x: Option<int>, y: Option<int>, ql: char, qr: char): Option<int> {
    match (x, y)
    case (Some(a), Some(b)) => Some(if a < b then -1 else if a > b then 1 else QualityCmp(ql, qr))
    case _ => None
  }

  // ---------------------------------------------------------------------------
  // The order interval_sorter is meant to implement, on interval names.

  /** An interval name as music21 spells it: a quality letter and a size, or a bare size. */
  datatype IntervalName = Named(quality: char, size: nat) | Number(size: nat)

  predicate IsQuality(c: char) { c == 'd' || c == 'm' || c == 'P' || c == 'M' || c == 'A' }

  predicate ValidName(n: IntervalName) { n.Named? ==> IsQuality(n.quality) }

  /** The text of an interval name: "M3", "P12", "5". */
  function Text(n: IntervalName): string {
    match n
    case Named(q, k) => [q] + NatToString(k)
    case Number(k) => NatToString(k)
  }

  /** Quality from smallest to largest: diminished, minor, perfect or major, augmented. */
  function Rank(n: IntervalName): nat {
    if n.Number? then 2
    else if n.quality == 'd' then 0
    else if n.quality == 'm' then 1
    else if n.quality == 'A' then 3
    else 2
  }

  /** Generic size first, quality second. */
  function NameCompare(a: IntervalName, b: IntervalName): int {
    if a.size != b.size then Compare(a.size, b.size) else Compare(Rank(a), Rank(b))
  }

  /** t is a label spelling n, possibly with direction signs. */
  predicate Spells(t: string, n: IntervalName) {
    NoSpace(t) && RemoveSigns(t) == Text(n)
  }

  lemma {:induction false} RemoveCharAbsent(s: string, c: char)
    requires c !in s
    ensures RemoveChar(s, c) == s
  {
    if s != [] {
      assert s[0] != c;
      assert c !in s[1..];
      RemoveCharAbsent(s[1..], c);
    }
  }

  lemma RemoveSignsUnsigned(s: string)
    ensures '+' !in RemoveSigns(s) && '-' !in RemoveSigns(s)
  {
    RemoveCharSpec(s, '+');
    RemoveCharSpec(RemoveChar(s, '+'), '-');
  }

  lemma RemoveSignsIdempotent(s: string)
    ensures RemoveSigns(RemoveSigns(s)) == RemoveSigns(s)
  {
    RemoveSignsUnsigned(s);
    var r := RemoveSigns(s);
    RemoveCharAbsent(r, '+');
    RemoveCharAbsent(r, '-');
  }

  /** Direction signs never affect the comparison. */
  lemma IntervalSorterIgnoresSigns(left: string, right: string)
    ensures IntervalSorter(left, right) == IntervalSorter(RemoveSigns(left), RemoveSigns(right))
  {
    RemoveSignsIdempotent(left);
    RemoveSignsIdempotent(right);
  }

  /** A label equals itself exactly when something is left once its signs are removed. */
  lemma IntervalSorterSelf(s: string)
    ensures IntervalSorter(s, s) == Some(0) <==> RemoveSigns(s) != ""
    ensures IntervalSorter(s, s) == None <==> RemoveSigns(s) == ""
  {
  }

  lemma DigitsUnsigned(s: string)
    requires AllDigits(s)
    ensures '+' !in s && '-' !in s && NoSpace(s)
  {
  }

  /** A name's text carries no direction sign and no whitespace. */
  lemma TextUnsigned(n: IntervalName)
    requires ValidName(n)
    ensures '+' !in Text(n) && '-' !in Text(n) && NoSpace(Text(n))
  {
    var ds := NatToString(n.size);
    DigitsUnsigned(ds);
    if n.Named? {
      assert Text(n) == [n.quality] + ds;
    }
  }

  /** Removing signs leaves a name's text as it is. */
  lemma TextSigns(n: IntervalName)
    requires ValidName(n)
    ensures RemoveSigns(Text(n)) == Text(n)
  {
    TextUnsigned(n);
    RemoveCharAbsent(Text(n), '+');
    RemoveCharAbsent(Text(n), '-');
  }

  /** A name's text starts with its quality letter (or a digit), and int() reads its size from the rest. */
  lemma TextTail(n: IntervalName)
    requires ValidName(n)
    ensures n.Named? ==> Text(n)[0] == n.quality && !IsDigit(Text(n)[0])
    ensures n.Named? ==> Tail(Text(n)) == NatToString(n.size)
    ensures n.Number? ==> IsDigit(Text(n)[0]) && Tail("P" + Text(n)) == NatToString(n.size)
    ensures ParseInt(NatToString(n.size)) == Some(n.size as int)
  {
    var ds := NatToString(n.size);
    if n.Named? {
      assert Text(n) == [n.quality] + ds;
      assert Tail(Text(n)) == ds;
    } else {
      assert Tail("P" + Text(n)) == ds;
    }
    ParseDigits(ds);
  }

  lemma TextInjective(a: IntervalName, b: IntervalName)
    requires a.Named? == b.Named?
    ensures Text(a) == Text(b) <==> a == b
  {
    if Text(a) == Text(b) {
      if a.Named? {
        assert Tail(Text(a)) == NatToString(a.size);
        assert Tail(Text(b)) == NatToString(b.size);
        assert DigitsValue(NatToString(a.size)) == a.size;
      } else {
        assert DigitsValue(NatToString(a.size)) == a.size;
      }
    }
  }

  lemma QualityCmpRank(a: IntervalName, b: IntervalName)
    requires a.Named? && b.Named? && IsQuality(a.quality) && IsQuality(b.quality)
    requires a.quality != b.quality
    ensures QualityCmp(a.quality, b.quality) == Compare(Rank(a), Rank(b))
  {
  }

  /** CompareQualified on two texts whose sizes parse and whose first characters are the qualities. */
  lemma QualifiedOrder(l: string, r: string, a: IntervalName, b: IntervalName)
    requires ValidName(a) && ValidName(b) && a.Named? == b.Named?
    requires l != [] && r != [] && (l == r <==> a == b)
    requires ParseInt(Tail(l)) == Some(a.size as int) && ParseInt(Tail(r)) == Some(b.size as int)
    requires a.Named? ==> l[0] == a.quality && r[0] == b.quality
    ensures CompareQualified(l, r) == Some(NameCompare(a, b))
  {
    if a.Named? && a.size == b.size && a.quality != b.quality {
      QualityCmpRank(a, b);
    }
  }

  /**
   * On well-formed names of one kind, interval_sorter is the order by generic size and
   * then by quality, whatever direction signs the labels carry.
   */
  lemma CompareNames(a: IntervalName, b: IntervalName)
    requires ValidName(a) && ValidName(b) && a.Named? == b.Named?
    ensures CompareUnsigned(Text(a), Text(b)) == Some(NameCompare(a, b))
  {
    TextTail(a);
    TextTail(b);
    TextInjective(a, b);
    var l, r := Text(a), Text(b);
    if a.Number? {
      assert ("P" + l == "P" + r) == (l == r) by {
        if "P" + l == "P" + r {
          assert l == ("P" + l)[1..] && r == ("P" + r)[1..];
        }
      }
      QualifiedOrder("P" + l, "P" + r, a, b);
    } else {
      QualifiedOrder(l, r, a, b);
    }
  }

  lemma IntervalSorterOrder(s: string, a: IntervalName, t: string, b: IntervalName)
    requires ValidName(a) && ValidName(b) && a.Named? == b.Named?
    requires RemoveSigns(s) == Text(a) && RemoveSigns(t) == Text(b)
    ensures IntervalSorter(s, t) == Some(NameCompare(a, b))
  {
    CompareNames(a, b);
  }

  lemma NameCompareAntisymmetric(a: IntervalName, b: IntervalName)
    ensures NameCompare(a, b) == -NameCompare(b, a)
  {
  }

  /** interval_sorter on two one-digit labels with a quality. */
  lemma SmallNamed(q1: char, k1: nat, q2: char, k2: nat)
    requires IsQuality(q1) && IsQuality(q2) && k1 < 10 && k2 < 10
    ensures IntervalSorter([q1, DigitChar(k1)], [q2, DigitChar(k2)])
         == Some(NameCompare(Named(q1, k1), Named(q2, k2)))
  {
    var a, b := Named(q1, k1), Named(q2, k2);
    assert Text(a) == [q1, DigitChar(k1)] && Text(b) == [q2, DigitChar(k2)];
    TextSigns(a);
    TextSigns(b);
    IntervalSorterOrder(Text(a), a, Text(b), b);
  }

  lemma UnsignDigit(sign: string, d: char)
    requires sign in {"", "+", "-"} && IsDigit(d)
    ensures RemoveSigns(sign + [d]) == [d]
  {
    assert RemoveChar([d], '+') == [d] by {
      assert [d][1..] == [];
    }
    assert RemoveChar([d], '-') == [d] by {
      assert [d][1..] == [];
    }
    var t := sign + [d];
    if sign == "+" {
      assert t[1..] == [d];
      assert RemoveChar(t, '+') == [d];
    } else if sign == "-" {
      assert t[1..] == [d];
      assert RemoveChar(t, '+') == ['-'] + [d];
      assert RemoveChar(t, '-') == [d];
    } else {
      assert t == [d];
    }
  }

  /** interval_sorter on two one-digit sizes, each with an optional sign before it. */
  lemma SmallNumber(s1: string, k1: nat, s2: string, k2: nat)
    requires s1 in {"", "+", "-"} && s2 in {"", "+", "-"} && k1 < 10 && k2 < 10
    ensures IntervalSorter(s1 + [DigitChar(k1)], s2 + [DigitChar(k2)]) == Some(Compare(k1, k2))
  {
    var a, b := Number(k1), Number(k2);
    assert Text(a) == [DigitChar(k1)] && Text(b) == [DigitChar(k2)];
    UnsignDigit(s1, DigitChar(k1));
    UnsignDigit(s2, DigitChar(k2));
    IntervalSorterOrder(s1 + [DigitChar(k1)], a, s2 + [DigitChar(k2)], b);
  }

  /**
   * interval_sorter on two n-gram labels: what follows the first character is not an int,
   * so int() raises in either order.
   */
  lemma IntervalSorterOnNgrams(x: string, y: string)
    requires x == "m3 +P4 M6" && y == "M3 -P4 m6"
    ensures IntervalSorter(x, y) == None && IntervalSorter(y, x) == None
  {
    var a1, b1, a2, b2 := "m3 ", "P4 M6", "M3 ", "P4 m6";
    assert x == a1 + ['+'] + b1 && y == a2 + ['-'] + b2;
    RemoveOneSign(a1, '+', b1, '-');
    RemoveOneSign(a2, '-', b2, '+');
    var ux, uy := a1 + b1, a2 + b2;
    assert ux == "m3 P4 M6" && uy == "M3 P4 m6";
    assert ux[0] == 'm' && uy[0] == 'M';
    NotAnInt(Tail(ux));
    NotAnInt(Tail(uy));
    UnsignedNotInt(ux, uy);
    UnsignedNotInt(uy, ux);
  }

  /** A qualified label whose size is not an int makes the comparison raise, in either order. */
  lemma UnsignedNotInt(l: string, r: string)
    requires l != [] && r != [] && l[0] != r[0] && !IsDigit(l[0])
    requires ParseInt(Tail(l)) == None
    ensures CompareUnsigned(l, r) == None
  {
  }

  /** Removing the signs of a label with one sign between two unsigned parts. */
  lemma RemoveOneSign(a: string, c: char, b: string, d: char)
    requires (c == '+' && d == '-') || (c == '-' && d == '+')
    requires c !in a && d !in a && c !in b && d !in b
    ensures RemoveSigns(a + [c] + b) == a + b
  {
    DropSign(a, c, b);
    assert d !in a + b;
    RemoveCharAbsent(a + b, d);
    if c == '-' {
      assert c !in a + [d] + b;
      RemoveCharAbsent(a + [c] + b, d);
    }
  }

  lemma DropSign(a: string, c: char, b: string)
    requires c !in a && c !in b
    ensures RemoveChar(a + [c] + b, c) == a + b
  {
    calc {
      RemoveChar(a + [c] + b, c);
    == { RemoveCharConcat(a + [c], b, c); }
      RemoveChar(a + [c], c) + RemoveChar(b, c);
    == { RemoveCharConcat(a, [c], c); }
      RemoveChar(a, c) + RemoveChar([c], c) + RemoveChar(b, c);
    == { RemoveCharAbsent(a, c); RemoveCharAbsent(b, c); assert RemoveChar([c], c) == []; }
      a + [] + b;
    == { assert a + [] == a; }
      a + b;
    }
  }

  lemma {:induction false} RemoveCharConcat(a: string, b: string, c: char)
    ensures RemoveChar(a + b, c) == RemoveChar(a, c) + RemoveChar(b, c)
  {
    if a != [] {
      assert (a + b)[1..] == a[1..] + b;
      RemoveCharConcat(a[1..], b, c);
    } else {
      assert a + b == b;
    }
  }

  /** int() of a digit, a space and more is a ValueError. */
  lemma NotAnInt(t: string)
    requires |t| >= 3 && IsDigit(t[0]) && t[1] == ' ' && !IsSpace(t[|t| - 1])
    ensures ParseInt(t) == None
  {
    StripNoSpace(t);
    assert !IsDigit(t[1]);
  }

  /** The examples interval_sorter's own tests state. */
  lemma IntervalSorterExamples()
    ensures IntervalSorter("M3", "P5") == Some(-1)
    ensures IntervalSorter("m7", "d4") == Some(1)
    ensures IntervalSorter("m3", "M3") == Some(-1)
    ensures IntervalSorter("A4", "P4") == Some(1)
    ensures IntervalSorter("3", "4") == Some(-1)
    ensures IntervalSorter("+3", "-3") == Some(0)
    ensures IntervalSorter("+3", "-2") == Some(1)
  {
    SmallNamed('M', 3, 'P', 5);
    SmallNamed('m', 7, 'd', 4);
    SmallNamed('m', 3, 'M', 3);
    SmallNamed('A', 4, 'P', 4);
    SmallNumber("", 3, "", 4);
    SmallNumber("+", 3, "-", 3);
    SmallNumber("+", 3, "-", 2);
  }

  // ---------------------------------------------------------------------------
  // ngram_sorter

  /**
   * ngram_sorter(left, right): compares two space-separated n-grams interval by interval;
   * an n-gram with a single interval left is smaller than one with more.
   */
  function NgramSorter(left: string, right: string): Option<int>
    decreases |left|, 1
  {
    CompareStripped(Strip(left), Strip(right))
  }

  /** ngram_sorter once both n-grams are stripped: split each at its first space. */
  function CompareStripped(l: string, r: string): Option<int>
    decreases |l|, 0
  {
    var lf := Find(l, ' ');
    var rf := Find(r, ' ');
    if lf == -1 then
      if rf == -1 then IntervalSorter(l, r) else Some(-1)
    else if rf == -1 then Some(1)
    else match IntervalSorter(l[..lf], r[..rf])
      case None => None
      case Some(c) => if c != 0 then Some(c) else NgramSorter(l[lf + 1..], r[rf + 1..])
  }

  /** Whatever text it is given, ngram_sorter never finds an n-gram unequal to itself. */
  lemma {:induction false} NgramSorterSelf(s: string)
    ensures NgramSorter(s, s) == None || NgramSorter(s, s) == Some(0)
    decreases |s|
  {
    var l := Strip(s);
    assert NgramSorter(s, s) == CompareStripped(l, l);
    var f := Find(l, ' ');
    if f == -1 {
      NgramSorterLast(l, l);
      IntervalSorterSelf(l);
    } else {
      NgramSorterStep(l, l, f, f);
      IntervalSorterSelf(l[..f]);
      NgramSorterSelf(l[f + 1..]);
    }
  }

  /** One position of an encoded n-gram: whether more intervals follow, the size and the quality rank. */
  datatype Key = Key(more: nat, size: nat, rank: nat)

  function KeyCompare(x: Key, y: Key): int {
    if x.more != y.more then Compare(x.more, y.more)
    else if x.size != y.size then Compare(x.size, y.size)
    else Compare(x.rank, y.rank)
  }

  /** Lexicographic order on key sequences, a proper prefix first. */
  function Lex(x: seq<Key>, y: seq<Key>): int {
    if x == [] && y == [] then 0
    else if x == [] then -1
    else if y == [] then 1
    else if KeyCompare(x[0], y[0]) != 0 then KeyCompare(x[0], y[0])
    else Lex(x[1..], y[1..])
  }

  /** An n-gram as keys: every interval but the last is marked as followed by more. */
  function Encode(ns: seq<IntervalName>): (ks: seq<Key>)
    ensures |ks| == |ns|
  {
    if |ns| == 0 then []
    else if |ns| == 1 then [Key(0, ns[0].size, Rank(ns[0]))]
    else [Key(1, ns[0].size, Rank(ns[0]))] + Encode(ns[1..])
  }

  /** The order ngram_sorter is meant to implement, on the interval names of two n-grams. */
  function NgramOrder(a: seq<IntervalName>, b: seq<IntervalName>): int {
    Lex(Encode(a), Encode(b))
  }

  predicate OfKind(ns: seq<IntervalName>, named: bool) {
    forall i :: 0 <= i < |ns| ==> ValidName(ns[i]) && ns[i].Named? == named
  }

  /** ts is an n-gram's text, token by token, spelling the names ns. */
  predicate SpellsNgram(ts: seq<string>, ns: seq<IntervalName>) {
    |ts| == |ns| && forall i :: 0 <= i < |ts| ==> Spells(ts[i], ns[i])
  }

  lemma {:induction false} JoinEnds(ts: seq<string>)
    requires |ts| >= 1 && forall i :: 0 <= i < |ts| ==> |ts[i]| > 0
    ensures |Join(ts, ' ')| > 0
    ensures Join(ts, ' ')[0] == ts[0][0]
    ensures Join(ts, ' ')[|Join(ts, ' ')| - 1] == ts[|ts| - 1][|ts[|ts| - 1]| - 1]
  {
    if |ts| > 1 {
      JoinEnds(ts[1..]);
    }
  }

  lemma SpellsNonEmpty(t: string, n: IntervalName)
    requires Spells(t, n)
    ensures |t| > 0 && ' ' !in t
  {
    assert |Text(n)| > 0;
  }

  lemma JoinStrip(ts: seq<string>)
    requires |ts| >= 1 && forall i :: 0 <= i < |ts| ==> |ts[i]| > 0 && NoSpace(ts[i])
    ensures Stripped(Join(ts, ' '))
  {
    JoinEnds(ts);
    var last := ts[|ts| - 1];
    assert !IsSpace(ts[0][0]);
    assert !IsSpace(last[|last| - 1]);
  }

  lemma JoinFind(ts: seq<string>)
    requires |ts| >= 1 && forall i :: 0 <= i < |ts| ==> ' ' !in ts[i]
    ensures |ts| == 1 ==> Find(Join(ts, ' '), ' ') == -1
    ensures |ts| > 1 ==>
      Find(Join(ts, ' '), ' ') == |ts[0]| &&
      Join(ts, ' ')[..|ts[0]|] == ts[0] &&
      Join(ts, ' ')[|ts[0]| + 1..] == Join(ts[1..], ' ')
  {
    if |ts| > 1 {
      var s := Join(ts, ' ');
      assert s == ts[0] + [' '] + Join(ts[1..], ' ');
      assert s[..|ts[0]|] == ts[0];
      assert s[|ts[0]|] == ' ';
      FindAt(s, ' ', |ts[0]|);
    } else {
      FindAbsent(ts[0], ' ');
    }
  }

  /** How ngram_sorter sees the text of an n-gram: stripped, and split at its first space. */
  lemma SplitNgram(ts: seq<string>, ns: seq<IntervalName>)
    requires |ts| >= 1 && SpellsNgram(ts, ns)
    ensures Stripped(Join(ts, ' '))
    ensures |ts| == 1 ==> Find(Join(ts, ' '), ' ') == -1
    ensures |ts| > 1 ==>
      Find(Join(ts, ' '), ' ') == |ts[0]| &&
      Join(ts, ' ')[..|ts[0]|] == ts[0] &&
      Join(ts, ' ')[|ts[0]| + 1..] == Join(ts[1..], ' ')
  {
    forall i | 0 <= i < |ts| ensures |ts[i]| > 0 && ' ' !in ts[i] && NoSpace(ts[i]) {
      SpellsNonEmpty(ts[i], ns[i]);
    }
    JoinStrip(ts);
    JoinFind(ts);
  }

  /**
   * On n-grams whose intervals are well-formed names of one kind, ngram_sorter is the
   * lexicographic order of their encodings.
   */
  lemma {:induction false} NgramSorterOrder(
    ts: seq<string>, a: seq<IntervalName>, us: seq<string>, b: seq<IntervalName>, named: bool)
    requires |ts| >= 1 && |us| >= 1
    requires SpellsNgram(ts, a) && SpellsNgram(us, b)
    requires OfKind(a, named) && OfKind(b, named)
    ensures NgramSorter(Join(ts, ' '), Join(us, ' ')) == Some(NgramOrder(a, b))
    decreases |ts|
  {
    if |ts| > 1 && |us| > 1 {
      SpellsNgramTail(ts, a);
      SpellsNgramTail(us, b);
      if NameCompare(a[0], b[0]) == 0 {
        NgramSorterOrder(ts[1..], a[1..], us[1..], b[1..], named);
      }
      NgramOrderJoinMore(ts, a, us, b, named);
    } else {
      NgramOrderJoinLast(ts, a, us, b, named);
    }
  }

  /** The step of NgramSorterOrder where both n-grams have more than one interval. */
  lemma NgramOrderJoinMore(ts: seq<string>, a: seq<IntervalName>, us: seq<string>, b: seq<IntervalName>, named: bool)
    requires |ts| > 1 && |us| > 1
    requires SpellsNgram(ts, a) && SpellsNgram(us, b)
    requires OfKind(a, named) && OfKind(b, named)
    requires |a| > 1 && |b| > 1
    requires NameCompare(a[0], b[0]) == 0 ==>
      NgramSorter(Join(ts[1..], ' '), Join(us[1..], ' ')) == Some(NgramOrder(a[1..], b[1..]))
    ensures NgramSorter(Join(ts, ' '), Join(us, ' ')) == Some(NgramOrder(a, b))
  {
    NgramHeads(ts, a, us, b, named);
    var l, r := Join(ts, ' '), Join(us, ' ');
    NgramSorterOnStripped(l, r);
    NgramOrderMore(l, r, |ts[0]|, |us[0]|, a, b);
  }

  /** The step of NgramSorterOrder where one of the n-grams has a single interval. */
  lemma NgramOrderJoinLast(ts: seq<string>, a: seq<IntervalName>, us: seq<string>, b: seq<IntervalName>, named: bool)
    requires |ts| >= 1 && |us| >= 1 && (|ts| == 1 || |us| == 1)
    requires SpellsNgram(ts, a) && SpellsNgram(us, b)
    requires OfKind(a, named) && OfKind(b, named)
    ensures NgramSorter(Join(ts, ' '), Join(us, ' ')) == Some(NgramOrder(a, b))
  {
    NgramHeads(ts, a, us, b, named);
    var l, r := Join(ts, ' '), Join(us, ' ');
    NgramSorterOnStripped(l, r);
    NgramOrderLast(l, r, a, b);
  }

  /** What NgramSorterOrder needs to know about the first interval of each n-gram. */
  lemma NgramHeads(ts: seq<string>, a: seq<IntervalName>, us: seq<string>, b: seq<IntervalName>, named: bool)
    requires |ts| >= 1 && |us| >= 1
    requires SpellsNgram(ts, a) && SpellsNgram(us, b)
    requires OfKind(a, named) && OfKind(b, named)
    ensures Stripped(Join(ts, ' ')) && Stripped(Join(us, ' '))
    ensures (Find(Join(ts, ' '), ' ') == -1) == (|ts| == 1)
    ensures (Find(Join(us, ' '), ' ') == -1) == (|us| == 1)
    ensures |ts| == 1 ==> Join(ts, ' ') == ts[0]
    ensures |us| == 1 ==> Join(us, ' ') == us[0]
    ensures |ts| > 1 ==> Find(Join(ts, ' '), ' ') == |ts[0]|
    ensures |ts| > 1 ==> Join(ts, ' ')[..|ts[0]|] == ts[0]
    ensures |ts| > 1 ==> Join(ts, ' ')[|ts[0]| + 1..] == Join(ts[1..], ' ')
    ensures |us| > 1 ==> Find(Join(us, ' '), ' ') == |us[0]|
    ensures |us| > 1 ==> Join(us, ' ')[..|us[0]|] == us[0]
    ensures |us| > 1 ==> Join(us, ' ')[|us[0]| + 1..] == Join(us[1..], ' ')
    ensures IntervalSorter(ts[0], us[0]) == Some(NameCompare(a[0], b[0]))
  {
    SplitNgram(ts, a);
    SplitNgram(us, b);
    IntervalSorterOrder(ts[0], a[0], us[0], b[0]);
  }

  /** The step of NgramSorterOrder where one of the n-grams has a single interval. */
  lemma NgramOrderLast(l: string, r: string, a: seq<IntervalName>, b: seq<IntervalName>)
    requires |a| >= 1 && |b| >= 1 && (|a| == 1 || |b| == 1)
    requires (Find(l, ' ') == -1) == (|a| == 1) && (Find(r, ' ') == -1) == (|b| == 1)
    requires |a| == 1 && |b| == 1 ==> IntervalSorter(l, r) == Some(NameCompare(a[0], b[0]))
    ensures CompareStripped(l, r) == Some(NgramOrder(a, b))
  {
    NgramSorterLast(l, r);
    EncodeHead(a);
    EncodeHead(b);
    if |a| == 1 && |b| == 1 {
      assert Lex(Encode(a), Encode(b)) == (if NameCompare(a[0], b[0]) != 0 then NameCompare(a[0], b[0]) else Lex([], []));
    }
  }

  /** ngram_sorter's own strip() changes nothing on n-grams that are already stripped. */
  lemma NgramSorterOnStripped(l: string, r: string)
    requires Stripped(l) && Stripped(r)
    ensures NgramSorter(l, r) == CompareStripped(l, r)
  {
    StripNoSpace(l);
    StripNoSpace(r);
  }

  /** The step of NgramSorterOrder where both n-grams have more than one interval. */
  lemma NgramOrderMore(l: string, r: string, lf: nat, rf: nat, a: seq<IntervalName>, b: seq<IntervalName>)
    requires |a| > 1 && |b| > 1
    requires Find(l, ' ') == lf && Find(r, ' ') == rf
    requires IntervalSorter(l[..lf], r[..rf]) == Some(NameCompare(a[0], b[0]))
    requires NameCompare(a[0], b[0]) == 0 ==>
      NgramSorter(l[lf + 1..], r[rf + 1..]) == Some(NgramOrder(a[1..], b[1..]))
    ensures CompareStripped(l, r) == Some(NgramOrder(a, b))
  {
    NgramSorterStep(l, r, lf, rf);
    EncodeHead(a);
    EncodeHead(b);
    var ka, kb := Encode(a), Encode(b);
    assert KeyCompare(ka[0], kb[0]) == NameCompare(a[0], b[0]);
  }

  /** ngram_sorter on two stripped n-grams that both have more than one interval. */
  lemma NgramSorterStep(l: string, r: string, lf: int, rf: int)
    requires lf >= 0 && Find(l, ' ') == lf && rf >= 0 && Find(r, ' ') == rf
    ensures CompareStripped(l, r) ==
      match IntervalSorter(l[..lf], r[..rf])
      case None => None
      case Some(c) => if c != 0 then Some(c) else NgramSorter(l[lf + 1..], r[rf + 1..])
  {
  }

  /** ngram_sorter on two stripped n-grams of which one has a single interval. */
  lemma NgramSorterLast(l: string, r: string)
    requires Find(l, ' ') == -1 || Find(r, ' ') == -1
    ensures Find(l, ' ') == -1 && Find(r, ' ') == -1 ==> CompareStripped(l, r) == IntervalSorter(l, r)
    ensures Find(l, ' ') == -1 && Find(r, ' ') != -1 ==> CompareStripped(l, r) == Some(-1)
    ensures Find(l, ' ') != -1 && Find(r, ' ') == -1 ==> CompareStripped(l, r) == Some(1)
  {
  }

  lemma EncodeHead(a: seq<IntervalName>)
    requires |a| >= 1
    ensures Encode(a)[0] == Key(if |a| > 1 then 1 else 0, a[0].size, Rank(a[0]))
    ensures |a| > 1 ==> Encode(a)[1..] == Encode(a[1..])
    ensures |a| == 1 ==> Encode(a)[1..] == []
  {
  }

  lemma SpellsNgramTail(ts: seq<string>, ns: seq<IntervalName>)
    requires |ts| > 1 && SpellsNgram(ts, ns)
    ensures SpellsNgram(ts[1..], ns[1..])
    ensures forall named :: OfKind(ns, named) ==> OfKind(ns[1..], named)
  {
    forall i | 0 <= i < |ts| - 1 ensures Spells(ts[1..][i], ns[1..][i]) {
      assert ts[1..][i] == ts[i + 1] && ns[1..][i] == ns[i + 1];
    }
  }

  lemma {:induction false} LexAntisymmetric(x: seq<Key>, y: seq<Key>)
    ensures Lex(x, y) == -Lex(y, x)
  {
    if x != [] && y != [] && KeyCompare(x[0], y[0]) == 0 {
      LexAntisymmetric(x[1..], y[1..]);
    }
  }

  lemma {:induction false} LexReflexive(x: seq<Key>)
    ensures Lex(x, x) == 0
  {
    if x != [] {
      LexReflexive(x[1..]);
    }
  }

  /** An n-gram's proper prefix sorts before it. */
  lemma {:induction false} NgramPrefixSmaller(a: seq<IntervalName>, k: nat)
    requires 1 <= k < |a|
    ensures NgramOrder(a[..k], a) == -1
  {
    if k > 1 {
      assert a[..k][1..] == a[1..][..k - 1];
      NgramPrefixSmaller(a[1..], k - 1);
      assert Encode(a[..k])[1..] == Encode(a[1..][..k - 1]);
      assert Encode(a)[1..] == Encode(a[1..]);
    }
  }

  lemma SpellsSmall(sign: string, k: nat)
    requires sign in {"", "+", "-"} && k < 10
    ensures Spells(sign + [DigitChar(k)], Number(k))
  {
    UnsignDigit(sign, DigitChar(k));
    assert Text(Number(k)) == [DigitChar(k)];
  }

  lemma ExampleJoins()
    ensures Join(["3", "-2", "3", "-2", "3"], ' ') == "3 -2 3 -2 3"
    ensures Join(["3", "-2", "3"], ' ') == "3 -2 3"
  {
    assert Join(["3"], ' ') == "3";
    assert Join(["-2", "3"], ' ') == "-2 3";
    assert Join(["3", "-2", "3"], ' ') == "3 -2 3";
    assert Join(["-2", "3", "-2", "3"], ' ') == "-2 3 -2 3";
  }

  lemma ExampleSpells(ts: seq<string>, a: seq<IntervalName>)
    requires ts == ["3", "-2", "3", "-2", "3"] && a == [Number(3), Number(2), Number(3), Number(2), Number(3)]
    ensures SpellsNgram(ts, a) && OfKind(a, false)
    ensures SpellsNgram(ts[..3], a[..3]) && OfKind(a[..3], false)
  {
    SpellsSmall("", 3);
    SpellsSmall("-", 2);
    assert "" + [DigitChar(3)] == "3" && "-" + [DigitChar(2)] == "-2";
  }

  /** One of ngram_sorter's documented examples: a longer n-gram sorts after its prefix. */
  lemma NgramSorterLastExample()
    ensures NgramSorter("3 -2 3 -2 3", "3 -2 3") == Some(1)
  {
    var ts := ["3", "-2", "3", "-2", "3"];
    var a := [Number(3), Number(2), Number(3), Number(2), Number(3)];
    ExampleSpells(ts, a);
    ExampleJoins();
    assert ts[..3] == ["3", "-2", "3"];
    NgramSorterOrder(ts, a, ts[..3], a[..3], false);
    NgramPrefixSmaller(a, 3);
    LexAntisymmetric(Encode(a[..3]), Encode(a));
  }

  // ---------------------------------------------------------------------------
  // The sorters as comparison functions for sorted()

  /** s is the label of a well-formed interval name of the given kind. */
  ghost predicate IntervalLabel(s: string, named: bool) {
    exists n :: Spells(s, n) && ValidName(n) && n.Named? == named
  }

  /** s is the text of an n-gram of well-formed interval names of the given kind. */
  ghost predicate NgramLabel(s: string, named: bool) {
    exists ts, ns :: |ts| >= 1 && s == Join(ts, ' ') && SpellsNgram(ts, ns) && OfKind(ns, named)
  }

  /** Labels of one kind can be sorted with interval_sorter: it answers, and consistently. */
  lemma IntervalSorterConsistent(keys: seq<string>, named: bool)
    requires forall k :: k in keys ==> IntervalLabel(k, named)
    ensures Consistent(IntervalSorter, keys)
  {
    forall s, t | s in keys && t in keys
      ensures IntervalSorter(s, t).Some?
      ensures IntervalSorter(s, t).value > 0 ==> Le(IntervalSorter, t, s)
    {
      var a :| Spells(s, a) && ValidName(a) && a.Named? == named;
      var b :| Spells(t, b) && ValidName(b) && b.Named? == named;
      IntervalSorterOrder(s, a, t, b);
      IntervalSorterOrder(t, b, s, a);
      NameCompareAntisymmetric(a, b);
    }
  }

  /** N-grams of one kind can be sorted with ngram_sorter: it answers, and consistently. */
  lemma NgramSorterConsistent(keys: seq<string>, named: bool)
    requires forall k :: k in keys ==> NgramLabel(k, named)
    ensures Consistent(NgramSorter, keys)
  {
    forall s, t | s in keys && t in keys
      ensures NgramSorter(s, t).Some?
      ensures NgramSorter(s, t).value > 0 ==> Le(NgramSorter, t, s)
    {
      var ts, a :| |ts| >= 1 && s == Join(ts, ' ') && SpellsNgram(ts, a) && OfKind(a, named);
      var us, b :| |us| >= 1 && t == Join(us, ' ') && SpellsNgram(us, b) && OfKind(b, named);
      NgramSorterOrder(ts, a, us, b, named);
      NgramSorterOrder(us, b, ts, a, named);
      LexAntisymmetric(Encode(a), Encode(b));
    }
  }
}
