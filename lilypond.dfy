// The LilyPond preparation indexers of vis.analyzers.indexers.lilypond: the markup wrapper,
// the settings of LilyPondIndexer, and the offset arithmetic of PartNotesIndexer, which turns
// a series of note offsets into notes and rests whose durations fill the time exactly.
// Durations are exact reals, where the source adds floats.
module LilyPond {
  import opened Wrappers
  import opened PyStrings
  import opened PyValues

  // ---------------------------------------------------------------------------------------
  // annotation_func

  const MarkupOpen := "_\\markup{ \""
  const MarkupClose := "\" }"

  /** The LilyPond markup command that prints the text of `obj` below the staff; show renders a float or a list. */
  function AnnotationFunc(obj: Value, show: Value -> string): (r: string)
    ensures StartsWith(r, MarkupOpen) && EndsWith(r, MarkupClose)
    ensures |r| == |MarkupOpen| + |Str(obj, show)| + |MarkupClose|
    ensures r[|MarkupOpen|..|r| - |MarkupClose|] == Str(obj, show)
  {
    var r := MarkupOpen + Str(obj, show) + MarkupClose;
    assert r[..|MarkupOpen|] == MarkupOpen;
    assert r[|r| - |MarkupClose|..] == MarkupClose;
    r
  }

  /** AnnotationIndexer.run: one combination per part, `[x]` for part x, in part order. */
  function EachPart(parts: nat): (c: seq<seq<nat>>)
    ensures |c| == parts
    ensures forall x :: 0 <= x < parts ==> c[x] == [x]
  {
    seq(parts, x requires 0 <= x < parts => [x])
  }

  /** Every part is analysed exactly once, alone, in part order. */
  lemma {:induction false} EachPartCovers(parts: nat)
    ensures Flatten(EachPart(parts)) == seq(parts, x requires 0 <= x < parts => x)
  {
    if parts > 0 {
      EachPartCovers(parts - 1);
      assert EachPart(parts) == EachPart(parts - 1) + [[parts - 1]];
      FlattenSnoc(EachPart(parts - 1), [parts - 1]);
    }
  }

  function Flatten(c: seq<seq<nat>>): seq<nat> {
    if c == [] then [] else Flatten(c[..|c| - 1]) + c[|c| - 1]
  }

  lemma FlattenSnoc(c: seq<seq<nat>>, x: seq<nat>)
    ensures Flatten(c + [x]) == Flatten(c) + x
  {
    assert (c + [x])[..|c|] == c;
  }

  // ---------------------------------------------------------------------------------------
  // LilyPondIndexer settings

  const RunLilypond := "run_lilypond"
  const OutputPathname := "output_pathname"
  const AnnotationPart := "annotation_part"
  const ErrorNoPathname := "LilyPondIndexer cannot run LilyPond without saving output to a file."

  /** The settings LilyPondIndexer keeps when it is given none. */
  const Defaults: map<string, Value> :=
    map[RunLilypond := VBool(false), OutputPathname := VNone, AnnotationPart := VNone]

  /** A single annotation part is wrapped in a list; a list is kept as it is. */
  function AsList(v: Value): (r: Value)
    ensures r.VList?
    ensures v.VList? ==> r == v
    ensures !v.VList? ==> r.items == [v]
  {
    if v.VList? then v else VList([v])
  }

  /**
   * The settings LilyPondIndexer's constructor stores, or the error it raises. A setting is its
   * given value (None for no settings at all); run_lilypond is kept only together with an
   * output_pathname, and a run_lilypond that `is True` without one is an error.
   */
  function Configure(given: Option<map<string, Value>>): (r: Result<map<string, Value>>)
    ensures var g := if given.Some? then given.value else map[];
            r.Failure? <==> OutputPathname !in g && RunLilypond in g && g[RunLilypond] == VBool(true)
    ensures r.Failure? ==> r.error == RuntimeError(ErrorNoPathname)
    ensures r.Success? ==> r.value.Keys == {RunLilypond, OutputPathname, AnnotationPart}
    ensures r.Success? ==> r.value[AnnotationPart].VNone? || r.value[AnnotationPart].VList?
  {
    var g := if given.Some? then given.value else map[];
    if OutputPathname !in g && RunLilypond in g && g[RunLilypond] == VBool(true) then
      Failure(RuntimeError(ErrorNoPathname))
    else
      Success(map[
        OutputPathname := if OutputPathname in g then g[OutputPathname] else VNone,
        RunLilypond := if OutputPathname in g && RunLilypond in g then g[RunLilypond] else VBool(false),
        AnnotationPart := if AnnotationPart in g then AsList(g[AnnotationPart]) else VNone])
  }

  /** Whenever the stored settings say to run LilyPond, an output pathname was given. */
  lemma RunNeedsPathname(given: map<string, Value>)
    requires Configure(Some(given)).Success?
    requires Truthy(Configure(Some(given)).value[RunLilypond])
    ensures OutputPathname in given && RunLilypond in given
    ensures Configure(Some(given)).value[OutputPathname] == given[OutputPathname]
  {
  }

  /** No settings, or an empty dictionary, give the defaults. */
  lemma DefaultSettings()
    ensures Configure(None) == Success(Defaults)
    ensures Configure(Some(map[])) == Success(Defaults)
  {
    var r := Configure(None).value;
    assert r[RunLilypond] == VBool(false) && r[OutputPathname] == VNone && r[AnnotationPart] == VNone;
    assert r == Defaults;
  }

  /** Keys other than the three settings are ignored. */
  lemma OtherKeysIgnored(given: map<string, Value>, key: string, v: Value)
    requires key !in {RunLilypond, OutputPathname, AnnotationPart}
    ensures Configure(Some(given[key := v])) == Configure(Some(given))
  {
    var g := given[key := v];
    assert (OutputPathname in g) == (OutputPathname in given);
    assert (RunLilypond in g) == (RunLilypond in given);
    assert (AnnotationPart in g) == (AnnotationPart in given);
  }

  /** The indexer the constructor builds: its score and the settings it keeps. */
  class LilyPondIndexer {
    const score: seq<Value>
    var settings: map<string, Value>

    constructor Init(score: seq<Value>)
      ensures this.score == score && settings == map[]
    {
      this.score := score;
      settings := map[];
    }

    /**
     * LilyPondIndexer(score, settings): fills in the settings one by one, as the source's
     * constructor does, or raises.
     */
    static method New(score: seq<Value>, given: Option<map<string, Value>>) returns (r: Result<LilyPondIndexer>)
      ensures r.Failure? <==> Configure(given).Failure?
      ensures r.Failure? ==> r.error == Configure(given).error
      ensures r.Success? ==> fresh(r.value) && r.value.score == score
      ensures r.Success? ==> r.value.settings == Configure(given).value
    {
      var g := if given.Some? then given.value else map[];
      var ind := new LilyPondIndexer.Init(score);
      if OutputPathname in g {
        ind.settings := ind.settings[OutputPathname := g[OutputPathname]];
        if RunLilypond in g {
          ind.settings := ind.settings[RunLilypond := g[RunLilypond]];
        }
      } else {
        ind.settings := ind.settings[OutputPathname := Defaults[OutputPathname]];
        if RunLilypond in g && g[RunLilypond] == VBool(true) {
          return Failure(RuntimeError(ErrorNoPathname));
        }
      }
      if RunLilypond !in ind.settings {
        ind.settings := ind.settings[RunLilypond := Defaults[RunLilypond]];
      }
      if AnnotationPart in g {
        ind.settings := ind.settings[AnnotationPart := g[AnnotationPart]];
        if !ind.settings[AnnotationPart].VList? {
          ind.settings := ind.settings[AnnotationPart := VList([ind.settings[AnnotationPart]])];
        }
      } else {
        ind.settings := ind.settings[AnnotationPart := Defaults[AnnotationPart]];
      }
      return Success(ind);
    }
  }

  // ---------------------------------------------------------------------------------------
  // PartNotesIndexer._fill_space_between_offsets

  /** The durations highest_valid_ql may answer, from a half note down to a 256th, and zero. */
  const Durations: seq<real> := [2.0, 1.0, 0.5, 0.25, 0.125, 0.0625, 0.03125, 0.015625, 0.0]

  /** The shortest listed note length; a remainder below it is given up on. */
  const Shortest: real := 0.015625

  predicate Descending(ds: seq<real>) {
    forall i, j :: 0 <= i < j < |ds| ==> ds[j] <= ds[i]
  }

  /** The first value of a descending list below `rem`: the largest such value. */
  function FirstBelow(ds: seq<real>, rem: real): (r: Option<real>)
    requires Descending(ds)
    ensures r.None? <==> forall k :: 0 <= k < |ds| ==> rem <= ds[k]
    ensures r.Some? ==> r.value in ds && r.value < rem
    ensures r.Some? ==> forall k :: 0 <= k < |ds| && ds[k] < rem ==> ds[k] <= r.value
  {
    if ds == [] then None
    else if ds[0] < rem then Some(ds[0])
    else
      var r := FirstBelow(ds[1..], rem);
      assert forall k :: 1 <= k < |ds| ==> ds[k] == ds[1..][k - 1];
      r
  }

  /**
   * highest_valid_ql: `rem` itself when it is a listed duration, otherwise the largest listed
   * duration below it (nothing for a negative `rem`).
   */
  function HighestValidQl(rem: real): (r: Option<real>)
    ensures rem in Durations ==> r == Some(rem)
    ensures rem >= 0.0 <==> r.Some?
    ensures r.Some? ==> r.value in Durations && r.value <= rem
    ensures r.Some? && r.value != rem ==> forall k :: 0 <= k < |Durations| && Durations[k] < rem ==> Durations[k] <= r.value
  {
    assert Descending(Durations);
    if rem in Durations then Some(rem)
    else
      assert Durations[|Durations| - 1] == 0.0;
      FirstBelow(Durations, rem)
  }

  /** A length the solver produces on purpose: a whole note or a listed duration. */
  predicate Listed(v: real) { v == 4.0 || v in Durations }

  function Sum(s: seq<real>): real {
    if s == [] then 0.0 else s[0] + Sum(s[1..])
  }

  predicate NonIncreasing(s: seq<real>) {
    forall k :: 0 <= k < |s| - 1 ==> s[k + 1] <= s[k]
  }

  /** The shape of every successful answer of the solver. */
  predicate Split(qls: seq<real>) {
    && |qls| > 0
    && (forall k :: 0 <= k < |qls| ==> 0.0 <= qls[k] <= 4.0 && (qls[k] != 4.0 ==> qls[k] <= 2.0))
    && (forall k :: 0 <= k < |qls| - 1 ==> Listed(qls[k]) && Shortest <= qls[k])
    && (Listed(qls[|qls| - 1]) || qls[|qls| - 1] < Shortest)
    && NonIncreasing(qls)
  }

  /** Putting a longer listed length in front keeps the shape of a split. */
  lemma SplitCons(x: real, s: seq<real>)
    requires Split(s) && Listed(x) && Shortest <= x && s[0] <= x
    ensures Split([x] + s) && Sum([x] + s) == x + Sum(s)
  {
    var t := [x] + s;
    assert t[1..] == s;
    forall k | 1 <= k < |t|
      ensures t[k] == s[k - 1]
    {
    }
  }

  /** Below four beats the remainder shrinks by at least a 256th note each step. */
  lemma MeasureShrinks(rem: real, p: real)
    requires Shortest <= p <= rem
    ensures Measure(rem - p) < Measure(rem)
  {
    assert (rem - p) * 64.0 <= rem * 64.0 - 1.0;
  }

  function Measure(rem: real): nat {
    if rem < 0.0 then 0 else (rem * 64.0).Floor + 1
  }

  const ImpossiblePrefix := "Impossible quarterLength remaining: "

  /** The text of the RuntimeError for an impossible remainder; `show` is Python's unicode(float). */
  function ImpossibleMessage(show: real -> string, rem: real, start: real, end: real): string {
    ImpossiblePrefix + show(rem) + "... we started with " + show(start) + " to " + show(end)
  }

  /** Between a greedy pick and the next listed length lies a factor of two. */
  lemma GreedyHalf(rem: real, p: real)
    requires Shortest < rem < 4.0 && rem !in Durations
    requires p in Durations && p <= rem
    requires forall k :: 0 <= k < |Durations| && Durations[k] < rem ==> Durations[k] <= p
    ensures Shortest <= p && rem - p < p
  {
    assert Durations[7] < rem;
    if p != 2.0 {
      var k :| 0 <= k < |Durations| && Durations[k] == p;
      assert 1 <= k <= 7;
      assert Durations[k - 1] == 2.0 * p;
    }
  }

  /** the_solver: whole notes while more than four beats remain, then the greedy listed lengths. */
  function Solver(rem: real, show: real -> string, start: real, end: real): (r: Result<seq<real>>)
    ensures r.Success? <==> rem >= 0.0
    ensures r.Failure? ==> r.error == RuntimeError(ImpossibleMessage(show, rem, start, end))
    ensures r.Success? ==> |r.value| > 0 && Sum(r.value) == rem
    decreases Measure(rem)
  {
    if rem == 4.0 then Success([4.0])
    else if 0.0 <= rem < 4.0 then
      if rem < Shortest then Success([rem])
      else
        var p := HighestValidQl(rem).value;
        if p == rem then Success([rem])
        else
          GreedyHalf(rem, p);
          MeasureShrinks(rem, p);
          var rest := Solver(rem - p, show, start, end);
          assert ([p] + rest.value)[1..] == rest.value;
          Success([p] + rest.value)
    else if rem > 4.0 then
      MeasureShrinks(rem, 4.0);
      var rest := Solver(rem - 4.0, show, start, end);
      assert ([4.0] + rest.value)[1..] == rest.value;
      Success([4.0] + rest.value)
    else Failure(RuntimeError(ImpossibleMessage(show, rem, start, end)))
  }

  /**
   * Every length the solver gives is at most a whole note and otherwise at most a half note;
   * all but the last are listed lengths, and they never grow.
   */
  lemma {:induction false} SolverSplit(rem: real, show: real -> string, start: real, end: real)
    requires rem >= 0.0
    ensures Split(Solver(rem, show, start, end).value)
    ensures Solver(rem, show, start, end).value[0] <= rem
    decreases Measure(rem)
  {
    if rem == 4.0 || rem < Shortest {
    } else if rem < 4.0 {
      var p := HighestValidQl(rem).value;
      if p != rem {
        GreedyHalf(rem, p);
        MeasureShrinks(rem, p);
        SolverSplit(rem - p, show, start, end);
        SplitCons(p, Solver(rem - p, show, start, end).value);
      }
    } else {
      MeasureShrinks(rem, 4.0);
      SolverSplit(rem - 4.0, show, start, end);
      SplitCons(4.0, Solver(rem - 4.0, show, start, end).value);
    }
  }

  /**
   * _fill_space_between_offsets(start, end): the note lengths that fill the span from `start`
   * to `end`; a negative span raises RuntimeError.
   */
  function FillSpace(start: real, end: real, show: real -> string): (r: Result<seq<real>>)
    ensures r.Success? <==> start <= end
    ensures r.Failure? ==> r.error == RuntimeError(ImpossibleMessage(show, end - start, start, end))
    ensures r.Success? ==> |r.value| > 0 && Sum(r.value) == end - start
  {
    Solver(end - start, show, start, end)
  }

  /** The lengths that fill a span have the shape of a split. */
  lemma FillSpaceSplit(start: real, end: real, show: real -> string)
    requires start <= end
    ensures Split(FillSpace(start, end, show).value)
  {
    SolverSplit(end - start, show, start, end);
  }

  /** Spans of exactly four beats, of a listed length, or too short to split are one length. */
  lemma FillSpaceSingle(start: real, end: real, show: real -> string)
    requires end - start == 4.0 || end - start in Durations || 0.0 <= end - start < Shortest
    ensures FillSpace(start, end, show) == Success([end - start])
  {
  }

  /** A span over four beats starts with a whole note. */
  lemma FillSpaceLong(start: real, end: real, show: real -> string)
    requires end - start > 4.0
    ensures FillSpace(start, end, show).Success?
    ensures FillSpace(start, end, show).value[0] == 4.0
  {
  }

  /** The documented example: from offset 0 to offset 3 come a half note and a quarter. */
  lemma FillSpaceExample(show: real -> string)
    ensures FillSpace(0.0, 3.0, show) == Success([2.0, 1.0])
    ensures FillSpace(0.0, 4.0, show) == Success([4.0])
  {
    assert HighestValidQl(3.0) == Some(2.0);
    assert Solver(1.0, show, 0.0, 3.0) == Success([1.0]);
    assert Solver(3.0, show, 0.0, 3.0) == Success([2.0] + [1.0]);
    assert [2.0] + [1.0] == [2.0, 1.0];
    assert FillSpace(0.0, 3.0, show) == Solver(3.0, show, 0.0, 3.0);
  }

  // ---------------------------------------------------------------------------------------
  // PartNotesIndexer._set_durations

  /** A note or a rest of the new part: where it starts, how long it lasts, and for a note its input position. */
  datatype Event = Event(offset: real, length: real, note: Option<nat>)

  function End(e: Event): real { e.offset + e.length }

  /** Each event ends exactly where the next one starts: no gap and no overlap. */
  predicate Contiguous(es: seq<Event>) {
    forall k :: 0 <= k < |es| - 1 ==> End(es[k]) == es[k + 1].offset
  }

  /** The lengths after note i: those filling the time up to the next note, or one beat for the last. */
  function Gap(offsets: seq<real>, i: nat, show: real -> string): (r: Result<seq<real>>)
    requires i < |offsets|
    ensures r.Success? <==> i + 1 == |offsets| || offsets[i] <= offsets[i + 1]
    ensures r.Success? ==> |r.value| > 0
    ensures r.Success? ==> Sum(r.value) == if i + 1 < |offsets| then offsets[i + 1] - offsets[i] else 1.0
  {
    if i + 1 < |offsets| then FillSpace(offsets[i], offsets[i + 1], show) else Success([1.0])
  }

  /** Rest j after a note at `off`: it starts after the note and the rests before it. */
  function RestAt(off: real, qls: seq<real>, j: nat): Event
    requires j + 1 < |qls|
  {
    Event(off + qls[0] + Sum(qls[1..j + 1]), qls[j + 1], None)
  }

  /** Note i at `off`, lasting qls[0], followed by one rest for each further length. */
  function Block(i: nat, off: real, qls: seq<real>): seq<Event>
    requires |qls| > 0
  {
    [Event(off, qls[0], Some(i))] + seq(|qls| - 1, j requires 0 <= j < |qls| - 1 => RestAt(off, qls, j))
  }

  lemma {:induction false} SumSnoc(s: seq<real>, x: real)
    ensures Sum(s + [x]) == Sum(s) + x
  {
    if s != [] {
      assert (s + [x])[1..] == s[1..] + [x];
      SumSnoc(s[1..], x);
    }
  }

  /** A rest ends where the next rest starts. */
  lemma RestsMeet(off: real, qls: seq<real>, j: nat)
    requires j + 2 < |qls|
    ensures End(RestAt(off, qls, j)) == RestAt(off, qls, j + 1).offset
  {
    assert qls[1..j + 2] == qls[1..j + 1] + [qls[j + 1]];
    SumSnoc(qls[1..j + 1], qls[j + 1]);
  }

  /** A block starts with its note, holds only rests after it, and fills `Sum(qls)` without gaps. */
  lemma BlockShape(i: nat, off: real, qls: seq<real>)
    requires |qls| > 0
    ensures var b := Block(i, off, qls);
            |b| == |qls| && b[0] == Event(off, qls[0], Some(i)) && Contiguous(b)
    ensures var b := Block(i, off, qls);
            forall k :: 1 <= k < |b| ==> b[k].note.None? && b[k].length == qls[k]
    ensures End(Block(i, off, qls)[|qls| - 1]) == off + Sum(qls)
  {
    var b := Block(i, off, qls);
    forall k | 0 <= k < |b| - 1
      ensures End(b[k]) == b[k + 1].offset
    {
      if k == 0 {
        assert qls[1..1] == [];
      } else {
        RestsMeet(off, qls, k - 1);
      }
    }
    if |qls| > 1 {
      var last := |qls| - 2;
      assert qls[1..] == qls[1..last + 1] + [qls[last + 1]];
      SumSnoc(qls[1..last + 1], qls[last + 1]);
    }
  }

  /** The gaps of the first n notes, or the error of the first one that cannot be filled. */
  function Gaps(offsets: seq<real>, n: nat, show: real -> string): (r: Result<seq<seq<real>>>)
    requires n <= |offsets|
    ensures r.Success? ==> |r.value| == n && forall i :: 0 <= i < n ==> |r.value[i]| > 0
  {
    if n == 0 then Success([])
    else match Gaps(offsets, n - 1, show)
      case Failure(e) => Failure(e)
      case Success(prev) =>
        match Gap(offsets, n - 1, show)
        case Failure(e) => Failure(e)
        case Success(qls) => Success(prev + [qls])
  }

  /** Gaps that fit the offsets: each fills the time up to the next note; the last is one beat. */
  predicate Fits(offsets: seq<real>, gaps: seq<seq<real>>) {
    && |gaps| <= |offsets|
    && (forall i :: 0 <= i < |gaps| ==> |gaps[i]| > 0)
    && (forall i :: 0 <= i < |gaps| && i + 1 < |offsets| ==> Sum(gaps[i]) == offsets[i + 1] - offsets[i])
    && (forall i :: 0 <= i < |gaps| && i + 1 == |offsets| ==> gaps[i] == [1.0])
  }

  /** _set_durations raises exactly when a later note starts before an earlier one; otherwise its gaps fit. */
  lemma {:induction false} GapsFit(offsets: seq<real>, n: nat, show: real -> string)
    requires n <= |offsets|
    ensures Gaps(offsets, n, show).Success? <==> forall i :: 0 <= i < n && i + 1 < |offsets| ==> offsets[i] <= offsets[i + 1]
    ensures Gaps(offsets, n, show).Success? ==> Fits(offsets, Gaps(offsets, n, show).value)
  {
    GapsSucceed(offsets, n, show);
    if n > 0 {
      GapsFit(offsets, n - 1, show);
      var r := Gaps(offsets, n, show);
      if r.Success? {
        var prev, last := Gaps(offsets, n - 1, show).value, Gap(offsets, n - 1, show).value;
        assert r.value == prev + [last];
        forall i | 0 <= i < n
          ensures |r.value[i]| > 0
          ensures i + 1 < |offsets| ==> Sum(r.value[i]) == offsets[i + 1] - offsets[i]
          ensures i + 1 == |offsets| ==> r.value[i] == [1.0]
        {
          if i < n - 1 {
            assert r.value[i] == prev[i];
          } else {
            assert r.value[i] == last;
          }
        }
      }
    }
  }

  /** The first n gaps are computed exactly when none of the first n notes is followed by an earlier one. */
  lemma {:induction false} GapsSucceed(offsets: seq<real>, n: nat, show: real -> string)
    requires n <= |offsets|
    ensures Gaps(offsets, n, show).Success? <==> forall i :: 0 <= i < n && i + 1 < |offsets| ==> offsets[i] <= offsets[i + 1]
  {
    if n > 0 {
      GapsSucceed(offsets, n - 1, show);
      assert Gaps(offsets, n, show).Success? <==> Gaps(offsets, n - 1, show).Success? && Gap(offsets, n - 1, show).Success?;
      if Gaps(offsets, n - 1, show).Success? && !Gap(offsets, n - 1, show).Success? {
        assert n < |offsets| && offsets[n - 1] > offsets[n];
      }
    }
  }

  /** The loop's step: the next gap is computed, or its error ends the loop. */
  lemma GapsNext(offsets: seq<real>, i: nat, show: real -> string, gaps: seq<seq<real>>)
    requires i < |offsets| && Gaps(offsets, i, show) == Success(gaps)
    ensures Gap(offsets, i, show).Failure? ==> Gaps(offsets, i + 1, show) == Failure(Gap(offsets, i, show).error)
    ensures Gap(offsets, i, show).Success? ==> Gaps(offsets, i + 1, show) == Success(gaps + [Gap(offsets, i, show).value])
  {
  }

  /** Once a note starts before its predecessor, the rest of the loop is never reached. */
  lemma {:induction false} GapsStop(offsets: seq<real>, n: nat, m: nat, show: real -> string)
    requires n <= m <= |offsets|
    requires Gaps(offsets, n, show).Failure?
    ensures Gaps(offsets, m, show) == Gaps(offsets, n, show)
    decreases m
  {
    if m > n {
      GapsStop(offsets, n, m - 1, show);
    }
  }

  /** Each note followed by the rests of its gap, in note order. */
  function Layout(offsets: seq<real>, gaps: seq<seq<real>>): seq<Event>
    requires |gaps| <= |offsets| && forall i :: 0 <= i < |gaps| ==> |gaps[i]| > 0
  {
    if gaps == [] then []
    else Layout(offsets, gaps[..|gaps| - 1]) + Block(|gaps| - 1, offsets[|gaps| - 1], gaps[|gaps| - 1])
  }

  lemma LayoutNext(offsets: seq<real>, gaps: seq<seq<real>>, qls: seq<real>)
    requires |gaps| < |offsets| && (forall i :: 0 <= i < |gaps| ==> |gaps[i]| > 0) && |qls| > 0
    ensures Layout(offsets, gaps + [qls]) == Layout(offsets, gaps) + Block(|gaps|, offsets[|gaps|], qls)
  {
    assert (gaps + [qls])[..|gaps|] == gaps;
  }

  lemma HeadsSnoc(gaps: seq<seq<real>>, qls: seq<real>)
    requires (forall i :: 0 <= i < |gaps| ==> |gaps[i]| > 0) && |qls| > 0
    ensures Heads(gaps + [qls]) == Heads(gaps) + [qls[0]]
  {
  }

  /** The part _set_durations builds, or the error it raises. */
  function Tiling(offsets: seq<real>, show: real -> string): Result<seq<Event>> {
    match Gaps(offsets, |offsets|, show)
    case Failure(e) => Failure(e)
    case Success(gaps) => Success(Layout(offsets, gaps))
  }

  /** The first length of each gap: the length each note receives. */
  function Heads(gaps: seq<seq<real>>): seq<real>
    requires forall i :: 0 <= i < |gaps| ==> |gaps[i]| > 0
  {
    seq(|gaps|, i requires 0 <= i < |gaps| => gaps[i][0])
  }

  /** The note events of a part, in order: input position, offset and length. */
  function Notes(es: seq<Event>): seq<(nat, real, real)> {
    if es == [] then []
    else Notes(es[..|es| - 1]) + (match es[|es| - 1].note
      case Some(i) => [(i, es[|es| - 1].offset, es[|es| - 1].length)]
      case None => [])
  }

  lemma {:induction false} NotesAppend(a: seq<Event>, b: seq<Event>)
    ensures Notes(a + b) == Notes(a) + Notes(b)
    decreases |b|
  {
    if b != [] {
      var c := b[..|b| - 1];
      assert (a + b)[..|a + b| - 1] == a + c;
      assert (a + b)[|a + b| - 1] == b[|b| - 1];
      NotesAppend(a, c);
    } else {
      assert a + b == a;
    }
  }

  /** A block's only note is its first event. */
  lemma {:induction false} BlockNotes(i: nat, off: real, qls: seq<real>, k: nat)
    requires 0 < k <= |qls|
    ensures Notes(Block(i, off, qls)[..k]) == [(i, off, qls[0])]
  {
    BlockShape(i, off, qls);
    var b := Block(i, off, qls);
    if k > 1 {
      BlockNotes(i, off, qls, k - 1);
      assert b[..k][..k - 1] == b[..k - 1];
    } else {
      assert b[..1][..0] == [];
    }
  }

  /** Two runs of events that meet form one run without gap or overlap. */
  lemma ContiguousAppend(a: seq<Event>, b: seq<Event>)
    requires Contiguous(a) && Contiguous(b) && |b| > 0
    requires |a| > 0 ==> End(a[|a| - 1]) == b[0].offset
    ensures Contiguous(a + b)
  {
    var es := a + b;
    forall k | 0 <= k < |es| - 1
      ensures End(es[k]) == es[k + 1].offset
    {
      if k + 1 < |a| {
        assert es[k] == a[k] && es[k + 1] == a[k + 1];
      } else if k + 1 == |a| {
        assert es[k] == a[k] && es[k + 1] == b[0];
      } else {
        assert es[k] == b[k - |a|] && es[k + 1] == b[k + 1 - |a|];
      }
    }
  }

  /** The events of the first n notes follow each other without gap, from the first note on. */
  predicate Tiled(offsets: seq<real>, n: nat, es: seq<Event>)
    requires n <= |offsets|
  {
    && (n == 0 ==> es == [])
    && Contiguous(es)
    && (n > 0 ==> |es| > 0 && es[0].offset == offsets[0])
    && (0 < n < |offsets| ==> End(es[|es| - 1]) == offsets[n])
    && (n == |offsets| > 0 ==> es[|es| - 1] == Event(offsets[n - 1], 1.0, Some(n - 1)))
  }

  /** The notes among the events are the input notes in order, at their offsets, with their lengths. */
  predicate NotesKept(offsets: seq<real>, gaps: seq<seq<real>>, es: seq<Event>)
    requires Fits(offsets, gaps)
  {
    Notes(es) == seq(|gaps|, i requires 0 <= i < |gaps| => (i, offsets[i], gaps[i][0]))
  }

  /** What LayoutShape states about the events of the notes the gaps belong to. */
  predicate Shaped(offsets: seq<real>, gaps: seq<seq<real>>, es: seq<Event>)
    requires Fits(offsets, gaps)
  {
    Tiled(offsets, |gaps|, es) && NotesKept(offsets, gaps, es)
  }

  lemma TiledStep(offsets: seq<real>, gaps: seq<seq<real>>, prev: seq<Event>)
    requires Fits(offsets, gaps) && |gaps| > 0
    requires Tiled(offsets, |gaps| - 1, prev)
    ensures Tiled(offsets, |gaps|, prev + Block(|gaps| - 1, offsets[|gaps| - 1], gaps[|gaps| - 1]))
  {
    var n := |gaps|;
    var qls := gaps[n - 1];
    var b := Block(n - 1, offsets[n - 1], qls);
    BlockShape(n - 1, offsets[n - 1], qls);
    ContiguousAppend(prev, b);
    if n == |offsets| {
      assert qls == [1.0];
    }
  }

  lemma NotesStep(offsets: seq<real>, gaps: seq<seq<real>>, prev: seq<Event>)
    requires Fits(offsets, gaps) && |gaps| > 0
    requires Fits(offsets, gaps[..|gaps| - 1]) && NotesKept(offsets, gaps[..|gaps| - 1], prev)
    ensures NotesKept(offsets, gaps, prev + Block(|gaps| - 1, offsets[|gaps| - 1], gaps[|gaps| - 1]))
  {
    var n := |gaps|;
    var qls := gaps[n - 1];
    var b := Block(n - 1, offsets[n - 1], qls);
    NotesAppend(prev, b);
    BlockNotes(n - 1, offsets[n - 1], qls, |b|);
    assert b[..|b|] == b;
    var before := gaps[..n - 1];
    assert seq(n, i requires 0 <= i < n => (i, offsets[i], gaps[i][0]))
        == seq(n - 1, i requires 0 <= i < n - 1 => (i, offsets[i], before[i][0])) + [(n - 1, offsets[n - 1], qls[0])];
  }

  /**
   * The events start at the first note, follow each other without gap or overlap, hold every
   * note in order at its own offset with the first length of its gap, and end with the last
   * note lasting one beat.
   */
  lemma {:induction false} LayoutShape(offsets: seq<real>, gaps: seq<seq<real>>)
    requires Fits(offsets, gaps)
    ensures Shaped(offsets, gaps, Layout(offsets, gaps))
  {
    if gaps != [] {
      var before := gaps[..|gaps| - 1];
      assert Fits(offsets, before) by {
        assert forall i :: 0 <= i < |before| ==> before[i] == gaps[i];
      }
      LayoutShape(offsets, before);
      TiledStep(offsets, gaps, Layout(offsets, before));
      NotesStep(offsets, gaps, Layout(offsets, before));
    }
  }

  /** _set_durations succeeds exactly on offsets in order, and then its part has the shape above. */
  lemma SetDurationsShape(offsets: seq<real>, show: real -> string)
    ensures Tiling(offsets, show).Success? <==> forall i :: 0 <= i < |offsets| - 1 ==> offsets[i] <= offsets[i + 1]
    ensures Tiling(offsets, show).Success? ==>
              Fits(offsets, Gaps(offsets, |offsets|, show).value)
              && Shaped(offsets, Gaps(offsets, |offsets|, show).value, Tiling(offsets, show).value)
  {
    GapsFit(offsets, |offsets|, show);
    if Tiling(offsets, show).Success? {
      LayoutShape(offsets, Gaps(offsets, |offsets|, show).value);
    }
  }

  /** The gaps of two notes: the lengths between them, then one beat. */
  lemma TwoNoteGaps(offsets: seq<real>, qls: seq<real>, show: real -> string)
    requires |offsets| == 2 && FillSpace(offsets[0], offsets[1], show) == Success(qls)
    ensures Tiling(offsets, show) == Success(Block(0, offsets[0], qls) + Block(1, offsets[1], [1.0]))
  {
    var none: seq<seq<real>> := [];
    GapsNext(offsets, 0, show, none);
    assert none + [qls] == [qls];
    GapsNext(offsets, 1, show, [qls]);
    assert Gaps(offsets, 2, show) == Success([qls] + [[1.0]]);
    LayoutNext(offsets, none, qls);
    LayoutNext(offsets, [qls], [1.0]);
    assert Layout(offsets, none) == [];
    assert Layout(offsets, [qls]) == Block(0, offsets[0], qls);
    assert Tiling(offsets, show) == Success(Layout(offsets, [qls] + [[1.0]]));
  }

  /** The documented example with offsets 0 and 4: a whole note, then the last note. */
  lemma TilingWholeNote(show: real -> string)
    ensures Tiling([0.0, 4.0], show) == Success([Event(0.0, 4.0, Some(0)), Event(4.0, 1.0, Some(1))])
  {
    FillSpaceExample(show);
    TwoNoteGaps([0.0, 4.0], [4.0], show);
    assert Block(0, 0.0, [4.0]) == [Event(0.0, 4.0, Some(0))];
    assert Block(1, 4.0, [1.0]) == [Event(4.0, 1.0, Some(1))];
    assert [Event(0.0, 4.0, Some(0))] + [Event(4.0, 1.0, Some(1))] == [Event(0.0, 4.0, Some(0)), Event(4.0, 1.0, Some(1))];
  }

  /** The documented example with offsets 0 and 3: a half note, a quarter rest, then the last note. */
  lemma TilingWithRest(show: real -> string)
    ensures Tiling([0.0, 3.0], show)
            == Success([Event(0.0, 2.0, Some(0)), Event(2.0, 1.0, None), Event(3.0, 1.0, Some(1))])
  {
    FillSpaceExample(show);
    TwoNoteGaps([0.0, 3.0], [2.0, 1.0], show);
    assert [2.0, 1.0][1..1] == [];
    assert Block(0, 0.0, [2.0, 1.0]) == [Event(0.0, 2.0, Some(0)), Event(2.0, 1.0, None)];
    assert Block(1, 3.0, [1.0]) == [Event(3.0, 1.0, Some(1))];
    assert [Event(0.0, 2.0, Some(0)), Event(2.0, 1.0, None)] + [Event(3.0, 1.0, Some(1))]
        == [Event(0.0, 2.0, Some(0)), Event(2.0, 1.0, None), Event(3.0, 1.0, Some(1))];
  }

  /** The note at `off` and its rests, inserted one by one. */
  method PlaceBlock(i: nat, off: real, qls: seq<real>) returns (block: seq<Event>)
    requires |qls| > 0
    ensures block == Block(i, off, qls)
  {
    block := [Event(off, qls[0], Some(i))];
    for j := 0 to |qls| - 1
      invariant block == Block(i, off, qls)[..j + 1]
    {
      block := block + [Event(off + qls[0] + Sum(qls[1..j + 1]), qls[j + 1], None)];
    }
  }

  /** The lengths after note i: the next note is looked up, and the last note gets one beat. */
  method NextGap(offsets: seq<real>, i: nat, show: real -> string) returns (r: Result<seq<real>>)
    requires i < |offsets|
    ensures r == Gap(offsets, i, show)
  {
    if i + 1 < |offsets| {
      r := FillSpace(offsets[i], offsets[i + 1], show);
    } else {
      r := Success([1.0]);
    }
  }

  /**
   * _set_durations over the offsets of the notes of a part: writes each note's length into
   * `lengths` (the notes are changed in place) and returns the events of the new part.
   */
  method SetDurations(offsets: seq<real>, lengths: array<real>, show: real -> string) returns (r: Result<seq<Event>>, ghost stop: nat)
    requires lengths.Length == |offsets|
    modifies lengths
    ensures r == Tiling(offsets, show)
    ensures r.Success? ==> lengths[..] == Heads(Gaps(offsets, |offsets|, show).value)
    ensures r.Failure? ==> stop < |offsets| && Gaps(offsets, stop, show).Success? && Gap(offsets, stop, show).Failure?
    ensures r.Failure? ==> lengths[..stop] == Heads(Gaps(offsets, stop, show).value) && lengths[stop..] == old(lengths[..])[stop..]
  {
    var events: seq<Event> := [];
    ghost var gaps: seq<seq<real>> := [];
    for i := 0 to |offsets|
      invariant Gaps(offsets, i, show) == Success(gaps)
      invariant events == Layout(offsets, gaps)
      invariant lengths[..i] == Heads(gaps)
      invariant lengths[i..] == old(lengths[..])[i..]
    {
      var fill := NextGap(offsets, i, show);
      GapsNext(offsets, i, show, gaps);
      if fill.Failure? {
        GapsStop(offsets, i + 1, |offsets|, show);
        return Failure(fill.error), i;
      }
      var qls := fill.value;
      ghost var before := lengths[..i];
      ghost var after := lengths[i + 1..];
      lengths[i] := qls[0];
      assert lengths[..i + 1] == before + [qls[0]];
      assert lengths[i + 1..] == after;
      HeadsSnoc(gaps, qls);
      var block := PlaceBlock(i, offsets[i], qls);
      LayoutNext(offsets, gaps, qls);
      events := events + block;
      gaps := gaps + [qls];
    }
    assert lengths[..] == lengths[..|offsets|];
    return Success(events), |offsets|;
  }
}
