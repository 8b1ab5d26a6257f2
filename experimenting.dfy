// The experiments of models/experimenting.py: the two statistics experiments, which count
// interval and n-gram labels in a list of analysis records, and the two list experiments,
// which turn the records into spreadsheet rows.
module Experimenting {
  import opened Wrappers
  import opened PyStrings
  import opened PyValues
  import opened Music21
  import opened Sorting
  import opened Sorters
  import opened Statistics

  // ---------------------------------------------------------------------------
  // Analysis records and settings

  /** One event of an AnalysisRecord: its offset and the (lower, upper) pitch names. */
  datatype Event = Event(offset: real, lower: string, upper: string)

  type Record = seq<Event>

  /** One of the two parts is resting at this event. */
  predicate HasRest(e: Event) {
    e.lower == Rest || e.upper == Rest
  }

  /** An ExperimentSettings object: the settings it has, by name (settings.has(name) is membership). */
  type RawSettings = map<string, Value>

  function Setting(raw: RawSettings, name: string, default: Value): Value {
    if name in raw then raw[name] else default
  }

  /** _good_for: the class's default list, unless an output_format setting replaces it. */
  function GoodFor(raw: RawSettings, default: seq<Value>): seq<Value> {
    if "output_format" in raw then [raw["output_format"]] else default
  }

  const StatisticsDisplays := [VStr("StatisticsListDisplay"), VStr("StatisticsChartDisplay")]
  const ListDisplays := [VStr("SpreadsheetFile"), VStr("LilyPondAnnotated")]

  const IntervalsMessage := "IntervalsStatistics requires \"quality\" and \"simple_or_compound\" settings"
  const NgramsMessage := "IntervalNGramStatistics requires \"quality,\" \"simple or compound,\" and \"values_of_n\" settings"
  const ListsMessage := "IntervalsLists requires \"quality\" and \"simple_or_compound\" settings"

  /** The settings a statistics experiment reads once its constructor has filled in the defaults. */
  datatype StatSettings = StatSettings(
    quality: Value, size: Value, topX: Value, threshold: Value,
    sortOrder: Value, sortBy: Value, valuesOfN: Value)

  /**
   * The statistics constructors' check: a KeyError unless quality and simple_or_compound
   * (and, for the n-gram experiment, values_of_n) are set; then the defaults None, None,
   * 'descending' and 'frequency' for whichever of topX, threshold, sort_order and sort_by
   * is missing.
   */
  function CheckStatSettings(raw: RawSettings, needsN: bool, message: string): (r: Result<StatSettings>)
    ensures r.Failure? <==> "quality" !in raw || "simple_or_compound" !in raw || (needsN && "values_of_n" !in raw)
    ensures r.Failure? ==> r.error == KeyError(message)
    ensures r.Success? ==> r.value.quality == raw["quality"] && r.value.size == raw["simple_or_compound"]
    ensures r.Success? && needsN ==> r.value.valuesOfN == raw["values_of_n"]
    ensures r.Success? ==> r.value.topX == (if "topX" in raw then raw["topX"] else VNone)
    ensures r.Success? ==> r.value.threshold == (if "threshold" in raw then raw["threshold"] else VNone)
    ensures r.Success? ==> r.value.sortOrder == (if "sort_order" in raw then raw["sort_order"] else VStr("descending"))
    ensures r.Success? ==> r.value.sortBy == (if "sort_by" in raw then raw["sort_by"] else VStr("frequency"))
  {
    if "quality" !in raw || "simple_or_compound" !in raw || (needsN && "values_of_n" !in raw) then
      Failure(KeyError(message))
    else
      Success(StatSettings(
        raw["quality"], raw["simple_or_compound"],
        Setting(raw, "topX", VNone), Setting(raw, "threshold", VNone),
        Setting(raw, "sort_order", VStr("descending")), Setting(raw, "sort_by", VStr("frequency")),
        Setting(raw, "values_of_n", VNone)))
  }

  // ---------------------------------------------------------------------------
  // Interval labels

  /** How an interval is spelled for the given quality and simple_or_compound settings. */
  function Label(iv: Interval, quality: Value, size: Value): string {
    if Truthy(quality) then
      if size == VStr("simple") then iv.semiSimpleName else iv.name
    else
      if size == VStr("simple") then IntToString(iv.genericSemiSimpleDirected) else IntToString(iv.genericDirected)
  }

  /** Concatenation of two label lists, failing when either fails. */
  function Then(a: Option<seq<string>>, b: Option<seq<string>>): Option<seq<string>> {
    match a
    case None => None
    case Some(x) => (match b case None => None case Some(y) => Some(x + y))
  }

  /** The labels one event adds: none for a rest, else its interval's label; None when music21 raises. */
  function EventLabels(e: Event, f: IntervalOf, quality: Value, size: Value): Option<seq<string>> {
    if HasRest(e) then Some([])
    else match f(e.lower, e.upper)
      case None => None
      case Some(iv) => Some([Label(iv, quality, size)])
  }

  /** The labels of a record, event by event. */
  function RecordLabels(rec: Record, f: IntervalOf, quality: Value, size: Value): Option<seq<string>> {
    if rec == [] then Some([])
    else Then(RecordLabels(rec[..|rec| - 1], f, quality, size), EventLabels(rec[|rec| - 1], f, quality, size))
  }

  /** The labels of all the records, record by record: what IntervalsStatistics.perform counts. */
  function IntervalLabels(records: seq<Record>, f: IntervalOf, quality: Value, size: Value): Option<seq<string>> {
    if records == [] then Some([])
    else Then(IntervalLabels(records[..|records| - 1], f, quality, size), RecordLabels(records[|records| - 1], f, quality, size))
  }

  lemma {:induction false} RecordLabelsFail(rec: Record, j: nat, f: IntervalOf, quality: Value, size: Value)
    requires j <= |rec| && RecordLabels(rec[..j], f, quality, size).None?
    ensures RecordLabels(rec, f, quality, size).None?
  {
    if j < |rec| {
      var p := rec[..|rec| - 1];
      assert p[..j] == rec[..j];
      RecordLabelsFail(p, j, f, quality, size);
    } else {
      assert rec[..j] == rec;
    }
  }

  lemma {:induction false} IntervalLabelsFail(records: seq<Record>, k: nat, f: IntervalOf, quality: Value, size: Value)
    requires k <= |records| && IntervalLabels(records[..k], f, quality, size).None?
    ensures IntervalLabels(records, f, quality, size).None?
  {
    if k < |records| {
      var p := records[..|records| - 1];
      assert p[..k] == records[..k];
      IntervalLabelsFail(p, k, f, quality, size);
    } else {
      assert records[..k] == records;
    }
  }

  lemma IntervalLabelsStep(records: seq<Record>, k: nat, f: IntervalOf, quality: Value, size: Value, sofar: seq<string>)
    requires k < |records|
    requires IntervalLabels(records[..k], f, quality, size) == Some(sofar)
    ensures IntervalLabels(records[..k + 1], f, quality, size) == Then(Some(sofar), RecordLabels(records[k], f, quality, size))
  {
    assert records[..k + 1][..k] == records[..k];
  }

  lemma RecordLabelsStep(rec: Record, j: nat, f: IntervalOf, quality: Value, size: Value, sofar: seq<string>, one: seq<string>)
    requires j < |rec|
    requires RecordLabels(rec[..j], f, quality, size) == Some(sofar)
    requires EventLabels(rec[j], f, quality, size) == Some(one)
    ensures RecordLabels(rec[..j + 1], f, quality, size) == Some(sofar + one)
  {
    assert rec[..j + 1][..j] == rec[..j];
  }

  /** The events without a rest. */
  function Sounding(rec: Record): (r: Record)
    ensures |r| <= |rec|
  {
    if rec == [] then []
    else Sounding(rec[..|rec| - 1]) + (if HasRest(rec[|rec| - 1]) then [] else [rec[|rec| - 1]])
  }

  /**
   * Simultaneities with a rest are never counted: a record's labels are those of its
   * events without a rest, one label each, in order.
   */
  lemma {:induction false} RecordLabelsSounding(rec: Record, f: IntervalOf, quality: Value, size: Value)
    requires RecordLabels(rec, f, quality, size).Some?
    ensures |RecordLabels(rec, f, quality, size).value| == |Sounding(rec)|
    ensures forall k :: 0 <= k < |Sounding(rec)| ==>
      f(Sounding(rec)[k].lower, Sounding(rec)[k].upper).Some? &&
      RecordLabels(rec, f, quality, size).value[k] == Label(f(Sounding(rec)[k].lower, Sounding(rec)[k].upper).value, quality, size)
  {
    if rec != [] {
      var p, e := rec[..|rec| - 1], rec[|rec| - 1];
      RecordLabelsSounding(p, f, quality, size);
    }
  }

  // ---------------------------------------------------------------------------
  // What a statistics experiment reports

  /** The (key, count) pairs built in step (5). */
  function Rows(keys: seq<string>, m: map<string, nat>): (r: seq<(string, nat)>)
    ensures |r| == |keys|
    ensures forall i :: 0 <= i < |keys| ==> r[i] == (keys[i], CountOf(m, keys[i]))
  {
    if keys == [] then [] else Rows(keys[..|keys| - 1], m) + [(keys[|keys| - 1], CountOf(m, keys[|keys| - 1]))]
  }

  /** Steps (2) to (4) of perform() on the labels step (1) found: the keys to report. */
  function Selected(labels: seq<string>, st: StatSettings, nameCmp: Cmp<string>): Result<seq<string>> {
    Selection(Tally(labels), FirstSeen(labels), st.topX, st.threshold, st.sortOrder, st.sortBy, nameCmp)
  }

  /** Steps (2) to (5) of perform() on the labels step (1) found, sorting names by nameCmp. */
  function Report(labels: seq<string>, st: StatSettings, nameCmp: Cmp<string>): Result<seq<(string, nat)>> {
    match Selected(labels, st, nameCmp)
    case Failure(e) => Failure(e)
    case Success(keys) => Success(Rows(keys, Tally(labels)))
  }

  /** The filtered and sorted keys are keys of the dictionary. */
  lemma SelectionKeys(labels: seq<string>, st: StatSettings, nameCmp: Cmp<string>)
    requires Selected(labels, st, nameCmp).Success?
    ensures forall x :: x in Selected(labels, st, nameCmp).value ==> x in labels && x in Tally(labels)
  {
    var m, order := Tally(labels), FirstSeen(labels);
    var keys := TopKeys(m, order, st.topX, st.threshold).value;
    TopKeysSubset(m, order, st.topX, st.threshold);
    FirstSeenCounters(labels);
    TallyCounts(labels);
    forall x | x in Selection(m, order, st.topX, st.threshold, st.sortOrder, st.sortBy, nameCmp).value
      ensures x in labels && x in m
    {
      assert x in multiset(keys);
      assert x in multiset(order);
    }
  }

  /** Every reported pair is a label that occurred, with the number of times it occurred. */
  lemma ReportCounts(labels: seq<string>, st: StatSettings, nameCmp: Cmp<string>)
    requires Report(labels, st, nameCmp).Success?
    ensures forall r :: r in Report(labels, st, nameCmp).value ==>
      r.0 in labels && r.1 == multiset(labels)[r.0] && r.1 >= 1
  {
    SelectionKeys(labels, st, nameCmp);
    TallyCounts(labels);
    var keys := Selected(labels, st, nameCmp).value;
    forall r | r in Report(labels, st, nameCmp).value
      ensures r.0 in labels && r.1 == multiset(labels)[r.0] && r.1 >= 1
    {
      var i :| 0 <= i < |keys| && r == Rows(keys, Tally(labels))[i];
      assert keys[i] in keys;
    }
  }

  /** Without topX and threshold every label that occurred is reported once the sort succeeds. */
  lemma ReportAll(labels: seq<string>, st: StatSettings, nameCmp: Cmp<string>, x: string)
    requires st.topX == VNone && st.threshold == VNone
    requires Report(labels, st, nameCmp).Success? && x in labels
    ensures (x, multiset(labels)[x]) in Report(labels, st, nameCmp).value
  {
    var m, order := Tally(labels), FirstSeen(labels);
    SelectionKeepsAll(m, order, st.sortOrder, st.sortBy, nameCmp);
    FirstSeenCounters(labels);
    TallyCounts(labels);
    var keys := Selection(m, order, VNone, VNone, st.sortOrder, st.sortBy, nameCmp).value;
    assert x in m;
    assert x in multiset(order);
    assert x in multiset(keys);
    var i :| 0 <= i < |keys| && keys[i] == x;
    assert Rows(keys, m)[i] == (x, multiset(labels)[x]);
  }

  /** Sorted by frequency the report succeeds whenever the filter does, and its counts are in order. */
  lemma ReportByFrequency(labels: seq<string>, st: StatSettings, nameCmp: Cmp<string>)
    requires st.sortBy == VStr("frequency")
    requires TopKeys(Tally(labels), FirstSeen(labels), st.topX, st.threshold).Success?
    ensures Report(labels, st, nameCmp).Success?
    ensures st.sortOrder == VStr("ascending") ==> forall i :: 0 <= i < |Report(labels, st, nameCmp).value| - 1 ==>
      Report(labels, st, nameCmp).value[i].1 <= Report(labels, st, nameCmp).value[i + 1].1
    ensures st.sortOrder != VStr("ascending") ==> forall i :: 0 <= i < |Report(labels, st, nameCmp).value| - 1 ==>
      Report(labels, st, nameCmp).value[i].1 >= Report(labels, st, nameCmp).value[i + 1].1
  {
    var m, order := Tally(labels), FirstSeen(labels);
    SelectionSorted(m, order, st.topX, st.threshold, st.sortOrder, st.sortBy, nameCmp);
    var keys := Selection(m, order, st.topX, st.threshold, st.sortOrder, st.sortBy, nameCmp).value;
    var cmp := FinalCmp(m, st.sortOrder, st.sortBy, nameCmp);
    forall i | 0 <= i < |keys| - 1
      ensures st.sortOrder == VStr("ascending") ==> CountOf(m, keys[i]) <= CountOf(m, keys[i + 1])
      ensures st.sortOrder != VStr("ascending") ==> CountOf(m, keys[i]) >= CountOf(m, keys[i + 1])
    {
      assert Le(cmp, keys[i], keys[i + 1]);
    }
  }

  // ---------------------------------------------------------------------------
  // IntervalsStatistics

  class IntervalsStatistics {
    const records: seq<Record>
    const settings: StatSettings
    const goodFor: seq<Value>
    /** _intervals: the number of occurrences of each label. */
    var intervals: map<string, nat>
    /** The keys of _intervals in insertion order. */
    var order: seq<string>
    /** _keys: the filtered and sorted keys. */
    var keys: seq<string>

    constructor (records: seq<Record>, settings: StatSettings, goodFor: seq<Value>)
      ensures this.records == records && this.settings == settings && this.goodFor == goodFor
      ensures intervals == map[] && order == [] && keys == []
    {
      this.records := records;
      this.settings := settings;
      this.goodFor := goodFor;
      intervals := map[];
      order := [];
      keys := [];
    }

    /** IntervalsStatistics(controller, records, settings): the KeyError check, the defaults and output_format. */
    static method Create(records: seq<Record>, raw: RawSettings) returns (r: Result<IntervalsStatistics>)
      ensures r.Failure? <==> CheckStatSettings(raw, false, IntervalsMessage).Failure?
      ensures r.Failure? ==> r.error == KeyError(IntervalsMessage)
      ensures r.Success? ==> fresh(r.value) && r.value.records == records
      ensures r.Success? ==> r.value.settings == CheckStatSettings(raw, false, IntervalsMessage).value
      ensures r.Success? ==> r.value.goodFor == GoodFor(raw, StatisticsDisplays)
    {
      var st := CheckStatSettings(raw, false, IntervalsMessage);
      if st.Failure? {
        return Failure(st.error);
      }
      var x := new IntervalsStatistics(records, st.value, GoodFor(raw, StatisticsDisplays));
      r := Success(x);
    }

    /** _add_interval: one more occurrence of interv; a new key goes to the end of the key order. */
    method AddInterval(interv: string)
      modifies this
      ensures intervals == Bump(old(intervals), interv)
      ensures order == if interv in old(intervals) then old(order) else old(order) + [interv]
      ensures keys == old(keys)
    {
      if interv in intervals {
        intervals := intervals[interv := intervals[interv] + 1];
      } else {
        intervals := intervals[interv := 1];
        order := order + [interv];
      }
    }

    /** Step (1) for one event: nothing for a rest, else its label, unless music21 raises. */
    method AddEvent(e: Event, f: IntervalOf, ghost done: seq<string>) returns (ok: bool, ghost added: seq<string>)
      requires intervals == Tally(done) && order == FirstSeen(done)
      modifies this
      ensures !ok ==> EventLabels(e, f, settings.quality, settings.size) == None
      ensures ok ==> EventLabels(e, f, settings.quality, settings.size) == Some(added)
      ensures ok ==> intervals == Tally(done + added) && order == FirstSeen(done + added)
      ensures keys == old(keys)
    {
      added := [];
      if HasRest(e) {
        assert done + added == done;
        return true, added;
      }
      var iv := f(e.lower, e.upper);
      if iv.None? {
        return false, added;
      }
      var text := Label(iv.value, settings.quality, settings.size);
      TallyAppend(done, text);
      AddInterval(text);
      added := [text];
      ok := true;
    }

    /** Step (1) for one record: its labels are added in turn, or music21 raises. */
    method AddRecord(rec: Record, f: IntervalOf, ghost done: seq<string>) returns (ok: bool, ghost sofar: seq<string>)
      requires intervals == Tally(done) && order == FirstSeen(done)
      modifies this
      ensures !ok ==> RecordLabels(rec, f, settings.quality, settings.size) == None
      ensures ok ==> RecordLabels(rec, f, settings.quality, settings.size) == Some(sofar)
      ensures ok ==> intervals == Tally(done + sofar) && order == FirstSeen(done + sofar)
      ensures keys == old(keys)
    {
      sofar := [];
      assert done + sofar == done;
      var j := 0;
      while j < |rec|
        invariant 0 <= j <= |rec| && keys == old(keys)
        invariant RecordLabels(rec[..j], f, settings.quality, settings.size) == Some(sofar)
        invariant intervals == Tally(done + sofar) && order == FirstSeen(done + sofar)
      {
        var added, one := AddEvent(rec[j], f, done + sofar);
        if !added {
          assert rec[..j + 1][..j] == rec[..j];
          RecordLabelsFail(rec, j + 1, f, settings.quality, settings.size);
          return false, sofar;
        }
        RecordLabelsStep(rec, j, f, settings.quality, settings.size, sofar, one);
        ConcatAssoc(done, sofar, one);
        sofar := sofar + one;
        j := j + 1;
      }
      assert rec[..j] == rec;
      ok := true;
    }

    /**
     * perform(): count the labels of the events without a rest, then filter, sort and
     * report them; a pitch that music21 cannot read raises.
     */
    method Perform(f: IntervalOf) returns (post: Result<seq<(string, nat)>>)
      modifies this
      ensures match IntervalLabels(records, f, settings.quality, settings.size)
        case None => post == Failure(PitchException)
        case Some(labels) =>
          intervals == Tally(labels) && order == FirstSeen(labels) && post == Report(labels, settings, IntervalSorter)
      ensures post.Success? ==> post.value == Rows(keys, intervals)
    {
      intervals := map[];
      order := [];
      keys := [];
      ghost var done: seq<string> := [];
      var k := 0;
      while k < |records|
        invariant 0 <= k <= |records|
        invariant IntervalLabels(records[..k], f, settings.quality, settings.size) == Some(done)
        invariant intervals == Tally(done) && order == FirstSeen(done)
      {
        var ok, added := AddRecord(records[k], f, done);
        if !ok {
          IntervalLabelsStep(records, k, f, settings.quality, settings.size, done);
          IntervalLabelsFail(records, k + 1, f, settings.quality, settings.size);
          return Failure(PitchException);
        }
        IntervalLabelsStep(records, k, f, settings.quality, settings.size, done);
        done := done + added;
        k := k + 1;
      }
      assert records[..k] == records;
      post := Finish(f);
    }

    /** Steps (2) to (5) on the counted labels. */
    method Finish(ghost f: IntervalOf) returns (post: Result<seq<(string, nat)>>)
      requires IntervalLabels(records, f, settings.quality, settings.size).Some?
      requires intervals == Tally(IntervalLabels(records, f, settings.quality, settings.size).value)
      requires order == FirstSeen(IntervalLabels(records, f, settings.quality, settings.size).value)
      modifies this
      ensures intervals == old(intervals) && order == old(order)
      ensures post == Report(IntervalLabels(records, f, settings.quality, settings.size).value, settings, IntervalSorter)
      ensures post.Success? ==> post.value == Rows(keys, intervals)
    {
      ghost var labels := IntervalLabels(records, f, settings.quality, settings.size).value;
      var sel := FilterAndSort(intervals, order, settings.topX, settings.threshold,
                               settings.sortOrder, settings.sortBy, IntervalSorter);
      if sel.Failure? {
        return Failure(sel.error);
      }
      keys := sel.value;
      SelectionKeys(labels, settings, IntervalSorter);
      var rows: seq<(string, nat)> := [];
      var i := 0;
      while i < |keys|
        invariant 0 <= i <= |keys|
        invariant rows == Rows(keys[..i], intervals)
      {
        assert keys[i] in keys;
        assert keys[..i + 1][..i] == keys[..i];
        rows := rows + [(keys[i], intervals[keys[i]])];
        i := i + 1;
      }
      assert keys[..i] == keys;
      post := Success(rows);
    }
  }

  // ---------------------------------------------------------------------------
  // N-gram windows

  /** ngram.IntervalNGram(intervals).get_string_version(quality, size); the ngram module is not part of this model. */
  type NgramText = (seq<Interval>, Value, Value) -> string

  /** The end xrange() takes: an int, or a bool as 0 or 1; anything else is a TypeError. */
  predicate IsEnd(v: Value) {
    v.VInt? || v.VBool?
  }

  function EndOf(v: Value): int
    requires IsEnd(v)
  {
    if v.VInt? then v.i else if v.b then 1 else 0
  }

  /** How many vertical intervals an n-gram of this n holds: xrange(1, n) adds n - 1 to the first. */
  function Span(n: int): nat {
    if n < 1 then 1 else n
  }

  /**
   * intervals_this_n after the j loop has run up to (not including) j == k: None when
   * music21 raises, Some(None) once the kill switch is set because event i + j is past the
   * end of the record or has a rest, else the intervals of events i .. i + k - 1.
   */
  function WindowUpTo(rec: Record, i: nat, k: nat, f: IntervalOf): Option<Option<seq<Interval>>>
    requires i < |rec| && k >= 1
  {
    if k == 1 then
      match f(rec[i].lower, rec[i].upper) case None => None case Some(iv) => Some(Some([iv]))
    else
      match WindowUpTo(rec, i, k - 1, f)
      case None => None
      case Some(None) => Some(None)
      case Some(Some(ivs)) =>
        if i + (k - 1) >= |rec| || HasRest(rec[i + (k - 1)]) then Some(None)
        else match f(rec[i + (k - 1)].lower, rec[i + (k - 1)].upper)
          case None => None
          case Some(iv) => Some(Some(ivs + [iv]))
  }

  /** The window of an n-gram of this n starting at event i. */
  function Window(rec: Record, i: nat, n: int, f: IntervalOf): Option<Option<seq<Interval>>>
    requires i < |rec|
  {
    WindowUpTo(rec, i, Span(n), f)
  }

  /** A value of n that xrange() refuses: the first interval is built, then xrange raises TypeError. */
  function BadEnd(rec: Record, i: nat, f: IntervalOf): Error
    requires i < |rec|
  {
    if f(rec[i].lower, rec[i].upper).None? then PitchException else TypeError
  }

  /** Two steps in turn: the first one's exception, else the second's, else both results in order. */
  function Chain(a: Result<seq<string>>, b: Result<seq<string>>): Result<seq<string>> {
    match a
    case Failure(e) => Failure(e)
    case Success(x) => (match b case Failure(e) => Failure(e) case Success(y) => Success(x + y))
  }

  /** The loop over the sorted values of n for start i, leaving it at the first window the kill switch stops. */
  function NgramsFrom(rec: Record, i: nat, ns: seq<Value>, f: IntervalOf, text: NgramText, quality: Value, size: Value): Result<seq<string>>
    requires i < |rec|
  {
    if ns == [] then Success([])
    else if !IsEnd(ns[0]) then Failure(BadEnd(rec, i, f))
    else match Window(rec, i, EndOf(ns[0]), f)
      case None => Failure(PitchException)
      case Some(None) => Success([])
      case Some(Some(ivs)) => Chain(Success([text(ivs, quality, size)]), NgramsFrom(rec, i, ns[1..], f, text, quality, size))
  }

  /** The n-grams starting at event i: none when it has a rest. */
  function StartNgrams(rec: Record, i: nat, ns: seq<Value>, f: IntervalOf, text: NgramText, quality: Value, size: Value): Result<seq<string>>
    requires i < |rec|
  {
    if HasRest(rec[i]) then Success([]) else NgramsFrom(rec, i, ns, f, text, quality, size)
  }

  /** The n-grams of the first k start indices of a record. */
  function RecordNgrams(rec: Record, k: nat, ns: seq<Value>, f: IntervalOf, text: NgramText, quality: Value, size: Value): Result<seq<string>>
    requires k <= |rec|
  {
    if k == 0 then Success([])
    else Chain(RecordNgrams(rec, k - 1, ns, f, text, quality, size), StartNgrams(rec, k - 1, ns, f, text, quality, size))
  }

  /** The n-grams of all the records: what IntervalNGramStatistics.perform counts. */
  function NgramLabels(records: seq<Record>, ns: seq<Value>, f: IntervalOf, text: NgramText, quality: Value, size: Value): Result<seq<string>> {
    if records == [] then Success([])
    else
      var last := records[|records| - 1];
      Chain(NgramLabels(records[..|records| - 1], ns, f, text, quality, size), RecordNgrams(last, |last|, ns, f, text, quality, size))
  }

  /** An intact window holds the intervals of max(n, 1) consecutive events, every one after the first without a rest. */
  lemma {:induction false} WindowIntact(rec: Record, i: nat, k: nat, f: IntervalOf, ivs: seq<Interval>)
    requires i < |rec| && k >= 1 && WindowUpTo(rec, i, k, f) == Some(Some(ivs))
    ensures |ivs| == k && i + k <= |rec|
    ensures forall j :: i < j < i + k ==> !HasRest(rec[j])
    ensures forall j :: 0 <= j < k ==> f(rec[i + j].lower, rec[i + j].upper) == Some(ivs[j])
  {
    if k > 1 {
      var prev :| WindowUpTo(rec, i, k - 1, f) == Some(Some(prev)) && ivs == prev + [f(rec[i + k - 1].lower, rec[i + k - 1].upper).value];
      WindowIntact(rec, i, k - 1, f, prev);
    }
  }

  /**
   * When music21 does not raise, the kill switch is set exactly when the events i + 1 ..
   * i + max(n, 1) - 1 do not all exist without a rest.
   */
  lemma {:induction false} WindowKilled(rec: Record, i: nat, k: nat, f: IntervalOf)
    requires i < |rec| && k >= 1 && WindowUpTo(rec, i, k, f).Some?
    ensures WindowUpTo(rec, i, k, f) == Some(None) <==>
      !(i + k <= |rec| && forall j :: i < j < i + k ==> !HasRest(rec[j]))
  {
    if k > 1 {
      WindowKilled(rec, i, k - 1, f);
      if WindowUpTo(rec, i, k, f).value.Some? {
        WindowIntact(rec, i, k, f, WindowUpTo(rec, i, k, f).value.value);
      } else if WindowUpTo(rec, i, k - 1, f) != Some(None) {
        assert WindowUpTo(rec, i, k - 1, f).value.Some?;
        assert !(i + k <= |rec| && !HasRest(rec[i + (k - 1)]));
      }
    }
  }

  /** Once the kill switch is set or music21 has raised for some n, the same holds for every larger n. */
  lemma {:induction false} WindowStops(rec: Record, i: nat, k: nat, k': nat, f: IntervalOf)
    requires i < |rec| && 1 <= k <= k'
    requires WindowUpTo(rec, i, k, f) == None || WindowUpTo(rec, i, k, f) == Some(None)
    ensures WindowUpTo(rec, i, k', f) == WindowUpTo(rec, i, k, f)
    decreases k' - k
  {
    if k < k' {
      WindowStops(rec, i, k, k' - 1, f);
    }
  }

  /** Every value of n is tried, a killed window adding nothing: the loop without its break. */
  function EveryWindow(rec: Record, i: nat, ns: seq<Value>, f: IntervalOf, text: NgramText, quality: Value, size: Value): Result<seq<string>>
    requires i < |rec|
  {
    if ns == [] then Success([])
    else if !IsEnd(ns[0]) then Failure(BadEnd(rec, i, f))
    else match Window(rec, i, EndOf(ns[0]), f)
      case None => Failure(PitchException)
      case Some(None) => EveryWindow(rec, i, ns[1..], f, text, quality, size)
      case Some(Some(ivs)) => Chain(Success([text(ivs, quality, size)]), EveryWindow(rec, i, ns[1..], f, text, quality, size))
  }

  /** Values of n that xrange() accepts, lowest to highest. */
  predicate Ascending(ns: seq<Value>) {
    (forall a :: 0 <= a < |ns| ==> IsEnd(ns[a])) &&
    forall a, b :: 0 <= a < b < |ns| ==> EndOf(ns[a]) <= EndOf(ns[b])
  }

  lemma {:induction false} EveryWindowKilled(rec: Record, i: nat, ns: seq<Value>, n: int, f: IntervalOf, text: NgramText, quality: Value, size: Value)
    requires i < |rec| && Window(rec, i, n, f) == Some(None)
    requires forall a :: 0 <= a < |ns| ==> IsEnd(ns[a]) && n <= EndOf(ns[a])
    ensures EveryWindow(rec, i, ns, f, text, quality, size) == Success([])
  {
    if ns != [] {
      WindowStops(rec, i, Span(n), Span(EndOf(ns[0])), f);
      EveryWindowKilled(rec, i, ns[1..], n, f, text, quality, size);
    }
  }

  /**
   * Because values_of_n is sorted, the break at the first killed window loses nothing:
   * every larger n would be killed too.
   */
  lemma {:induction false} KillSwitchLosesNothing(rec: Record, i: nat, ns: seq<Value>, f: IntervalOf, text: NgramText, quality: Value, size: Value)
    requires i < |rec| && Ascending(ns)
    ensures NgramsFrom(rec, i, ns, f, text, quality, size) == EveryWindow(rec, i, ns, f, text, quality, size)
  {
    if ns != [] {
      assert IsEnd(ns[0]);
      match Window(rec, i, EndOf(ns[0]), f)
      case None =>
      case Some(None) =>
        EveryWindowKilled(rec, i, ns[1..], EndOf(ns[0]), f, text, quality, size);
      case Some(Some(ivs)) =>
        KillSwitchLosesNothing(rec, i, ns[1..], f, text, quality, size);
    }
  }

  lemma {:induction false} RecordNgramsFail(rec: Record, k: nat, k': nat, ns: seq<Value>, f: IntervalOf, text: NgramText, quality: Value, size: Value)
    requires k <= k' <= |rec| && RecordNgrams(rec, k, ns, f, text, quality, size).Failure?
    ensures RecordNgrams(rec, k', ns, f, text, quality, size) == RecordNgrams(rec, k, ns, f, text, quality, size)
    decreases k' - k
  {
    if k < k' {
      RecordNgramsFail(rec, k, k' - 1, ns, f, text, quality, size);
    }
  }

  lemma {:induction false} NgramLabelsFail(records: seq<Record>, k: nat, ns: seq<Value>, f: IntervalOf, text: NgramText, quality: Value, size: Value)
    requires k <= |records| && NgramLabels(records[..k], ns, f, text, quality, size).Failure?
    ensures NgramLabels(records, ns, f, text, quality, size) == NgramLabels(records[..k], ns, f, text, quality, size)
  {
    if k < |records| {
      var p := records[..|records| - 1];
      assert p[..k] == records[..k];
      NgramLabelsFail(p, k, ns, f, text, quality, size);
    } else {
      assert records[..k] == records;
    }
  }

  /** Python 2's cmp() on setting values, as sorted() uses it. */
  function PyCmp(): Cmp<Value> {
    (a: Value, b: Value) => Some(Py2Cmp(a, b))
  }

  /** The one-character strings iterating over a string gives. */
  function Chars(s: string): seq<Value> {
    seq(|s|, k requires 0 <= k < |s| => VStr([s[k]]))
  }

  /**
   * sorted(values_of_n): a list or a string is sorted by Python 2's cmp; None, a bool, an
   * int or a float is not iterable, a TypeError.
   */
  function SortedN(v: Value): Result<seq<Value>> {
    match v
    case VList(items) =>
      (match Sort(items, PyCmp())
       case None => Failure(TypeError) // Python 2's cmp always answers, see SortedNSpec
       case Some(sorted) => Success(sorted))
    case VStr(s) =>
      (match Sort(Chars(s), PyCmp())
       case None => Failure(TypeError)
       case Some(sorted) => Success(sorted))
    case _ => Failure(TypeError)
  }

  lemma PyCmpConsistent(u: seq<Value>)
    ensures Consistent(PyCmp(), u)
  {
    forall a, b | a in u && b in u ensures PyCmp()(a, b).Some? && (PyCmp()(a, b).value > 0 ==> Le(PyCmp(), b, a)) {
      Py2CmpAntisymmetric(a, b);
    }
  }

  lemma {:induction false} SortedAscending(ns: seq<Value>, a: nat, b: nat)
    requires Sorted(ns, PyCmp()) && a <= b < |ns|
    requires forall c :: 0 <= c < |ns| ==> IsEnd(ns[c])
    ensures EndOf(ns[a]) <= EndOf(ns[b])
    decreases b - a
  {
    if a < b {
      assert Le(PyCmp(), ns[a], ns[a + 1]);
      assert IsEnd(ns[a]) && IsEnd(ns[a + 1]);
      SortedAscending(ns, a + 1, b);
    }
  }

  /**
   * sorted(values_of_n) of a list never raises, keeps its elements and puts them in Python 2's
   * order; a list of ints and bools comes out lowest to highest.
   */
  lemma SortedNSpec(items: seq<Value>)
    ensures SortedN(VList(items)).Success?
    ensures multiset(SortedN(VList(items)).value) == multiset(items)
    ensures Sorted(SortedN(VList(items)).value, PyCmp())
    ensures (forall a :: 0 <= a < |items| ==> IsEnd(items[a])) ==> Ascending(SortedN(VList(items)).value)
  {
    PyCmpConsistent(items);
    SortSorted(items, PyCmp(), items);
    var sorted := Sort(items, PyCmp()).value;
    if forall a :: 0 <= a < |items| ==> IsEnd(items[a]) {
      forall c | 0 <= c < |sorted| ensures IsEnd(sorted[c]) {
        assert sorted[c] in multiset(items);
        var a :| 0 <= a < |items| && items[a] == sorted[c];
      }
      forall a, b | 0 <= a < b < |sorted| ensures EndOf(sorted[a]) <= EndOf(sorted[b]) {
        SortedAscending(sorted, a, b);
      }
    }
  }

  // ---------------------------------------------------------------------------
  // IntervalNGramStatistics

  /** The j loop of perform(): the window of an n-gram of this n from start i, or the kill switch. */
  method BuildWindow(rec: Record, i: nat, n: int, f: IntervalOf) returns (w: Option<Option<seq<Interval>>>)
    requires i < |rec|
    ensures w == Window(rec, i, n, f)
  {
    var first := f(rec[i].lower, rec[i].upper);
    if first.None? {
      WindowStops(rec, i, 1, Span(n), f);
      return None;
    }
    var intervals := [first.value];
    var j := 1;
    while j < n
      invariant 1 <= j <= Span(n)
      invariant WindowUpTo(rec, i, j, f) == Some(Some(intervals))
    {
      if i + j > |rec| - 1 || HasRest(rec[i + j]) {
        WindowStops(rec, i, j + 1, Span(n), f);
        return Some(None);
      }
      var iv := f(rec[i + j].lower, rec[i + j].upper);
      if iv.None? {
        WindowStops(rec, i, j + 1, Span(n), f);
        return None;
      }
      intervals := intervals + [iv.value];
      j := j + 1;
    }
    w := Some(Some(intervals));
  }

  class IntervalNGramStatistics {
    const records: seq<Record>
    const settings: StatSettings
    const goodFor: seq<Value>
    /** _ngrams: the number of occurrences of each n-gram. */
    var ngrams: map<string, nat>
    /** The keys of _ngrams in insertion order. */
    var order: seq<string>
    /** _keys: the filtered and sorted keys. */
    var keys: seq<string>

    constructor (records: seq<Record>, settings: StatSettings, goodFor: seq<Value>)
      ensures this.records == records && this.settings == settings && this.goodFor == goodFor
      ensures ngrams == map[] && order == [] && keys == []
    {
      this.records := records;
      this.settings := settings;
      this.goodFor := goodFor;
      ngrams := map[];
      order := [];
      keys := [];
    }

    /** IntervalNGramStatistics(controller, records, settings): values_of_n is required as well. */
    static method Create(records: seq<Record>, raw: RawSettings) returns (r: Result<IntervalNGramStatistics>)
      ensures r.Failure? <==> CheckStatSettings(raw, true, NgramsMessage).Failure?
      ensures r.Failure? ==> r.error == KeyError(NgramsMessage)
      ensures r.Success? ==> fresh(r.value) && r.value.records == records
      ensures r.Success? ==> r.value.settings == CheckStatSettings(raw, true, NgramsMessage).value
      ensures r.Success? ==> r.value.goodFor == GoodFor(raw, StatisticsDisplays)
    {
      var st := CheckStatSettings(raw, true, NgramsMessage);
      if st.Failure? {
        return Failure(st.error);
      }
      var x := new IntervalNGramStatistics(records, st.value, GoodFor(raw, StatisticsDisplays));
      r := Success(x);
    }

    /** _add_ngram: one more occurrence of an n-gram; a new key goes to the end of the key order. */
    method AddNgram(interv: string)
      modifies this
      ensures ngrams == Bump(old(ngrams), interv)
      ensures order == if interv in old(ngrams) then old(order) else old(order) + [interv]
      ensures keys == old(keys)
    {
      if interv in ngrams {
        ngrams := ngrams[interv := ngrams[interv] + 1];
      } else {
        ngrams := ngrams[interv := 1];
        order := order + [interv];
      }
    }

    /** The loop over the values of n for start i, with its break on the kill switch. */
    method AddStart(rec: Record, i: nat, ns: seq<Value>, f: IntervalOf, text: NgramText, ghost done: seq<string>)
      returns (err: Option<Error>, ghost added: seq<string>)
      requires i < |rec| && ngrams == Tally(done) && order == FirstSeen(done)
      modifies this
      ensures err.Some? ==> StartNgrams(rec, i, ns, f, text, settings.quality, settings.size) == Failure(err.value)
      ensures err.None? ==> StartNgrams(rec, i, ns, f, text, settings.quality, settings.size) == Success(added)
      ensures err.None? ==> ngrams == Tally(done + added) && order == FirstSeen(done + added)
      ensures keys == old(keys)
    {
      added := [];
      if HasRest(rec[i]) {
        assert done + [] == done;
        return None, added;
      }
      err := AddWindows(rec, i, ns, f, text, done);
      if err.None? {
        added := NgramsFrom(rec, i, ns, f, text, settings.quality, settings.size).value;
      }
    }

    /** The n loop proper, for a start without a rest. */
    method AddWindows(rec: Record, i: nat, ns: seq<Value>, f: IntervalOf, text: NgramText, ghost done: seq<string>)
      returns (err: Option<Error>)
      requires i < |rec| && ngrams == Tally(done) && order == FirstSeen(done)
      modifies this
      ensures err.Some? ==> NgramsFrom(rec, i, ns, f, text, settings.quality, settings.size) == Failure(err.value)
      ensures err.None? ==> NgramsFrom(rec, i, ns, f, text, settings.quality, settings.size).Success?
      ensures err.None? ==> ngrams == Tally(done + NgramsFrom(rec, i, ns, f, text, settings.quality, settings.size).value)
      ensures err.None? ==> order == FirstSeen(done + NgramsFrom(rec, i, ns, f, text, settings.quality, settings.size).value)
      ensures keys == old(keys)
    {
      var quality, size := settings.quality, settings.size;
      ghost var whole := NgramsFrom(rec, i, ns, f, text, quality, size);
      ghost var added: seq<string> := [];
      var t := 0;
      assert ns[0..] == ns;
      assert done + added == done;
      ChainEmpty(whole);
      while t < |ns|
        invariant 0 <= t <= |ns| && keys == old(keys)
        invariant whole == Chain(Success(added), NgramsFrom(rec, i, ns[t..], f, text, quality, size))
        invariant ngrams == Tally(done + added) && order == FirstSeen(done + added)
      {
        assert ns[t..][1..] == ns[t + 1..];
        var raised, stop, gram := AddWindow(rec, i, ns[t..], f, text, done + added);
        if stop {
          if raised.Some? {
            return raised;
          }
          assert added + [] == added;
          return None;
        }
        ChainSingle(added, gram, NgramsFrom(rec, i, ns[t + 1..], f, text, quality, size));
        assert done + added + [gram] == done + (added + [gram]);
        added := added + [gram];
        t := t + 1;
      }
      assert added + [] == added;
      err := None;
    }

    /** One turn of the n loop, for ws[0]: its window is counted, or it raises, or the kill switch ends the loop. */
    method AddWindow(rec: Record, i: nat, ws: seq<Value>, f: IntervalOf, text: NgramText, ghost counted: seq<string>)
      returns (err: Option<Error>, stop: bool, gram: string)
      requires i < |rec| && |ws| > 0 && ngrams == Tally(counted) && order == FirstSeen(counted)
      modifies this
      ensures err.Some? ==> stop && NgramsFrom(rec, i, ws, f, text, settings.quality, settings.size) == Failure(err.value)
      ensures err.None? && stop ==> NgramsFrom(rec, i, ws, f, text, settings.quality, settings.size) == Success([])
      ensures err.None? && stop ==> ngrams == old(ngrams) && order == old(order)
      ensures !stop ==> err.None?
      ensures !stop ==> (NgramsFrom(rec, i, ws, f, text, settings.quality, settings.size) ==
        Chain(Success([gram]), NgramsFrom(rec, i, ws[1..], f, text, settings.quality, settings.size)))
      ensures !stop ==> ngrams == Tally(counted + [gram]) && order == FirstSeen(counted + [gram])
      ensures keys == old(keys)
    {
      gram := "";
      if !IsEnd(ws[0]) {
        var first := f(rec[i].lower, rec[i].upper);
        return Some(if first.None? then PitchException else TypeError), true, gram;
      }
      var w := BuildWindow(rec, i, EndOf(ws[0]), f);
      if w.None? {
        return Some(PitchException), true, gram;
      }
      if w.value.None? {
        return None, true, gram;
      }
      gram := text(w.value.value, settings.quality, settings.size);
      TallyAppend(counted, gram);
      AddNgram(gram);
      stop := false;
      err := None;
    }

    /** The loop over the start indices of one record. */
    method AddRecord(rec: Record, ns: seq<Value>, f: IntervalOf, text: NgramText, ghost done: seq<string>)
      returns (err: Option<Error>, ghost sofar: seq<string>)
      requires ngrams == Tally(done) && order == FirstSeen(done)
      modifies this
      ensures err.Some? ==> RecordNgrams(rec, |rec|, ns, f, text, settings.quality, settings.size) == Failure(err.value)
      ensures err.None? ==> RecordNgrams(rec, |rec|, ns, f, text, settings.quality, settings.size) == Success(sofar)
      ensures err.None? ==> ngrams == Tally(done + sofar) && order == FirstSeen(done + sofar)
      ensures keys == old(keys)
    {
      sofar := [];
      assert done + sofar == done;
      var i := 0;
      while i < |rec|
        invariant 0 <= i <= |rec| && keys == old(keys)
        invariant RecordNgrams(rec, i, ns, f, text, settings.quality, settings.size) == Success(sofar)
        invariant ngrams == Tally(done + sofar) && order == FirstSeen(done + sofar)
      {
        var raised, start := AddStart(rec, i, ns, f, text, done + sofar);
        if raised.Some? {
          RecordNgramsFail(rec, i + 1, |rec|, ns, f, text, settings.quality, settings.size);
          return raised, sofar;
        }
        RecordNgramsStep(rec, i, ns, f, text, settings.quality, settings.size, sofar, start);
        ConcatAssoc(done, sofar, start);
        sofar := sofar + start;
        i := i + 1;
      }
      err := None;
    }

    /**
     * perform(): sort values_of_n, count the n-grams of every start without a rest, then
     * filter, sort and report them as IntervalsStatistics does. The n-gram text is the
     * parameter text, standing for the ngram module, and names are sorted with ngram_sorter,
     * the comparison meant for n-grams (see the findings for both).
     */
    method Perform(f: IntervalOf, text: NgramText) returns (post: Result<seq<(string, nat)>>)
      modifies this
      ensures match SortedN(settings.valuesOfN)
        case Failure(e) => post == Failure(e)
        case Success(ns) =>
          match NgramLabels(records, ns, f, text, settings.quality, settings.size)
          case Failure(e) => post == Failure(e)
          case Success(labels) =>
            ngrams == Tally(labels) && order == FirstSeen(labels) && post == Report(labels, settings, NgramSorter)
      ensures post.Success? ==> post.value == Rows(keys, ngrams)
    {
      ngrams := map[];
      order := [];
      keys := [];
      var sortedN := SortedN(settings.valuesOfN);
      if sortedN.Failure? {
        return Failure(sortedN.error);
      }
      var raised, labels := AddRecords(sortedN.value, f, text);
      if raised.Some? {
        return Failure(raised.value);
      }
      post := Finish(labels);
    }

    /** Step (1): the loop over the records, counting from no n-grams at all. */
    method AddRecords(ns: seq<Value>, f: IntervalOf, text: NgramText) returns (err: Option<Error>, ghost labels: seq<string>)
      requires ngrams == map[] && order == []
      modifies this
      ensures err.Some? ==> NgramLabels(records, ns, f, text, settings.quality, settings.size) == Failure(err.value)
      ensures err.None? ==> NgramLabels(records, ns, f, text, settings.quality, settings.size) == Success(labels)
      ensures err.None? ==> ngrams == Tally(labels) && order == FirstSeen(labels)
    {
      labels := [];
      var k := 0;
      while k < |records|
        invariant 0 <= k <= |records|
        invariant NgramLabels(records[..k], ns, f, text, settings.quality, settings.size) == Success(labels)
        invariant ngrams == Tally(labels) && order == FirstSeen(labels)
      {
        assert records[..k + 1][..k] == records[..k];
        var raised, added := AddRecord(records[k], ns, f, text, labels);
        if raised.Some? {
          NgramLabelsFail(records, k + 1, ns, f, text, settings.quality, settings.size);
          return raised, labels;
        }
        labels := labels + added;
        k := k + 1;
      }
      assert records[..k] == records;
      err := None;
    }

    /** Steps (2) to (5) on the counted n-grams. */
    method Finish(ghost labels: seq<string>) returns (post: Result<seq<(string, nat)>>)
      requires ngrams == Tally(labels) && order == FirstSeen(labels)
      modifies this
      ensures ngrams == old(ngrams) && order == old(order)
      ensures post == Report(labels, settings, NgramSorter)
      ensures post.Success? ==> post.value == Rows(keys, ngrams)
    {
      var sel := FilterAndSort(ngrams, order, settings.topX, settings.threshold,
                               settings.sortOrder, settings.sortBy, NgramSorter);
      if sel.Failure? {
        return Failure(sel.error);
      }
      keys := sel.value;
      SelectionKeys(labels, settings, NgramSorter);
      var rows: seq<(string, nat)> := [];
      var i := 0;
      while i < |keys|
        invariant 0 <= i <= |keys|
        invariant rows == Rows(keys[..i], ngrams)
      {
        assert keys[i] in keys;
        assert keys[..i + 1][..i] == keys[..i];
        rows := rows + [(keys[i], ngrams[keys[i]])];
        i := i + 1;
      }
      assert keys[..i] == keys;
      post := Success(rows);
    }
  }

  lemma ConcatAssoc(a: seq<string>, b: seq<string>, c: seq<string>)
    ensures a + b + c == a + (b + c)
  {
  }

  lemma RecordNgramsStep(rec: Record, i: nat, ns: seq<Value>, f: IntervalOf, text: NgramText, quality: Value, size: Value,
                         sofar: seq<string>, start: seq<string>)
    requires i < |rec|
    requires RecordNgrams(rec, i, ns, f, text, quality, size) == Success(sofar)
    requires StartNgrams(rec, i, ns, f, text, quality, size) == Success(start)
    ensures RecordNgrams(rec, i + 1, ns, f, text, quality, size) == Success(sofar + start)
  {
  }

  lemma ChainEmpty(x: Result<seq<string>>)
    ensures Chain(Success([]), x) == x
  {
    if x.Success? {
      assert [] + x.value == x.value;
    }
  }

  lemma ChainSingle(added: seq<string>, x: string, rest: Result<seq<string>>)
    ensures Chain(Success(added), Chain(Success([x]), rest)) == Chain(Success(added + [x]), rest)
  {
    if rest.Success? {
      assert added + ([x] + rest.value) == added + [x] + rest.value;
    }
  }

  // ---------------------------------------------------------------------------
  // N-grams with the ngram module as the source stands

  /** The exception models/experimenting.py raises at ngram.IntervalNGram: the module is never imported. */
  const MissingNgram := NameError("ngram")

  /**
   * The n loop for start i as written: the first window the j loop completes reaches
   * ngram.IntervalNGram and raises, so no n-gram is ever counted.
   */
  function StartAsWritten(rec: Record, i: nat, ns: seq<Value>, f: IntervalOf): Option<Error>
    requires i < |rec|
  {
    if HasRest(rec[i]) || ns == [] then None
    else if !IsEnd(ns[0]) then Some(BadEnd(rec, i, f))
    else match Window(rec, i, EndOf(ns[0]), f)
      case None => Some(PitchException)
      case Some(None) => None
      case Some(Some(_)) => Some(MissingNgram)
  }

  /** The exception the first k starts of a record raise as written, if any. */
  function RecordAsWritten(rec: Record, k: nat, ns: seq<Value>, f: IntervalOf): Option<Error>
    requires k <= |rec|
  {
    if k == 0 then None
    else match RecordAsWritten(rec, k - 1, ns, f)
      case Some(e) => Some(e)
      case None => StartAsWritten(rec, k - 1, ns, f)
  }

  /** The exception step (1) of perform() raises as written, if any. */
  function NgramErrorAsWritten(records: seq<Record>, ns: seq<Value>, f: IntervalOf): Option<Error> {
    if records == [] then None
    else match NgramErrorAsWritten(records[..|records| - 1], ns, f)
      case Some(e) => Some(e)
      case None =>
        var last := records[|records| - 1];
        RecordAsWritten(last, |last|, ns, f)
  }

  /**
   * How the code as written ends when the same step with the ngram module would give
   * `counted`: normally exactly when nothing is counted, with NameError when something
   * would be, and with the same exception or NameError when that step raises.
   */
  predicate AsWritten(counted: Result<seq<string>>, raised: Option<Error>) {
    match counted
    case Success(labels) => if labels == [] then raised.None? else raised == Some(MissingNgram)
    case Failure(e) => raised == Some(e) || raised == Some(MissingNgram)
  }

  lemma StartAsWrittenRaises(rec: Record, i: nat, ns: seq<Value>, f: IntervalOf, text: NgramText, quality: Value, size: Value)
    requires i < |rec|
    ensures AsWritten(StartNgrams(rec, i, ns, f, text, quality, size), StartAsWritten(rec, i, ns, f))
  {
  }

  lemma ChainAsWritten(a: Result<seq<string>>, b: Result<seq<string>>, ra: Option<Error>, rb: Option<Error>)
    requires AsWritten(a, ra) && AsWritten(b, rb)
    ensures AsWritten(Chain(a, b), if ra.Some? then ra else rb)
  {
  }

  lemma {:induction false} RecordAsWrittenRaises(rec: Record, k: nat, ns: seq<Value>, f: IntervalOf, text: NgramText, quality: Value, size: Value)
    requires k <= |rec|
    ensures AsWritten(RecordNgrams(rec, k, ns, f, text, quality, size), RecordAsWritten(rec, k, ns, f))
  {
    if k > 0 {
      RecordAsWrittenRaises(rec, k - 1, ns, f, text, quality, size);
      StartAsWrittenRaises(rec, k - 1, ns, f, text, quality, size);
      var a, b := RecordNgrams(rec, k - 1, ns, f, text, quality, size), StartNgrams(rec, k - 1, ns, f, text, quality, size);
      var ra, rb := RecordAsWritten(rec, k - 1, ns, f), StartAsWritten(rec, k - 1, ns, f);
      ChainAsWritten(a, b, ra, rb);
      assert RecordNgrams(rec, k, ns, f, text, quality, size) == Chain(a, b);
      assert RecordAsWritten(rec, k, ns, f) == if ra.Some? then ra else rb;
    }
  }

  /**
   * As written, step (1) of perform() raises NameError whenever the n-gram module would have
   * counted an n-gram, and ends normally exactly when there is nothing to count.
   */
  lemma {:induction false} NgramsRaiseNameError(records: seq<Record>, ns: seq<Value>, f: IntervalOf, text: NgramText, quality: Value, size: Value)
    ensures NgramErrorAsWritten(records, ns, f).None? <==> NgramLabels(records, ns, f, text, quality, size) == Success([])
    ensures NgramLabels(records, ns, f, text, quality, size).Success? && NgramLabels(records, ns, f, text, quality, size).value != [] ==>
      NgramErrorAsWritten(records, ns, f) == Some(MissingNgram)
    ensures NgramLabels(records, ns, f, text, quality, size).Failure? ==>
      NgramErrorAsWritten(records, ns, f) in {Some(MissingNgram), Some(NgramLabels(records, ns, f, text, quality, size).error)}
  {
    if records != [] {
      var init := records[..|records| - 1];
      var last := records[|records| - 1];
      NgramsRaiseNameError(init, ns, f, text, quality, size);
      RecordAsWrittenRaises(last, |last|, ns, f, text, quality, size);
      ChainAsWritten(NgramLabels(init, ns, f, text, quality, size), RecordNgrams(last, |last|, ns, f, text, quality, size),
                     NgramErrorAsWritten(init, ns, f), RecordAsWritten(last, |last|, ns, f));
    }
  }

  /** One record of one sounding event and values_of_n [1]: the code as written raises NameError. */
  lemma NameErrorExample(f: IntervalOf, iv: Interval)
    requires f("C4", "E4") == Some(iv)
    ensures NgramErrorAsWritten([[Event(0.0, "C4", "E4")]], [VInt(1)], f) == Some(MissingNgram)
  {
    var rec := [Event(0.0, "C4", "E4")];
    assert [[Event(0.0, "C4", "E4")]][..0] == [];
    assert !HasRest(rec[0]);
    assert Window(rec, 0, 1, f) == Some(Some([iv]));
    assert StartAsWritten(rec, 0, [VInt(1)], f) == Some(MissingNgram);
  }

  /** The unigrams of the first k events of a record without rests. */
  function Unigrams(rec: Record, k: nat, f: IntervalOf, text: NgramText, quality: Value, size: Value): seq<string>
    requires k <= |rec| && forall j :: 0 <= j < |rec| ==> f(rec[j].lower, rec[j].upper).Some?
  {
    seq(k, j requires 0 <= j < k => text([f(rec[j].lower, rec[j].upper).value], quality, size))
  }

  /**
   * With the ngram module supplied, values_of_n [1] counts one n-gram per event of a record
   * without rests, each the text of that event's interval.
   */
  lemma {:induction false} UnigramsCounted(rec: Record, k: nat, f: IntervalOf, text: NgramText, quality: Value, size: Value)
    requires k <= |rec|
    requires forall j :: 0 <= j < |rec| ==> !HasRest(rec[j]) && f(rec[j].lower, rec[j].upper).Some?
    ensures RecordNgrams(rec, k, [VInt(1)], f, text, quality, size) == Success(Unigrams(rec, k, f, text, quality, size))
  {
    if k > 0 {
      UnigramsCounted(rec, k - 1, f, text, quality, size);
      var iv := f(rec[k - 1].lower, rec[k - 1].upper).value;
      assert Window(rec, k - 1, 1, f) == Some(Some([iv]));
      var gram := text([iv], quality, size);
      assert [VInt(1)][1..] == [] && [gram] + [] == [gram];
      assert NgramsFrom(rec, k - 1, [VInt(1)], f, text, quality, size)
          == Chain(Success([gram]), NgramsFrom(rec, k - 1, [], f, text, quality, size));
      assert StartNgrams(rec, k - 1, [VInt(1)], f, text, quality, size) == Success([text([iv], quality, size)]);
      assert Unigrams(rec, k, f, text, quality, size)
          == Unigrams(rec, k - 1, f, text, quality, size) + [text([iv], quality, size)];
    }
  }

  // ---------------------------------------------------------------------------
  // Sorting by name

  /** Sorting interval labels by name: interval_sorter answers on labels of one kind, so the sort succeeds and is in order. */
  lemma IntervalNameSort(labels: seq<string>, st: StatSettings, named: bool)
    requires forall x :: x in labels ==> IntervalLabel(x, named)
    requires TopKeys(Tally(labels), FirstSeen(labels), st.topX, st.threshold).Success?
    ensures Report(labels, st, IntervalSorter).Success?
    ensures Sorted(Selected(labels, st, IntervalSorter).value, FinalCmp(Tally(labels), st.sortOrder, st.sortBy, IntervalSorter))
  {
    FirstSeenIn(labels);
    IntervalSorterConsistent(FirstSeen(labels), named);
    SelectionSorted(Tally(labels), FirstSeen(labels), st.topX, st.threshold, st.sortOrder, st.sortBy, IntervalSorter);
  }

  lemma FirstSeenIn(labels: seq<string>)
    ensures forall x :: x in FirstSeen(labels) ==> x in labels
  {
    FirstSeenCounters(labels);
    TallyCounts(labels);
  }

  /**
   * IntervalNGramStatistics.perform sorts n-grams by name with interval_sorter, which
   * raises on two distinct n-grams of more than one interval: the sort by name fails.
   */
  lemma NgramNameSortRaises(x: string, y: string, st: StatSettings)
    requires x == "m3 +P4 M6" && y == "M3 -P4 m6"
    requires st.topX == VNone && st.threshold == VNone && st.sortBy == VStr("name")
    ensures Report([x, y], st, IntervalSorter) == Failure(ValueError)
  {
    IntervalSorterOnNgrams(x, y);
    TwoLabelsUnsortable(x, y, st, IntervalSorter);
  }

  /** Two labels the final comparison cannot order make the sort, and so the report, fail. */
  lemma TwoLabelsUnsortable(x: string, y: string, st: StatSettings, nameCmp: Cmp<string>)
    requires x != y && st.topX == VNone && st.threshold == VNone
    requires FinalCmp(Tally([x, y]), st.sortOrder, st.sortBy, nameCmp)(x, y) == None
    ensures Report([x, y], st, nameCmp) == Failure(ValueError)
  {
    var labels := [x, y];
    assert labels[..1] == [x] && labels[1..] == [y] && [x][..0] == [];
    assert FirstSeen([x]) == [x];
    assert FirstSeen(labels) == labels;
    var cmp := FinalCmp(Tally(labels), st.sortOrder, st.sortBy, nameCmp);
    assert Sort([y], cmp) == Some([y]);
  }

  /**
   * The evidently intended name sort for n-grams, ngram_sorter: it answers on n-gram
   * labels of one kind, so the sort succeeds and is in order.
   */
  lemma NgramNameSortCorrected(labels: seq<string>, st: StatSettings, named: bool)
    requires forall x :: x in labels ==> NgramLabel(x, named)
    requires TopKeys(Tally(labels), FirstSeen(labels), st.topX, st.threshold).Success?
    ensures Report(labels, st, NgramSorter).Success?
    ensures Sorted(Selected(labels, st, NgramSorter).value, FinalCmp(Tally(labels), st.sortOrder, st.sortBy, NgramSorter))
  {
    FirstSeenIn(labels);
    NgramSorterConsistent(FirstSeen(labels), named);
    SelectionSorted(Tally(labels), FirstSeen(labels), st.topX, st.threshold, st.sortOrder, st.sortBy, NgramSorter);
  }

  // ---------------------------------------------------------------------------
  // IntervalsLists

  /** One row of the spreadsheet: the header, or (vertical, horizontal, offset). */
  datatype ListRow = HeaderRow | DataRow(vertical: string, horizontal: Option<string>, offset: real)

  /** An IntervalsLists experiment with its quality and simple_or_compound settings. */
  datatype IntervalsLists = IntervalsLists(records: seq<Record>, quality: Value, size: Value, goodFor: seq<Value>)

  /** IntervalsLists(controller, records, settings): a KeyError unless quality and simple_or_compound are set. */
  function NewIntervalsLists(records: seq<Record>, raw: RawSettings): (r: Result<IntervalsLists>)
    ensures r.Failure? <==> "quality" !in raw || "simple_or_compound" !in raw
    ensures r.Failure? ==> r.error == KeyError(ListsMessage)
    ensures r.Success? ==> r.value.records == records && r.value.quality == raw["quality"] && r.value.size == raw["simple_or_compound"]
    ensures r.Success? ==> r.value.goodFor == GoodFor(raw, ListDisplays)
  {
    if "quality" !in raw || "simple_or_compound" !in raw then Failure(KeyError(ListsMessage))
    else Success(IntervalsLists(records, raw["quality"], raw["simple_or_compound"], GoodFor(raw, ListDisplays)))
  }

  /** the_formatter(interv, direction): a '+' for an ascending interval when the direction is asked for, then the label. */
  function Formatter(iv: Interval, quality: Value, size: Value, direction: bool): string {
    (if direction && iv.direction == 1 then "+" else "") + Label(iv, quality, size)
  }

  /** The row for an event and the next one: None when music21 raises. */
  function PairRow(first: Event, second: Event, f: IntervalOf, quality: Value, size: Value): Option<ListRow> {
    var vertical :=
      if first.lower == Rest then Some("Rest & " + first.upper)
      else if first.upper == Rest then Some(first.lower + " & Rest")
      else match f(first.lower, first.upper) case None => None case Some(iv) => Some(Formatter(iv, quality, size, false));
    var horizontal :=
      if first.lower == Rest || second.lower == Rest then Some("N/A")
      else match f(first.lower, second.lower) case None => None case Some(iv) => Some(Formatter(iv, quality, size, true));
    if vertical.None? || horizontal.None? then None
    else Some(DataRow(vertical.value, horizontal, first.offset))
  }

  /** PairRow with the interval function and the two settings fixed: the body of the zip loop. */
  function RowMaker(f: IntervalOf, quality: Value, size: Value): (Event, Event) -> Option<ListRow> {
    (first, second) => PairRow(first, second, f, quality, size)
  }

  /** The rows that row makes of the first k pairs of neighbouring events; None from the first pair it fails on. */
  function Zip(rec: Record, k: nat, row: (Event, Event) -> Option<ListRow>): Option<seq<ListRow>>
    requires k < |rec|
  {
    if k == 0 then Some([])
    else match Zip(rec, k - 1, row)
      case None => None
      case Some(rows) =>
        match row(rec[k - 1], rec[k])
        case None => None
        case Some(r) => Some(rows + [r])
  }

  /** The rows of the first k pairs of neighbouring events. */
  function PairRows(rec: Record, k: nat, f: IntervalOf, quality: Value, size: Value): Option<seq<ListRow>>
    requires k < |rec|
  {
    Zip(rec, k, RowMaker(f, quality, size))
  }

  /** The rows of one record: one per pair, then the last event without a horizontal interval. */
  function RecordRows(rec: Record, f: IntervalOf, quality: Value, size: Value): Result<seq<ListRow>> {
    if rec == [] then Failure(IndexError) // record[-1]
    else
      match PairRows(rec, |rec| - 1, f, quality, size)
      case None => Failure(PitchException)
      case Some(rows) =>
        var last := rec[|rec| - 1];
        match f(last.lower, last.upper)
        case None => Failure(PitchException)
        case Some(iv) => Success(rows + [DataRow(Formatter(iv, quality, size, false), None, last.offset)])
  }

  /** The header, then the rows of every record in turn. */
  function ListRows(records: seq<Record>, f: IntervalOf, quality: Value, size: Value): Result<seq<ListRow>> {
    if records == [] then Success([HeaderRow])
    else
      match ListRows(records[..|records| - 1], f, quality, size)
      case Failure(e) => Failure(e)
      case Success(data) =>
        match RecordRows(records[|records| - 1], f, quality, size)
        case Failure(e) => Failure(e)
        case Success(rows) => Success(data + rows)
  }

  /** The rows of one record, pair by pair. */
  method RecordRowsOf(rec: Record, f: IntervalOf, quality: Value, size: Value) returns (r: Result<seq<ListRow>>)
    ensures r == RecordRows(rec, f, quality, size)
  {
    if |rec| == 0 {
      return Failure(IndexError);
    }
    var rows := PairRowsOf(rec, RowMaker(f, quality, size));
    if rows.None? {
      return Failure(PitchException);
    }
    var last := rec[|rec| - 1];
    var iv := f(last.lower, last.upper);
    if iv.None? {
      return Failure(PitchException);
    }
    r := Success(rows.value + [DataRow(Formatter(iv.value, quality, size, false), None, last.offset)]);
  }

  /** The zip(record, record[1:]) loop: the row of every pair of neighbouring events, until the first exception. */
  method PairRowsOf(rec: Record, row: (Event, Event) -> Option<ListRow>) returns (r: Option<seq<ListRow>>)
    requires |rec| > 0
    ensures r == Zip(rec, |rec| - 1, row)
  {
    var n := |rec| - 1;
    var rows: seq<ListRow> := [];
    var k := 0;
    while k < n
      invariant 0 <= k <= n
      invariant Zip(rec, k, row) == Some(rows)
    {
      var next := row(rec[k], rec[k + 1]);
      if next.None? {
        ZipFail(rec, k + 1, n, row);
        return None;
      }
      rows := rows + [next.value];
      k := k + 1;
    }
    r := Some(rows);
  }

  /** Once a pair fails, every longer prefix fails too. */
  lemma {:induction false} ZipFail(rec: Record, k: nat, k': nat, row: (Event, Event) -> Option<ListRow>)
    requires k <= k' < |rec| && Zip(rec, k, row).None?
    ensures Zip(rec, k', row).None?
    decreases k' - k
  {
    if k < k' {
      ZipFail(rec, k, k' - 1, row);
    }
  }

  /** IntervalsLists.perform(): the header row, then the rows of every record. */
  method ListsPerform(x: IntervalsLists, f: IntervalOf) returns (data: Result<seq<ListRow>>)
    ensures data == ListRows(x.records, f, x.quality, x.size)
  {
    var rows: seq<ListRow> := [HeaderRow];
    var k := 0;
    while k < |x.records|
      invariant 0 <= k <= |x.records|
      invariant ListRows(x.records[..k], f, x.quality, x.size) == Success(rows)
    {
      var more := RecordRowsOf(x.records[k], f, x.quality, x.size);
      if more.Failure? {
        ListRowsFail(x.records, k + 1, f, x.quality, x.size);
        return Failure(more.error);
      }
      ListRowsStep(x.records, k, rows, more.value, f, x.quality, x.size);
      rows := rows + more.value;
      k := k + 1;
    }
    assert x.records[..k] == x.records;
    data := Success(rows);
  }

  lemma ListRowsStep(records: seq<Record>, k: nat, rows: seq<ListRow>, more: seq<ListRow>,
                     f: IntervalOf, quality: Value, size: Value)
    requires k < |records| && ListRows(records[..k], f, quality, size) == Success(rows)
    requires RecordRows(records[k], f, quality, size) == Success(more)
    ensures ListRows(records[..k + 1], f, quality, size) == Success(rows + more)
  {
    assert records[..k + 1][..k] == records[..k];
  }

  lemma {:induction false} ListRowsFail(records: seq<Record>, k: nat, f: IntervalOf, quality: Value, size: Value)
    requires 0 < k <= |records| && ListRows(records[..k - 1], f, quality, size).Success?
    requires RecordRows(records[k - 1], f, quality, size).Failure?
    ensures ListRows(records, f, quality, size) == Failure(RecordRows(records[k - 1], f, quality, size).error)
  {
    if k < |records| {
      var p := records[..|records| - 1];
      assert p[..k - 1] == records[..k - 1] && p[k - 1] == records[k - 1];
      ListRowsFail(p, k, f, quality, size);
    } else {
      assert records[..k] == records;
      assert records[..|records| - 1] == records[..k - 1];
    }
  }

  /**
   * A record's rows: one per event, at the event's offset; every row but the last has a
   * horizontal interval and the last has none.
   */
  lemma RecordRowsShape(rec: Record, f: IntervalOf, quality: Value, size: Value)
    requires RecordRows(rec, f, quality, size).Success?
    ensures |RecordRows(rec, f, quality, size).value| == |rec|
    ensures forall k :: 0 <= k < |rec| ==> RecordRows(rec, f, quality, size).value[k].DataRow?
    ensures forall k :: 0 <= k < |rec| ==> RecordRows(rec, f, quality, size).value[k].offset == rec[k].offset
    ensures forall k :: 0 <= k < |rec| ==> (RecordRows(rec, f, quality, size).value[k].horizontal.None? <==> k == |rec| - 1)
  {
    var rows := PairRows(rec, |rec| - 1, f, quality, size).value;
    PairRowsShape(rec, |rec| - 1, f, quality, size);
    var last := rec[|rec| - 1];
    var iv := f(last.lower, last.upper).value;
    var lastRow := DataRow(Formatter(iv, quality, size, false), None, last.offset);
    assert RecordRows(rec, f, quality, size) == Success(rows + [lastRow]);
    RowsThenLast(rec, rows, lastRow);
  }

  lemma RowsThenLast(rec: Record, rows: seq<ListRow>, lastRow: ListRow)
    requires |rec| > 0 && |rows| == |rec| - 1
    requires forall j :: 0 <= j < |rows| ==> rows[j].DataRow? && rows[j].offset == rec[j].offset && rows[j].horizontal.Some?
    requires lastRow.DataRow? && lastRow.offset == rec[|rec| - 1].offset && lastRow.horizontal.None?
    ensures |rows + [lastRow]| == |rec|
    ensures forall k :: 0 <= k < |rec| ==>
              && (rows + [lastRow])[k].DataRow?
              && (rows + [lastRow])[k].offset == rec[k].offset
              && ((rows + [lastRow])[k].horizontal.None? <==> k == |rec| - 1)
  {
  }

  lemma {:induction false} PairRowsShape(rec: Record, k: nat, f: IntervalOf, quality: Value, size: Value)
    requires k < |rec| && PairRows(rec, k, f, quality, size).Some?
    ensures |PairRows(rec, k, f, quality, size).value| == k
    ensures forall j :: 0 <= j < k ==> PairRows(rec, k, f, quality, size).value[j].DataRow?
    ensures forall j :: 0 <= j < k ==> PairRows(rec, k, f, quality, size).value[j].offset == rec[j].offset
    ensures forall j :: 0 <= j < k ==> PairRows(rec, k, f, quality, size).value[j].horizontal.Some?
  {
    if k > 0 {
      PairRowsShape(rec, k - 1, f, quality, size);
      var prev := PairRows(rec, k - 1, f, quality, size).value;
      var row := PairRow(rec[k - 1], rec[k], f, quality, size).value;
      assert PairRows(rec, k, f, quality, size).value == prev + [row];
      assert row.DataRow? && row.offset == rec[k - 1].offset && row.horizontal.Some?;
    }
  }

  /** A pair whose lower note rests needs no interval: its row is fixed and music21 is never asked. */
  lemma RestPairRow(first: Event, second: Event, f: IntervalOf, quality: Value, size: Value)
    requires first.lower == Rest
    ensures PairRow(first, second, f, quality, size) == Some(DataRow("Rest & " + first.upper, Some("N/A"), first.offset))
  {
  }

  /** A rest in the next lower note leaves the horizontal column 'N/A'; otherwise it is the lower voice's motion. */
  lemma HorizontalColumn(first: Event, second: Event, f: IntervalOf, quality: Value, size: Value)
    requires PairRow(first, second, f, quality, size).Some?
    ensures second.lower == Rest ==> PairRow(first, second, f, quality, size).value.horizontal == Some("N/A")
    ensures first.lower != Rest && second.lower != Rest ==>
      f(first.lower, second.lower).Some? &&
      PairRow(first, second, f, quality, size).value.horizontal == Some(Formatter(f(first.lower, second.lower).value, quality, size, true))
  {
  }

  /** The direction flag adds a '+' exactly for an ascending interval, and changes nothing else. */
  lemma FormatterDirection(iv: Interval, quality: Value, size: Value)
    ensures iv.direction == 1 ==> Formatter(iv, quality, size, true) == "+" + Formatter(iv, quality, size, false)
    ensures iv.direction != 1 ==> Formatter(iv, quality, size, true) == Formatter(iv, quality, size, false)
  {
    assert "" + Label(iv, quality, size) == Label(iv, quality, size);
  }

  /** The number of events in all the records. */
  function EventCount(records: seq<Record>): nat {
    if records == [] then 0 else EventCount(records[..|records| - 1]) + |records[|records| - 1]|
  }

  /** The data holds the header, then exactly one data row per event. */
  lemma {:induction false} ListRowsShape(records: seq<Record>, f: IntervalOf, quality: Value, size: Value)
    requires ListRows(records, f, quality, size).Success?
    ensures |ListRows(records, f, quality, size).value| == 1 + EventCount(records)
    ensures ListRows(records, f, quality, size).value[0] == HeaderRow
    ensures forall k :: 0 < k < |ListRows(records, f, quality, size).value| ==> ListRows(records, f, quality, size).value[k].DataRow?
  {
    if records != [] {
      var p, rec := records[..|records| - 1], records[|records| - 1];
      ListRowsShape(p, f, quality, size);
      RecordRowsShape(rec, f, quality, size);
    }
  }

  // ---------------------------------------------------------------------------
  // ChordsLists

  /** A member of a chord event: one note name, or the names of a chord. */
  datatype ChordMember = Single(name: string) | Group(names: seq<string>)

  /** Every name of a chord followed by a space. */
  function Spaced(names: seq<string>): string {
    if names == [] then "" else Spaced(names[..|names| - 1]) + names[|names| - 1] + " "
  }

  /** What one member adds: a single name unless it is 'Rest', every name of a chord. */
  function MemberText(m: ChordMember): string {
    match m
    case Single(x) => if x == Rest then "" else x + " "
    case Group(xs) => Spaced(xs)
  }

  /** The note names of an event with the rests left out. */
  function RestsRemoved(event: seq<ChordMember>): string {
    if event == [] then "" else RestsRemoved(event[..|event| - 1]) + MemberText(event[|event| - 1])
  }

  /** ChordsLists.perform's remove_rests(event). */
  method RemoveRests(event: seq<ChordMember>) returns (post: string)
    ensures post == RestsRemoved(event)
  {
    post := "";
    var i := 0;
    while i < |event|
      invariant 0 <= i <= |event|
      invariant post == RestsRemoved(event[..i])
    {
      assert event[..i + 1][..i] == event[..i];
      match event[i] {
        case Single(x) =>
          if Rest != x {
            post := post + x + " ";
          }
        case Group(xs) =>
          post := AddChord(post, xs);
      }
      i := i + 1;
    }
    assert event[..i] == event;
  }

  /** The inner loop of remove_rests: every name of a chord, each followed by a space. */
  method AddChord(sofar: string, names: seq<string>) returns (post: string)
    ensures post == sofar + Spaced(names)
  {
    post := sofar;
    var j := 0;
    while j < |names|
      invariant 0 <= j <= |names|
      invariant post == sofar + Spaced(names[..j])
    {
      assert names[..j + 1][..j] == names[..j];
      post := post + names[j] + " ";
      j := j + 1;
    }
    assert names[..j] == names;
  }

  /** Every name of a chord takes its own space. */
  lemma {:induction false} SpacedLength(names: seq<string>)
    ensures |Spaced(names)| >= |names|
    ensures Spaced(names) == "" <==> names == []
  {
    if names != [] {
      SpacedLength(names[..|names| - 1]);
    }
  }

  /** An event is nothing but rests, the case perform() skips, exactly when remove_rests returns ''. */
  lemma {:induction false} RestsRemovedEmpty(event: seq<ChordMember>)
    ensures RestsRemoved(event) == "" <==>
      forall i :: 0 <= i < |event| ==> event[i] == Single(Rest) || event[i] == Group([])
  {
    if event != [] {
      var p, m := event[..|event| - 1], event[|event| - 1];
      RestsRemovedEmpty(p);
      if m.Group? {
        SpacedLength(m.names);
      }
      assert forall i :: 0 <= i < |p| ==> p[i] == event[i];
    }
  }
}
