// workflow.py: the WorkflowManager's settings store, its load/run/output/export instruction
// dispatch, and the voice-pair, threshold and filter stages around the analyses it runs.
// The analyses themselves (_intervs, _interval_ngrams and the indexers and experimenters they
// call through pandas and music21) are parameters here.
module Workflow {
  import opened Wrappers
  import opened PyStrings
  import opened PyValues
  import IndexedPieces
  import IntervalIndexers

  // ---------------------------------------------------------------------------
  // Construction

  /** One of the values given to the constructor: a pathname, an existing piece, or anything else. */
  datatype PathArg = Path(path: string) | Existing(piece: IndexedPieces.IndexedPiece) | Other

  /** The constructor arguments that become pieces, in order. */
  function Kept(args: seq<PathArg>): seq<PathArg> {
    if args == [] then []
    else Kept(args[..|args| - 1]) + (if args[|args| - 1].Other? then [] else [args[|args| - 1]])
  }

  /** Kept drops exactly the arguments that are neither a pathname nor a piece. */
  lemma {:induction false} KeptSpec(args: seq<PathArg>)
    ensures |Kept(args)| <= |args|
    ensures forall a :: a in Kept(args) <==> a in args && !a.Other?
  {
    if args != [] {
      var init := args[..|args| - 1];
      KeptSpec(init);
      assert args == init + [args[|args| - 1]];
    }
  }

  const OffsetInterval := "offset interval"
  const VoiceCombinations := "voice combinations"
  const FilterRepeats := "filter repeats"

  /** The settings each piece starts with. */
  const PieceDefaults: map<string, Value> :=
    map[OffsetInterval := VNone, VoiceCombinations := VNone, FilterRepeats := VBool(false)]

  /** The settings all pieces share, as they start. */
  const SharedDefaults: map<string, Value> :=
    map["n" := VInt(2), "continuer" := VStr("_"), "mark singles" := VBool(false),
        "interval quality" := VBool(false), "simple intervals" := VBool(false),
        "include rests" := VBool(false), "count frequency" := VBool(true)]

  // ---------------------------------------------------------------------------
  // settings()

  /** The shared settings and the per-piece settings, as settings() reads and writes them. */
  datatype Store = Store(shared: map<string, Value>, pieces: seq<map<string, Value>>)

  /** Every piece has exactly the per-piece fields, and the shared fields are the default ones. */
  predicate Uniform(st: Store) {
    st.shared.Keys == SharedDefaults.Keys &&
    forall i :: 0 <= i < |st.pieces| ==> st.pieces[i].Keys == PieceDefaults.Keys
  }

  /** The value stored for a per-piece field: an offset interval of 0 is stored as None. */
  function StoredValue(field: string, value: Value): Value {
    if field == OffsetInterval && EqualsZero(value) then VNone else value
  }

  /**
   * settings(index, field, value), where value VNone is a read: the returned value (VNone
   * after a write) or the error raised, and the store afterwards.
   */
  function Setting(st: Store, index: Option<int>, field: string, value: Value): (Result<Value>, Store)
    requires Uniform(st)
  {
    if field in st.shared then
      if value.VNone? then (Success(st.shared[field]), st)
      else (Success(VNone), st.(shared := st.shared[field := value]))
    else if index.None? then
      if value.VNone? then (Failure(ValueError), st)
      else if |st.pieces| > 0 && field !in PieceDefaults then (Failure(AttributeError(field)), st)
      else (Success(VNone), st.(pieces := seq(|st.pieces|, k requires 0 <= k < |st.pieces| => st.pieces[k][field := StoredValue(field, value)])))
    else if !(0 <= index.value < |st.pieces|) then (Failure(IndexError), st)
    else if field !in st.pieces[index.value] then (Failure(AttributeError(field)), st)
    else if value.VNone? then (Success(st.pieces[index.value][field]), st)
    else (Success(VNone), st.(pieces := st.pieces[index.value := st.pieces[index.value][field := StoredValue(field, value)]]))
  }

  /** Reading a setting changes nothing, and no call adds or removes a field. */
  lemma SettingKeepsFields(st: Store, index: Option<int>, field: string, value: Value)
    requires Uniform(st)
    ensures Uniform(Setting(st, index, field, value).1)
    ensures |Setting(st, index, field, value).1.pieces| == |st.pieces|
    ensures value.VNone? ==> Setting(st, index, field, value).1 == st
  {
  }

  /** A shared setting ignores the index, whatever it is. */
  lemma SharedIgnoresIndex(st: Store, a: Option<int>, b: Option<int>, field: string, value: Value)
    requires Uniform(st) && field in SharedDefaults
    ensures Setting(st, a, field, value) == Setting(st, b, field, value)
  {
  }

  /** Writing a per-piece field of one piece, then reading it back, gives the stored value; other pieces keep theirs. */
  lemma SetThenGet(st: Store, i: int, field: string, value: Value, j: int)
    requires Uniform(st) && 0 <= i < |st.pieces| && 0 <= j < |st.pieces|
    requires field in PieceDefaults && !value.VNone?
    ensures var after := Setting(st, Some(i), field, value).1;
      Setting(after, Some(j), field, VNone).0 == Success(if i == j then StoredValue(field, value) else st.pieces[j][field])
  {
    SettingKeepsFields(st, Some(i), field, value);
  }

  /** With no index, a write reaches every piece, and reading any piece back gives the stored value. */
  lemma BroadcastThenGet(st: Store, field: string, value: Value, j: int)
    requires Uniform(st) && 0 <= j < |st.pieces|
    requires field in PieceDefaults && !value.VNone?
    ensures var after := Setting(st, None, field, value).1;
      Setting(after, Some(j), field, VNone).0 == Success(StoredValue(field, value))
  {
    SettingKeepsFields(st, None, field, value);
  }

  /** The per-piece errors: no index and no value, an index out of range, an unknown field. */
  lemma SettingErrors(st: Store, index: Option<int>, field: string, value: Value)
    requires Uniform(st) && field !in SharedDefaults
    ensures index.None? && value.VNone? ==> Setting(st, index, field, value).0 == Failure(ValueError)
    ensures index.Some? && !(0 <= index.value < |st.pieces|) ==> Setting(st, index, field, value).0 == Failure(IndexError)
    ensures index.Some? && 0 <= index.value < |st.pieces| && field !in PieceDefaults ==>
      Setting(st, index, field, value).0 == Failure(AttributeError(field))
    ensures index.None? && !value.VNone? && |st.pieces| > 0 && field !in PieceDefaults ==>
      Setting(st, index, field, value).0 == Failure(AttributeError(field))
  {
  }

  // ---------------------------------------------------------------------------
  // Results, _get_dataframe and export()

  /** A frequency Series: (label, count) in index order. */
  type Series = seq<(string, real)>

  /** A one-column DataFrame. */
  datatype Frame = Frame(column: string, rows: Series)

  /** The rows whose value is strictly greater than t, in order. */
  function Above(s: Series, t: real): (r: Series)
    ensures |r| <= |s|
  {
    if s == [] then []
    else Above(s[..|s| - 1], t) + (if s[|s| - 1].1 > t then [s[|s| - 1]] else [])
  }

  /** Above keeps exactly the rows over the threshold, and keeps their order. */
  lemma {:induction false} AboveSpec(s: Series, t: real)
    ensures forall x :: x in Above(s, t) <==> x in s && x.1 > t
    ensures forall k :: 0 <= k < |s| && s[k].1 > t ==> s[k] in Above(s, t)
  {
    if s != [] {
      AboveSpec(s[..|s| - 1], t);
      assert s == s[..|s| - 1] + [s[|s| - 1]];
    }
  }

  /** _get_dataframe(name, top_x, threshold): the threshold filter first, then the first top_x rows. */
  function GetDataframe(result: Series, name: string, topX: Option<int>, threshold: Option<real>): (f: Frame)
    ensures f.column == name
    ensures threshold.Some? ==> forall x :: x in f.rows ==> x.1 > threshold.value
    ensures topX.Some? && topX.value >= 0 ==> |f.rows| <= topX.value
    ensures topX.None? && threshold.None? ==> f.rows == result
    ensures var kept := if threshold.Some? then Above(result, threshold.value) else result;
      && |f.rows| <= |kept| && f.rows == kept[..|f.rows|]
      && (topX.None? ==> f.rows == kept)
      && (topX.Some? && topX.value >= 0 ==> |f.rows| == if topX.value < |kept| then topX.value else |kept|)
      && (topX.Some? && topX.value < 0 ==> |f.rows| == if -topX.value < |kept| then |kept| + topX.value else 0)
  {
    var post := if threshold.Some? then Above(result, threshold.value) else result;
    AboveSpec(result, if threshold.Some? then threshold.value else 0.0);
    Frame(name, if topX.Some? then SliceTo(post, topX.value) else post)
  }

  /** With a threshold of 7 and top 5, the counts 10 down to 1 leave 10, 9 and 8. */
  lemma ThresholdBeforeTop()
    ensures var counts := [("a", 10.0), ("b", 9.0), ("c", 8.0), ("d", 7.0), ("e", 6.0)];
      GetDataframe(counts, "data", Some(5), Some(7.0)).rows == counts[..3]
  {
    var counts := [("a", 10.0), ("b", 9.0), ("c", 8.0), ("d", 7.0), ("e", 6.0)];
    assert counts[..1][..0] == counts[..0];
    assert Above(counts[..1], 7.0) == counts[..1];
    assert counts[..2][..1] == counts[..1];
    assert Above(counts[..2], 7.0) == counts[..2];
    assert counts[..3][..2] == counts[..2];
    assert Above(counts[..3], 7.0) == counts[..3];
    assert counts[..4][..3] == counts[..3];
    assert Above(counts[..4], 7.0) == counts[..3];
    assert counts[..5] == counts;
  }

  /** export()'s table of formats: the file extension for each one. */
  function Extension(form: string): Option<string> {
    if form == "CSV" then Some(".csv")
    else if form == "Stata" then Some(".dta")
    else if form == "Excel" then Some(".xlsx")
    else if form == "HTML" then Some(".html")
    else None
  }

  /** The export pathname: the extension is appended unless the pathname's last characters are it. */
  function ExportPath(pathname: Option<string>, ext: string): string {
    var p := if pathname.None? then "test_output/no_path" else pathname.value;
    if LastChars(p, |ext|) != ext then p + ext else p
  }

  /** The pathname ends with the extension, is the given one when that already did, and exporting again changes nothing. */
  lemma ExportPathSpec(pathname: string, ext: string)
    requires |ext| > 0
    ensures EndsWith(ExportPath(Some(pathname), ext), ext)
    ensures EndsWith(pathname, ext) <==> ExportPath(Some(pathname), ext) == pathname
    ensures !EndsWith(pathname, ext) ==> ExportPath(Some(pathname), ext) == pathname + ext
    ensures ExportPath(None, ext) == ExportPath(Some("test_output/no_path"), ext)
    ensures ExportPath(Some(ExportPath(Some(pathname), ext)), ext) == ExportPath(Some(pathname), ext)
  {
    LastCharsEndsWith(pathname, ext);
    var p := ExportPath(Some(pathname), ext);
    assert EndsWith(p, ext) by {
      if !EndsWith(pathname, ext) {
        assert p[|p| - |ext|..] == ext;
      }
    }
    LastCharsEndsWith(p, ext);
  }

  /** The chart token passed to R: 'int' after intervals, str(n) after n-grams, else 'things'; show renders a float or a list. */
  function OutputToken(previousExp: Option<string>, n: Value, show: Value -> string): string {
    if previousExp == Some("intervals") then "int"
    else if previousExp == Some("n-grams") then Str(n, show)
    else "things"
  }

  /** After n-grams the token reads back as n. */
  lemma NgramToken(n: int, show: Value -> string)
    ensures ParseInt(OutputToken(Some("n-grams"), VInt(n), show)) == Some(n)
    ensures OutputToken(Some("intervals"), VInt(n), show) == "int" && OutputToken(None, VInt(n), show) == "things"
  {
  }

  const RBarChartPath := "scripts/R_bar_chart.r"
  const RunMessage := "WorkflowManager.run() could not parse the instruction"

  /** run() checks `intervals` first; an `interval n-grams` instruction does not start with it, so the order is safe. */
  lemma NgramsReachable(instruction: string)
    requires StartsWith(instruction, "interval n-grams")
    ensures !StartsWith(instruction, "intervals") && |instruction| >= 9
  {
    assert instruction[8] == "interval n-grams"[8] == ' ';
  }

  // ---------------------------------------------------------------------------
  // _remove_extra_pairs

  /** The "a,b" keys of the two-element voice combinations, in order. */
  function PairKeys(combos: seq<seq<int>>): seq<string> {
    if combos == [] then []
    else
      var pair := combos[|combos| - 1];
      PairKeys(combos[..|combos| - 1]) + (if |pair| == 2 then [IntervalIndexers.PairLabel(pair[0], pair[1])] else [])
  }

  /** Each pair key parses back, by key_to_tuple, to a two-element combination. */
  lemma {:induction false} PairKeysParse(combos: seq<seq<int>>)
    ensures forall k :: k in PairKeys(combos) ==>
      exists c :: c in combos && |c| == 2 && IntervalIndexers.KeyToTuple(k) == Success((c[0], c[1]))
  {
    if combos != [] {
      var init := combos[..|combos| - 1];
      var pair := combos[|combos| - 1];
      PairKeysParse(init);
      forall k | k in PairKeys(combos)
        ensures exists c :: c in combos && |c| == 2 && IntervalIndexers.KeyToTuple(k) == Success((c[0], c[1]))
      {
        if k in PairKeys(init) {
          var c :| c in init && |c| == 2 && IntervalIndexers.KeyToTuple(k) == Success((c[0], c[1]));
          assert c in combos;
        } else {
          assert |pair| == 2 && k == IntervalIndexers.PairLabel(pair[0], pair[1]);
          IntervalIndexers.KeyToTupleRoundTrip(pair[0], pair[1]);
          assert pair in combos;
        }
      }
    }
  }

  /** Each two-element combination has its key among the pair keys. */
  lemma {:induction false} PairKeysCover(combos: seq<seq<int>>)
    ensures forall c :: c in combos && |c| == 2 ==> IntervalIndexers.PairLabel(c[0], c[1]) in PairKeys(combos)
  {
    if combos != [] {
      var init := combos[..|combos| - 1];
      var pair := combos[|combos| - 1];
      PairKeysCover(init);
      forall c | c in combos && |c| == 2
        ensures IntervalIndexers.PairLabel(c[0], c[1]) in PairKeys(combos)
      {
        if c != pair {
          assert c in init;
        }
      }
    }
  }

  /** What _remove_extra_pairs leaves: {} without two-element combinations, else the entries whose key is a pair key. */
  function Remaining<V>(vertInts: map<string, V>, combos: seq<seq<int>>): map<string, V> {
    if PairKeys(combos) == [] then map[]
    else map k | k in vertInts && k in PairKeys(combos) :: vertInts[k]
  }

  /** Every remaining key names a requested pair, and every requested pair present remains, with its value. */
  lemma RemainingSpec<V>(vertInts: map<string, V>, combos: seq<seq<int>>)
    ensures Remaining(vertInts, combos).Keys <= vertInts.Keys
    ensures forall k :: k in Remaining(vertInts, combos) ==> Remaining(vertInts, combos)[k] == vertInts[k]
    ensures forall k :: k in Remaining(vertInts, combos) ==>
      exists c :: c in combos && |c| == 2 && IntervalIndexers.KeyToTuple(k) == Success((c[0], c[1]))
    ensures forall c :: c in combos && |c| == 2 && IntervalIndexers.PairLabel(c[0], c[1]) in vertInts ==>
      IntervalIndexers.PairLabel(c[0], c[1]) in Remaining(vertInts, combos)
  {
    PairKeysParse(combos);
    PairKeysCover(combos);
  }

  /** _remove_extra_pairs(vert_ints, combos), deleting the other keys of vert_ints. */
  method RemoveExtraPairs<V>(vertInts: map<string, V>, combos: seq<seq<int>>) returns (r: map<string, V>)
    ensures r == Remaining(vertInts, combos)
  {
    var thesePairs := PairKeysOf(combos);
    if |thesePairs| == 0 {
      return map[];
    }
    var deleteThese := KeysToDelete(vertInts, thesePairs);
    r := DeleteKeys(vertInts, deleteThese);
  }

  /** The first loop of _remove_extra_pairs: the "a,b" strings of the two-element combinations. */
  method PairKeysOf(combos: seq<seq<int>>) returns (thesePairs: seq<string>)
    ensures thesePairs == PairKeys(combos)
  {
    thesePairs := [];
    var i := 0;
    while i < |combos|
      invariant 0 <= i <= |combos|
      invariant thesePairs == PairKeys(combos[..i])
    {
      assert combos[..i + 1][..i] == combos[..i];
      if |combos[i]| == 2 {
        thesePairs := thesePairs + [IntervalIndexers.PairLabel(combos[i][0], combos[i][1])];
      }
      i := i + 1;
    }
    assert combos[..i] == combos;
  }

  /** The keys of vert_ints that are not among the pairs to keep. */
  method KeysToDelete<V>(vertInts: map<string, V>, keep: seq<string>) returns (deleteThese: set<string>)
    ensures forall k :: k in deleteThese <==> k in vertInts && k !in keep
  {
    deleteThese := {};
    var keys := vertInts.Keys;
    while keys != {}
      invariant keys <= vertInts.Keys
      invariant forall k :: k in deleteThese <==> k in vertInts && k !in keys && k !in keep
      decreases |keys|
    {
      var key :| key in keys;
      if key !in keep {
        deleteThese := deleteThese + {key};
      }
      keys := keys - {key};
    }
  }

  /** `del vert_ints[key]` for each key to delete. */
  method DeleteKeys<V>(vertInts: map<string, V>, deleteThese: set<string>) returns (r: map<string, V>)
    ensures r == map k | k in vertInts && k !in deleteThese :: vertInts[k]
  {
    r := vertInts;
    var rest := deleteThese;
    while rest != {}
      invariant rest <= deleteThese
      invariant r == map k | k in vertInts && (k !in deleteThese || k in rest) :: vertInts[k]
      decreases |rest|
    {
      var key :| key in rest;
      r := r - {key};
      rest := rest - {key};
    }
  }

  // ---------------------------------------------------------------------------
  // _run_off_rep

  /** What _run_off_rep is given: a list of parts, or the dict IntervalIndexer returns, in key order. */
  datatype Parts<V> = PartList(items: seq<V>) | PartDict(entries: seq<(string, V)>)

  function KeysOf<V>(entries: seq<(string, V)>): (r: seq<string>)
    ensures |r| == |entries|
  {
    seq(|entries|, k requires 0 <= k < |entries| => entries[k].0)
  }

  function Values<V>(entries: seq<(string, V)>): (r: seq<V>)
    ensures |r| == |entries|
  {
    seq(|entries|, k requires 0 <= k < |entries| => entries[k].1)
  }

  /** {keys[i]: parts[i] for i in xrange(len(keys))}. */
  function Zip<V>(keys: seq<string>, parts: seq<V>): (r: seq<(string, V)>)
    requires |keys| <= |parts|
    ensures KeysOf(r) == keys && Values(r) == parts[..|keys|]
  {
    seq(|keys|, k requires 0 <= k < |keys| => (keys[k], parts[k]))
  }

  /** Taking a dict apart into its keys and values and zipping them again gives it back. */
  lemma ZipNamesValues<V>(entries: seq<(string, V)>)
    ensures Zip(KeysOf(entries), Values(entries)) == entries
  {
  }

  function Items<V>(p: Parts<V>): seq<V> {
    match p
    case PartList(xs) => xs
    case PartDict(es) => Values(es)
  }

  /** The parts after the offset filter (when the piece has an offset interval) and then the repeat filter (when filter repeats is True). */
  function Filtered<V>(piece: map<string, Value>, items: seq<V>, offsetFilter: (Value, seq<V>) -> seq<V>, repeatFilter: seq<V> -> seq<V>): seq<V>
    requires OffsetInterval in piece && FilterRepeats in piece
  {
    var off := piece[OffsetInterval];
    var once := if off.VNone? then items else offsetFilter(off, items);
    if piece[FilterRepeats] == VBool(true) then repeatFilter(once) else once
  }

  // ---------------------------------------------------------------------------
  // load('pieces')

  /** Python's s[:i] + s[i + 1:]: s without its element i, or s itself when i is past its end. */
  function RemoveAt<T>(s: seq<T>, i: nat): (r: seq<T>)
    ensures |r| == if i < |s| then |s| - 1 else |s|
  {
    if i < |s| then s[..i] + s[i + 1..] else s
  }

  /** RemoveAt keeps the elements before i and moves those after it down by one. */
  lemma RemoveAtSpec<T>(s: seq<T>, i: nat)
    ensures i < |s| ==> (forall k :: 0 <= k < i ==> RemoveAt(s, i)[k] == s[k]) && (forall k :: i <= k < |s| - 1 ==> RemoveAt(s, i)[k] == s[k + 1])
    ensures i >= |s| ==> RemoveAt(s, i) == s
  {
  }

  /**
   * How each piece imports, in load(): None when get_data returns, Some(pieces) when it
   * raises OpusWarning and get_data(known_opus=True) returns the pieces of the Opus.
   * Singles are the pieces that import as they are, in order.
   */
  function Singles<T>(ps: seq<T>, split: T -> Option<seq<T>>): seq<T> {
    if ps == [] then []
    else Singles(ps[..|ps| - 1], split) + (if split(ps[|ps| - 1]).None? then [ps[|ps| - 1]] else [])
  }

  /** The pieces the Opus files split into, Opus by Opus in order. */
  function OpusParts<T>(ps: seq<T>, split: T -> Option<seq<T>>): seq<T> {
    if ps == [] then []
    else OpusParts(ps[..|ps| - 1], split) + (match split(ps[|ps| - 1]) case None => [] case Some(ips) => ips)
  }

  /** Singles keeps exactly the pieces that are not an Opus. */
  lemma {:induction false} SinglesSpec<T>(ps: seq<T>, split: T -> Option<seq<T>>)
    ensures forall x :: x in Singles(ps, split) <==> x in ps && split(x).None?
    ensures |Singles(ps, split)| <= |ps|
  {
    if ps != [] {
      SinglesSpec(ps[..|ps| - 1], split);
      assert ps == ps[..|ps| - 1] + [ps[|ps| - 1]];
    }
  }

  /** OpusParts holds every piece of every Opus, and nothing else. */
  lemma {:induction false} OpusPartsSpec<T>(ps: seq<T>, split: T -> Option<seq<T>>)
    ensures forall k, x :: 0 <= k < |ps| && split(ps[k]).Some? && x in split(ps[k]).value ==> x in OpusParts(ps, split)
    ensures forall x :: x in OpusParts(ps, split) ==> exists k :: 0 <= k < |ps| && split(ps[k]).Some? && x in split(ps[k]).value
  {
    if ps != [] {
      var init := ps[..|ps| - 1];
      OpusPartsSpec(init, split);
      forall x | x in OpusParts(ps, split)
        ensures exists k :: 0 <= k < |ps| && split(ps[k]).Some? && x in split(ps[k]).value
      {
        if x in OpusParts(init, split) {
          var k :| 0 <= k < |init| && split(init[k]).Some? && x in split(init[k]).value;
          assert ps[k] == init[k];
        } else {
          assert split(ps[|ps| - 1]).Some? && x in split(ps[|ps| - 1]).value;
        }
      }
      forall k, x | 0 <= k < |ps| && split(ps[k]).Some? && x in split(ps[k]).value
        ensures x in OpusParts(ps, split)
      {
        if k < |init| {
          assert ps[k] == init[k];
        }
      }
    }
  }

  /**
   * The pieces after k turns of a loop over the original pieces that replaces each Opus
   * by its pieces at the end: the pieces still to come are kept where they are.
   */
  function LoadState<T>(ps: seq<T>, k: nat, split: T -> Option<seq<T>>): seq<T>
    requires k <= |ps|
  {
    Singles(ps[..k], split) + ps[k..] + OpusParts(ps[..k], split)
  }

  /** Before the first turn the pieces are the original ones; after the last, the singles and then the Opus parts. */
  lemma LoadStateEnds<T>(ps: seq<T>, split: T -> Option<seq<T>>)
    ensures LoadState(ps, 0, split) == ps
    ensures LoadState(ps, |ps|, split) == Singles(ps, split) + OpusParts(ps, split)
  {
    assert ps[..0] == [] && ps[0..] == ps;
    assert ps[..|ps|] == ps && ps[|ps|..] == [];
  }

  /** One turn: an Opus is found at the position just after the singles before it. */
  lemma LoadStateStep<T>(ps: seq<T>, k: nat, split: T -> Option<seq<T>>)
    requires k < |ps|
    ensures split(ps[k]).None? ==> LoadState(ps, k + 1, split) == LoadState(ps, k, split)
    ensures split(ps[k]).Some? ==>
      LoadState(ps, k + 1, split) == RemoveAt(LoadState(ps, k, split), |Singles(ps[..k], split)|) + split(ps[k]).value
  {
    if split(ps[k]).None? {
      SingleStep(ps, k, split);
    } else {
      OpusStep(ps, k, split);
    }
  }

  lemma SingleStep<T>(ps: seq<T>, k: nat, split: T -> Option<seq<T>>)
    requires k < |ps| && split(ps[k]).None?
    ensures LoadState(ps, k + 1, split) == LoadState(ps, k, split)
  {
    var before, after := ps[..k], ps[..k + 1];
    assert after[..k] == before && after[k] == ps[k];
    assert ps[k..] == [ps[k]] + ps[k + 1..];
    assert Singles(after, split) == Singles(before, split) + [ps[k]];
    assert OpusParts(after, split) == OpusParts(before, split);
  }

  lemma OpusStep<T>(ps: seq<T>, k: nat, split: T -> Option<seq<T>>)
    requires k < |ps| && split(ps[k]).Some?
    ensures LoadState(ps, k + 1, split) == RemoveAt(LoadState(ps, k, split), |Singles(ps[..k], split)|) + split(ps[k]).value
  {
    var before, after := ps[..k], ps[..k + 1];
    assert after[..k] == before && after[k] == ps[k];
    var front, parts := Singles(before, split), OpusParts(before, split);
    assert ps[k..] == [ps[k]] + ps[k + 1..];
    assert Singles(after, split) == front;
    assert OpusParts(after, split) == parts + split(ps[k]).value;
    var x := LoadState(ps, k, split);
    assert x == front + ([ps[k]] + ps[k + 1..]) + parts;
    assert x[..|front|] == front;
    assert x[|front| + 1..] == ps[k + 1..] + parts;
    assert RemoveAt(x, |front|) == front + (ps[k + 1..] + parts);
    assert LoadState(ps, k + 1, split) == front + ps[k + 1..] + (parts + split(ps[k]).value);
  }

  /** The pieces after load('pieces') as written, after k turns of the loop over the original list. */
  function LoadAsWritten<T>(ps: seq<T>, k: nat, split: T -> Option<seq<T>>): seq<T>
    requires k <= |ps|
  {
    if k == 0 then ps
    else
      var d := LoadAsWritten(ps, k - 1, split);
      if split(ps[k - 1]).None? then d else RemoveAt(d, k - 1) + split(ps[k - 1]).value
  }

  /** No piece at all is an Opus: nothing is singled out or split. */
  lemma {:induction false} NoOpus<T>(ps: seq<T>, split: T -> Option<seq<T>>)
    requires forall k :: 0 <= k < |ps| ==> split(ps[k]).None?
    ensures Singles(ps, split) == ps && OpusParts(ps, split) == []
  {
    if ps != [] {
      NoOpus(ps[..|ps| - 1], split);
      assert ps == ps[..|ps| - 1] + [ps[|ps| - 1]];
    }
  }

  /** With no Opus among the pieces but the one at j, each turn as written is a turn of LoadState. */
  lemma {:induction false} LoadAsWrittenPrefix<T>(ps: seq<T>, k: nat, split: T -> Option<seq<T>>, j: int)
    requires k <= |ps|
    requires forall a :: 0 <= a < |ps| && a != j ==> split(ps[a]).None?
    ensures LoadAsWritten(ps, k, split) == LoadState(ps, k, split)
  {
    if k == 0 {
      assert ps[..0] == [];
      assert ps[0..] == ps;
    } else {
      LoadAsWrittenPrefix(ps, k - 1, split, j);
      LoadStateStep(ps, k - 1, split);
      var prev := LoadState(ps, k - 1, split);
      var turn := split(ps[k - 1]);
      if turn.Some? {
        var before := ps[..k - 1];
        forall a | 0 <= a < |before| ensures split(before[a]).None? {
          assert before[a] == ps[a];
        }
        NoOpus(before, split);
        var now := RemoveAt(prev, k - 1) + turn.value;
        assert LoadAsWritten(ps, k, split) == now;
        assert LoadState(ps, k, split) == now;
      } else {
        assert LoadAsWritten(ps, k, split) == prev;
        assert LoadState(ps, k, split) == prev;
      }
    }
  }

  /**
   * As written, load('pieces') gives the intended pieces whenever at most one file is an
   * Opus: every piece but the one at j imports as it is.
   */
  lemma LoadWithOneOpus<T>(ps: seq<T>, split: T -> Option<seq<T>>, j: int)
    requires forall a :: 0 <= a < |ps| && a != j ==> split(ps[a]).None?
    ensures LoadAsWritten(ps, |ps|, split) == Singles(ps, split) + OpusParts(ps, split)
  {
    LoadAsWrittenPrefix(ps, |ps|, split, j);
    LoadStateEnds(ps, split);
  }

  /** Two files that each import as an Opus of one piece: 1 splits into 3 and 2 into 4. */
  function TwoOpusSplit(x: int): Option<seq<int>> {
    if x == 1 then Some([3]) else if x == 2 then Some([4]) else None
  }

  /**
   * As written, the second Opus is removed by its index in the original list, which by then
   * holds the piece of the first Opus: that piece is lost and the second Opus file stays.
   */
  lemma TwoOpusFiles()
    ensures LoadAsWritten([1, 2], 2, TwoOpusSplit) == [2, 4]
    ensures Singles([1, 2], TwoOpusSplit) + OpusParts([1, 2], TwoOpusSplit) == [3, 4]
  {
    assert [1, 2][..1] == [1];
    assert LoadAsWritten([1, 2], 1, TwoOpusSplit) == [2, 3];
  }

  // ---------------------------------------------------------------------------
  // WorkflowManager

  class WorkflowManager {
    var data: seq<IndexedPieces.IndexedPiece>
    var result: Option<Series>
    var settings: seq<map<string, Value>>
    var shared: map<string, Value>
    var previousExp: Option<string>
    var loaded: bool

    ghost predicate Valid()
      reads this
    {
      Uniform(Store(shared, settings))
    }

    /** WorkflowManager(pathnames): a new piece per pathname, the given pieces kept, everything else dropped. */
    constructor (pathnames: seq<PathArg>)
      ensures Valid()
      ensures |data| == |Kept(pathnames)|
      ensures forall k :: 0 <= k < |data| && Kept(pathnames)[k].Existing? ==> data[k] == Kept(pathnames)[k].piece
      ensures forall k :: 0 <= k < |data| && Kept(pathnames)[k].Path? ==>
        fresh(data[k]) && data[k].metadata == map["pathname" := VStr(Kept(pathnames)[k].path)] && data[k].data == map[]
      ensures settings == seq(|data|, _ => PieceDefaults) && shared == SharedDefaults
      ensures result.None? && previousExp.None? && !loaded
    {
      var pieces: seq<IndexedPieces.IndexedPiece> := [];
      var i := 0;
      while i < |pathnames|
        invariant 0 <= i <= |pathnames|
        invariant |pieces| == |Kept(pathnames[..i])|
        invariant forall k :: 0 <= k < |pieces| && Kept(pathnames[..i])[k].Existing? ==> pieces[k] == Kept(pathnames[..i])[k].piece
        invariant forall k :: 0 <= k < |pieces| && Kept(pathnames[..i])[k].Path? ==>
          fresh(pieces[k]) && pieces[k].metadata == map["pathname" := VStr(Kept(pathnames[..i])[k].path)] && pieces[k].data == map[]
      {
        assert pathnames[..i + 1][..i] == pathnames[..i];
        match pathnames[i] {
          case Path(p) =>
            var ip := new IndexedPieces.IndexedPiece(p);
            pieces := pieces + [ip];
          case Existing(ip) =>
            pieces := pieces + [ip];
          case Other =>
        }
        i := i + 1;
      }
      assert pathnames[..i] == pathnames;
      data := pieces;
      result := None;
      settings := seq(|pieces|, _ => PieceDefaults);
      shared := SharedDefaults;
      previousExp := None;
      loaded := false;
    }

    /**
     * load(instruction): 'pieces' imports every piece, where split says how each one imports;
     * an Opus is replaced by its pieces at the end. The other formats are not implemented.
     */
    method Load(instruction: string, split: IndexedPieces.IndexedPiece -> Option<seq<IndexedPieces.IndexedPiece>>)
      returns (err: Option<Error>)
      modifies this
      ensures instruction == "pieces" ==> err.None? && loaded
      ensures instruction == "pieces" ==> data == Singles(old(data), split) + OpusParts(old(data), split)
      ensures instruction == "hdf5" || instruction == "stata" || instruction == "pickle" ==>
        err == Some(NotImplementedError("The " + instruction + " instruction does't work yet!"))
      ensures instruction != "pieces" && instruction != "hdf5" && instruction != "stata" && instruction != "pickle" ==>
        err == Some(RuntimeError("Unrecognized load() instruction: \"" + instruction + "\""))
      ensures err.Some? ==> loaded == old(loaded) && data == old(data)
      ensures settings == old(settings) && shared == old(shared)
      ensures result == old(result) && previousExp == old(previousExp)
    {
      if instruction == "pieces" {
        LoadPieces(split);
        err := None;
      } else if instruction == "hdf5" || instruction == "stata" || instruction == "pickle" {
        return Some(NotImplementedError("The " + instruction + " instruction does't work yet!"));
      } else {
        return Some(RuntimeError("Unrecognized load() instruction: \"" + instruction + "\""));
      }
      loaded := true;
    }

    /** The loop of load('pieces'): each Opus is removed from where it now is and its pieces appended. */
    method LoadPieces(split: IndexedPieces.IndexedPiece -> Option<seq<IndexedPieces.IndexedPiece>>)
      modifies this
      ensures data == Singles(old(data), split) + OpusParts(old(data), split)
      ensures settings == old(settings) && shared == old(shared) && loaded == old(loaded)
      ensures result == old(result) && previousExp == old(previousExp)
    {
      var original := data;
      var i := 0;
      var singles := 0;
      LoadStateEnds(original, split);
      while i < |original|
        invariant 0 <= i <= |original|
        invariant singles == |Singles(original[..i], split)|
        invariant data == LoadState(original, i, split)
        invariant settings == old(settings) && shared == old(shared) && loaded == old(loaded)
        invariant result == old(result) && previousExp == old(previousExp)
      {
        LoadStateStep(original, i, split);
        assert original[..i + 1][..i] == original[..i];
        var opus := split(original[i]);
        if opus.Some? {
          data := RemoveAt(data, singles) + opus.value;
        } else {
          singles := singles + 1;
        }
        i := i + 1;
      }
    }

    /**
     * run(instruction): 'intervals' or 'interval n-grams' by prefix, after load(); the
     * experiments' results are the parameters intervals and ngrams.
     */
    method Run(instruction: string, intervals: Series, ngrams: Series) returns (r: Result<Series>)
      modifies this
      ensures !old(loaded) ==> r == Failure(RuntimeError("Please call load() before you call run()"))
      ensures old(loaded) && StartsWith(instruction, "intervals") ==>
        r == Success(intervals) && previousExp == Some("intervals") && result == Some(intervals)
      ensures old(loaded) && StartsWith(instruction, "interval n-grams") ==>
        r == Success(ngrams) && previousExp == Some("n-grams") && result == Some(ngrams)
      ensures old(loaded) && !StartsWith(instruction, "intervals") && !StartsWith(instruction, "interval n-grams") ==>
        r == Failure(RuntimeError(RunMessage))
      ensures r.Failure? ==> result == old(result) && previousExp == old(previousExp)
      ensures data == old(data) && settings == old(settings) && shared == old(shared) && loaded == old(loaded)
    {
      if !loaded {
        return Failure(RuntimeError("Please call load() before you call run()"));
      }
      if StartsWith(instruction, "interval n-grams") {
        NgramsReachable(instruction);
      }
      if |instruction| < 9 {
        return Failure(RuntimeError(RunMessage));
      }
      if StartsWith(instruction, "intervals") {
        previousExp := Some("intervals");
        r := Success(intervals);
      } else if StartsWith(instruction, "interval n-grams") {
        previousExp := Some("n-grams");
        r := Success(ngrams);
      } else {
        return Failure(RuntimeError(RunMessage));
      }
      result := Some(r.value);
    }

    /** settings(index, field, value); value VNone reads the field. */
    method Settings(index: Option<int>, field: string, value: Value) returns (r: Result<Value>)
      requires Valid()
      modifies this
      decreases if index.None? then 2 else 0
      ensures Valid()
      ensures (r, Store(shared, settings)) == Setting(Store(old(shared), old(settings)), index, field, value)
      ensures data == old(data) && result == old(result) && previousExp == old(previousExp) && loaded == old(loaded)
    {
      if field in shared {
        if value.VNone? {
          return Success(shared[field]);
        }
        shared := shared[field := value];
        return Success(VNone);
      }
      if index.None? {
        if value.VNone? {
          return Failure(ValueError);
        }
        r := Broadcast(field, value);
        return;
      }
      var idx := index.value;
      if !(0 <= idx < |settings|) {
        return Failure(IndexError);
      }
      if field !in settings[idx] {
        return Failure(AttributeError(field));
      }
      if value.VNone? {
        return Success(settings[idx][field]);
      }
      settings := settings[idx := settings[idx][field := StoredValue(field, value)]];
      r := Success(VNone);
    }

    /** settings(None, field, value) for a per-piece field: settings(i, field, value) for each piece in turn. */
    method Broadcast(field: string, value: Value) returns (r: Result<Value>)
      requires Valid() && field !in shared && !value.VNone?
      modifies this
      decreases 1
      ensures Valid()
      ensures (r, Store(shared, settings)) == Setting(Store(old(shared), old(settings)), None, field, value)
      ensures data == old(data) && result == old(result) && previousExp == old(previousExp) && loaded == old(loaded)
    {
      ghost var spec := Setting(Store(shared, settings), None, field, value);
      var i := 0;
      while i < |settings|
        invariant 0 <= i <= |settings| == |old(settings)|
        invariant Valid() && shared == old(shared)
        invariant data == old(data) && result == old(result) && previousExp == old(previousExp) && loaded == old(loaded)
        invariant i > 0 ==> field in PieceDefaults
        invariant forall k :: 0 <= k < i ==> settings[k] == old(settings)[k][field := StoredValue(field, value)]
        invariant forall k :: i <= k < |settings| ==> settings[k] == old(settings)[k]
      {
        ghost var before := settings;
        r := Settings(Some(i), field, value);
        if r.Failure? {
          assert i == 0 && field !in PieceDefaults;
          assert before == old(settings);
          return;
        }
        assert settings == before[i := before[i][field := StoredValue(field, value)]];
        i := i + 1;
      }
      assert |spec.1.pieces| == |settings|;
      assert forall k :: 0 <= k < |settings| ==> settings[k] == spec.1.pieces[k];
      assert settings == spec.1.pieces;
      r := Success(VNone);
    }

    /** A read of settings(index, field) on the current state. */
    function Get(index: int, field: string): Result<Value>
      requires Valid()
      reads this
    {
      Setting(Store(shared, settings), Some(index), field, VNone).0
    }

    /**
     * _run_off_rep(index, so_far): the offset filter when the piece has an offset interval,
     * then the repeat filter when its filter repeats is True; a dict comes back with its keys
     * in their order. The two filtering indexers are the parameters.
     */
    method RunOffRep<V>(index: int, soFar: Parts<V>, offsetFilter: (Value, seq<V>) -> seq<V>, repeatFilter: seq<V> -> seq<V>)
      returns (r: Result<Parts<V>>)
      requires Valid()
      ensures !(0 <= index < |settings|) ==> r == Failure(IndexError)
      ensures 0 <= index < |settings| && settings[index][OffsetInterval].VNone? && settings[index][FilterRepeats] != VBool(true) ==>
        r == Success(soFar)
      ensures r.Success? ==> 0 <= index < |settings| && r.value.PartList? == soFar.PartList?
      ensures r.Success? && soFar.PartDict? ==> KeysOf(r.value.entries) == KeysOf(soFar.entries)
      ensures r.Success? ==>
        var off := settings[index][OffsetInterval];
        var once := if off.VNone? then Items(soFar) else offsetFilter(off, Items(soFar));
        var twice := if settings[index][FilterRepeats] == VBool(true) then repeatFilter(once) else once;
        |Items(r.value)| <= |twice| && Items(r.value) == twice[..|Items(r.value)|] &&
        (soFar.PartList? ==> Items(r.value) == twice)
      ensures r.Success? <==> (0 <= index < |settings| &&
        (soFar.PartDict? ==> |soFar.entries| <= |Filtered(settings[index], Items(soFar), offsetFilter, repeatFilter)|))
      ensures 0 <= index < |settings| && soFar.PartList? ==>
        r == Success(PartList(Filtered(settings[index], soFar.items, offsetFilter, repeatFilter)))
      ensures 0 <= index < |settings| && soFar.PartDict? ==>
        var twice := Filtered(settings[index], Items(soFar), offsetFilter, repeatFilter);
        r == if |twice| < |soFar.entries| then Failure(IndexError) else Success(PartDict(Zip(KeysOf(soFar.entries), twice)))
    {
      var dictKeys: Option<seq<string>> := None;
      var parts := Items(soFar);
      if soFar.PartDict? {
        dictKeys := Some(KeysOf(soFar.entries));
      }
      var off := Get(index, OffsetInterval);
      if off.Failure? {
        return Failure(off.error);
      }
      if !off.value.VNone? {
        parts := offsetFilter(off.value, parts);
      }
      var rep := Get(index, FilterRepeats);
      if rep.Failure? {
        return Failure(rep.error);
      }
      if rep.value == VBool(true) {
        parts := repeatFilter(parts);
      }
      if dictKeys.Some? {
        if |parts| < |dictKeys.value| {
          return Failure(IndexError);
        }
        var entries := Zip(dictKeys.value, parts);
        if off.value.VNone? && rep.value != VBool(true) {
          ZipNamesValues(soFar.entries);
        }
        return Success(PartDict(entries));
      }
      r := Success(PartList(parts));
    }

    /**
     * export(form, pathname, top_x, threshold): the pathname written and the table written
     * there; the file itself is not part of this model.
     */
    method Export(form: string, pathname: Option<string>, topX: Option<int>, threshold: Option<real>)
      returns (r: Result<(string, Frame)>)
      ensures result.None? ==> r == Failure(RuntimeError("Call run() before calling export()"))
      ensures result.Some? && Extension(form).None? ==> r == Failure(RuntimeError("Unrecognized output format: " + form))
      ensures r.Success? ==> Extension(form).Some? && EndsWith(r.value.0, Extension(form).value)
      ensures r.Success? && pathname.Some? && EndsWith(pathname.value, Extension(form).value) ==> r.value.0 == pathname.value
      ensures r.Success? ==> result.Some? && r.value.1 == GetDataframe(result.value, "data", topX, threshold)
      ensures result.Some? && Extension(form).Some? ==>
        r == Success((ExportPath(pathname, Extension(form).value), GetDataframe(result.value, "data", topX, threshold)))
    {
      if result.None? {
        return Failure(RuntimeError("Call run() before calling export()"));
      }
      var exportMe := GetDataframe(result.value, "data", topX, threshold);
      var ext := Extension(form);
      if ext.None? {
        return Failure(RuntimeError("Unrecognized output format: " + form));
      }
      var path := ExportPath(pathname, ext.value);
      ExportPathSpec(if pathname.None? then "test_output/no_path" else pathname.value, ext.value);
      r := Success((path, exportMe));
    }

    /**
     * output(instruction, pathname, top_x, threshold): for 'R histogram', the PNG pathname and
     * the Rscript command line; rError is the output and return code of a failed R call, and
     * show renders a setting n that is a float or a list.
     */
    method Output(instruction: string, pathname: Option<string>, rError: Option<(string, string)>, show: Value -> string)
      returns (r: Result<string>, call: seq<string>)
      requires Valid()
      ensures instruction == "LilyPond" ==> r == Failure(NotImplementedError("I didn't write that part yet!"))
      ensures instruction != "LilyPond" && instruction != "R histogram" ==> r == Failure(RuntimeError("Unrecognized instruction: " + instruction))
      ensures instruction == "R histogram" && result.None? ==> r == Failure(RuntimeError("Call run() before calling export()"))
      ensures instruction == "R histogram" && result.Some? ==>
        var path := if pathname.None? then "test_output/output_result" else pathname.value;
        call == ["Rscript", "--vanilla", RBarChartPath, path + ".dta", path + ".png",
                 OutputToken(previousExp, shared["n"], show), NatToString(|data|)] &&
        r == (if rError.None? then Success(path + ".png")
              else Failure(RuntimeError("Error during call to R: " + rError.value.0 + " (return code: " + rError.value.1 + ")")))
    {
      call := [];
      if instruction == "LilyPond" {
        return Failure(NotImplementedError("I didn't write that part yet!")), call;
      }
      if instruction != "R histogram" {
        return Failure(RuntimeError("Unrecognized instruction: " + instruction)), call;
      }
      if result.None? {
        return Failure(RuntimeError("Call run() before calling export()")), call;
      }
      var path := if pathname.None? then "test_output/output_result" else pathname.value;
      var stataPath := path + ".dta";
      var pngPath := path + ".png";
      var token := OutputToken(previousExp, shared["n"], show);
      call := ["Rscript", "--vanilla", RBarChartPath, stataPath, pngPath, token, NatToString(|data|)];
      if rError.Some? {
        return Failure(RuntimeError("Error during call to R: " + rError.value.0 + " (return code: " + rError.value.1 + ")")), call;
      }
      r := Success(pngPath);
    }
  }
}
