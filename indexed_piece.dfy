// models/indexed_piece.py: IndexedPiece and its settings-keyed cache of indices.
// The dynamic __import__/eval lookup of an indexer class is a static registry, an
// indexer's run() is the parameter `run`, and the score import (converter.parse) is
// not part of this model beyond being counted.
module IndexedPieces {
  import opened Wrappers
  import opened PyValues

  type Settings = map<string, Value>

  /** What add_index reads from an indexer class: possible_settings, default_settings, requires_score, required_indices. */
  datatype IndexerClass = IndexerClass(
    possibleSettings: seq<string>,
    defaultSettings: Settings,
    requiresScore: bool,
    requiredIndices: seq<string>)

  /** The indexer classes that can be imported, by name. */
  type Registry = map<string, IndexerClass>

  /** An indexer's run(): the index it computes with the given settings. */
  type Runner = (string, Settings) -> Value

  /** The cache: for each indexer name, the index for each settings map it has been run with. */
  type Cache = map<string, map<Settings, Value>>

  // ---------------------------------------------------------------------------
  // Settings resolution

  /**
   * this_settings: each possible setting from the user's settings, else from the defaults;
   * None (u'spoiled') as soon as one has neither.
   */
  function Resolve(possible: seq<string>, defaults: Settings, given: Settings): Option<Settings> {
    if possible == [] then Some(map[])
    else
      match Resolve(possible[..|possible| - 1], defaults, given)
      case None => None
      case Some(m) =>
        var s := possible[|possible| - 1];
        if s in given then Some(m[s := given[s]])
        else if s in defaults then Some(m[s := defaults[s]])
        else None
  }

  /**
   * The settings resolve exactly when every possible setting is given or has a default;
   * then they hold just the possible settings, the user's value winning over the default.
   */
  lemma {:induction false} ResolveSpec(possible: seq<string>, defaults: Settings, given: Settings)
    ensures Resolve(possible, defaults, given).Some? <==> forall s :: s in possible ==> s in given || s in defaults
    ensures Resolve(possible, defaults, given).Some? ==> Resolve(possible, defaults, given).value.Keys == set s | s in possible
    ensures Resolve(possible, defaults, given).Some? ==>
      forall s :: s in possible ==> Resolve(possible, defaults, given).value[s] == if s in given then given[s] else defaults[s]
  {
    if possible != [] {
      var p := possible[..|possible| - 1];
      ResolveSpec(p, defaults, given);
      assert forall s :: s in possible <==> s in p || s == possible[|possible| - 1];
    }
  }

  /** The settings loop of add_index: stops at the first setting with neither a value nor a default. */
  method ResolveSettings(ic: IndexerClass, given: Settings) returns (r: Option<Settings>)
    ensures r == Resolve(ic.possibleSettings, ic.defaultSettings, given)
  {
    var m: Settings := map[];
    var i := 0;
    while i < |ic.possibleSettings|
      invariant 0 <= i <= |ic.possibleSettings|
      invariant Resolve(ic.possibleSettings[..i], ic.defaultSettings, given) == Some(m)
    {
      var sett := ic.possibleSettings[i];
      assert ic.possibleSettings[..i + 1][..i] == ic.possibleSettings[..i];
      if sett in given {
        m := m[sett := given[sett]];
      } else if sett in ic.defaultSettings {
        m := m[sett := ic.defaultSettings[sett]];
      } else {
        ResolveSpoiled(ic.possibleSettings, i + 1, ic.defaultSettings, given);
        return None;
      }
      i := i + 1;
    }
    assert ic.possibleSettings[..i] == ic.possibleSettings;
    r := Some(m);
  }

  lemma {:induction false} ResolveSpoiled(possible: seq<string>, k: nat, defaults: Settings, given: Settings)
    requires k <= |possible| && Resolve(possible[..k], defaults, given).None?
    ensures Resolve(possible, defaults, given).None?
    decreases |possible| - k
  {
    if k < |possible| {
      assert possible[..k + 1][..k] == possible[..k];
      ResolveSpoiled(possible, k + 1, defaults, given);
    } else {
      assert possible[..k] == possible;
    }
  }

  /** The settings an indexer of the registry runs with, if they resolve. */
  function SettingsOf(reg: Registry, name: string, given: Settings): Option<Settings>
    requires name in reg
  {
    Resolve(reg[name].possibleSettings, reg[name].defaultSettings, given)
  }

  // ---------------------------------------------------------------------------
  // The errors add_index raises after its loop

  /** The names add_index cannot import, in request order. */
  function Unknown(which: seq<string>, reg: Registry): seq<string> {
    if which == [] then []
    else Unknown(which[..|which| - 1], reg) + (if which[|which| - 1] !in reg then [which[|which| - 1]] else [])
  }

  /** The names whose settings do not resolve, in request order. */
  function Spoiled(which: seq<string>, reg: Registry, given: Settings): seq<string> {
    if which == [] then []
    else
      var n := which[|which| - 1];
      Spoiled(which[..|which| - 1], reg, given) + (if n in reg && SettingsOf(reg, n, given).None? then [n] else [])
  }

  /** The items of unicode() of a list of unicode strings, separated by ", ". */
  function ReprItems(names: seq<string>): string {
    if names == [] then ""
    else if |names| == 1 then Quote(names[0])
    else ReprItems(names[..|names| - 1]) + ", " + Quote(names[|names| - 1])
  }

  /** unicode() of a list of unicode strings: [u'a', u'b']. */
  function Repr(names: seq<string>): string {
    "[" + ReprItems(names) + "]"
  }

  const ImportPrefix := "Unable to import requested Indexers: "
  const SettingsPrefix := "Indexers missing required settings: "

  /** The error add_index ends with: unknown indexers first, then indexers missing settings. */
  function Outcome(unknown: seq<string>, spoiled: seq<string>): Option<Error> {
    if unknown != [] then Some(RuntimeError(ImportPrefix + Repr(unknown)))
    else if spoiled != [] then Some(RuntimeError(SettingsPrefix + Repr(spoiled)))
    else None
  }

  /** The error as models/indexed_piece.py:285 writes it: the list it prints is missing_indexers. */
  function OutcomeAsWritten(unknown: seq<string>, spoiled: seq<string>): Option<Error> {
    if unknown != [] then Some(RuntimeError(ImportPrefix + Repr(unknown)))
    else if spoiled != [] then Some(RuntimeError(SettingsPrefix + Repr(unknown)))
    else None
  }

  /** t occurs in s at i. */
  predicate At(s: string, t: string, i: nat) {
    i + |t| <= |s| && s[i..i + |t|] == t
  }

  /** t occurs in s. */
  ghost predicate Contains(s: string, t: string) {
    exists i: nat :: At(s, t, i)
  }

  lemma ContainsInside(a: string, s: string, b: string, t: string)
    requires Contains(s, t)
    ensures Contains(a + s + b, t)
  {
    var i: nat :| At(s, t, i);
    assert (a + s + b)[|a| + i..|a| + i + |t|] == t;
    assert At(a + s + b, t, |a| + i);
  }

  lemma ContainsEnd(a: string, t: string)
    ensures Contains(a + t, t)
  {
    assert (a + t)[|a|..|a| + |t|] == t;
    assert At(a + t, t, |a|);
  }

  /** u'name': a name as unicode() of a list shows it. */
  function Quote(n: string): string {
    "u'" + n + "'"
  }

  /** Every listed name appears, quoted, in the list's text. */
  lemma {:induction false} ReprItemsNames(names: seq<string>)
    ensures forall k :: 0 <= k < |names| ==> Contains(ReprItems(names), Quote(names[k]))
  {
    if |names| == 1 {
      ContainsEnd("", Quote(names[0]));
      assert "" + Quote(names[0]) == ReprItems(names);
    } else if |names| > 1 {
      var p, x := names[..|names| - 1], names[|names| - 1];
      ReprItemsNames(p);
      var s := ReprItems(names);
      assert s == ReprItems(p) + ", " + Quote(x);
      forall k | 0 <= k < |p|
        ensures Contains(s, Quote(names[k]))
      {
        assert names[k] == p[k];
        ContainsInside("", ReprItems(p), ", " + Quote(x), Quote(p[k]));
        assert "" + ReprItems(p) + (", " + Quote(x)) == s;
      }
      ContainsEnd(ReprItems(p) + ", ", Quote(x));
    }
  }

  /** A message made of a prefix and a list names every item of the list. */
  lemma NamedInMessage(prefix: string, names: seq<string>, n: string)
    requires n in names
    ensures Contains(prefix + Repr(names), Quote(n))
  {
    ReprItemsNames(names);
    var k :| 0 <= k < |names| && names[k] == n;
    ContainsInside("[", ReprItems(names), "]", Quote(n));
    ContainsAfter(prefix, Repr(names), Quote(n));
  }

  lemma ContainsAfter(a: string, s: string, t: string)
    requires Contains(s, t)
    ensures Contains(a + s, t)
  {
    var i: nat :| At(s, t, i);
    assert (a + s)[|a| + i..|a| + i + |t|] == t;
    assert At(a + s, t, |a| + i);
  }

  /** A text without an apostrophe holds no quoted name. */
  lemma NoQuote(msg: string, n: string)
    requires '\'' !in msg
    ensures !Contains(msg, Quote(n))
  {
    var t := Quote(n);
    assert t[1] == '\'';
    forall i: nat
      ensures !At(msg, t, i)
    {
      if i + |t| <= |msg| {
        assert msg[i..i + |t|][1] == msg[i + 1];
        assert msg[i + 1] in msg;
      }
    }
  }

  /** The corrected message names every indexer that is missing settings. */
  lemma OutcomeNamesSpoiled(spoiled: seq<string>, n: string)
    requires n in spoiled
    ensures Outcome([], spoiled).Some? && Outcome([], spoiled).value.RuntimeError?
    ensures Contains(Outcome([], spoiled).value.message, Quote(n))
  {
    NamedInMessage(SettingsPrefix, spoiled, n);
  }

  /**
   * As written, the message for indexers missing settings prints the empty list of unknown
   * indexers, so it names none of them.
   */
  lemma OutcomeAsWrittenNamesNothing(spoiled: seq<string>, n: string)
    requires n in spoiled
    ensures OutcomeAsWritten([], spoiled) == Some(RuntimeError(SettingsPrefix + "[]"))
    ensures !Contains(OutcomeAsWritten([], spoiled).value.message, Quote(n))
  {
    assert Repr([]) == "[]";
    var prefix := SettingsPrefix;
    assert '\'' !in prefix;
    NoQuoteConcat(prefix, "[]");
    NoQuote(prefix + "[]", n);
  }

  lemma NoQuoteConcat(a: string, b: string)
    requires '\'' !in a && '\'' !in b
    ensures '\'' !in a + b
  {
  }

  // ---------------------------------------------------------------------------
  // Dependencies

  /** The rank strictly decreases from an indexer that does not read the score to each index it requires. */
  ghost predicate Acyclic(reg: Registry, rank: string -> nat) {
    forall n, d :: n in reg && !reg[n].requiresScore && d in reg[n].requiredIndices ==> rank(d) < rank(n)
  }

  /** The largest rank of the requested names. */
  ghost function MaxRank(which: seq<string>, rank: string -> nat): (m: nat)
    ensures forall k :: 0 <= k < |which| ==> rank(which[k]) <= m
  {
    if which == [] then 0
    else
      var p := MaxRank(which[..|which| - 1], rank);
      var r := rank(which[|which| - 1]);
      assert forall k :: 0 <= k < |which| - 1 ==> which[k] == which[..|which| - 1][k];
      if r > p then r else p
  }

  /** The indexer can be imported, its settings resolve, and so on for every index it requires. */
  ghost predicate Healthy(reg: Registry, given: Settings, name: string, rank: string -> nat)
    decreases rank(name)
  {
    name in reg && SettingsOf(reg, name, given).Some? && DepsHealthy(reg, given, name, rank)
  }

  /** Each index a runnable indexer requires is healthy, so the recursive add_index calls do not raise. */
  ghost predicate DepsHealthy(reg: Registry, given: Settings, name: string, rank: string -> nat)
    decreases rank(name), 0
  {
    name in reg && SettingsOf(reg, name, given).Some? && !reg[name].requiresScore ==>
      forall d :: d in reg[name].requiredIndices ==> rank(d) < rank(name) && Healthy(reg, given, d, rank)
  }

  /** Every stored index is what its indexer computes with the settings it is stored under. */
  ghost predicate Stored(data: Cache, run: Runner) {
    forall n, s :: n in data && s in data[n] ==> data[n][s] == run(n, s)
  }

  /** Nothing cached before is lost. */
  ghost predicate Grows(before: Cache, after: Cache) {
    forall n :: n in before ==> n in after && before[n].Keys <= after[n].Keys
  }

  /** The indexer's index for its settings is cached, and so is some index of each index it requires. */
  ghost predicate Done(data: Cache, reg: Registry, given: Settings, name: string)
    requires name in reg && SettingsOf(reg, name, given).Some?
  {
    name in data && SettingsOf(reg, name, given).value in data[name] &&
    (!reg[name].requiresScore ==> forall d :: d in reg[name].requiredIndices ==> d in data)
  }

  /** Each cached index of an indexer that does not read the score comes with some index of each index it requires. */
  ghost predicate Complete(data: Cache, reg: Registry) {
    forall n, d :: n in data && n in reg && !reg[n].requiresScore && d in reg[n].requiredIndices ==> d in data
  }

  lemma GrowsTrans(a: Cache, b: Cache, c: Cache)
    requires Grows(a, b) && Grows(b, c)
    ensures Grows(a, c)
  {
  }

  lemma DoneGrows(before: Cache, after: Cache, reg: Registry, given: Settings, name: string)
    requires name in reg && SettingsOf(reg, name, given).Some?
    requires Done(before, reg, given, name) && Grows(before, after)
    ensures Done(after, reg, given, name)
  {
    var s := SettingsOf(reg, name, given).value;
    assert name in before && s in before[name];
    if !reg[name].requiresScore {
      forall d | d in reg[name].requiredIndices
        ensures d in after
      {
        assert d in before;
      }
    }
  }

  /** Indexer a is n, or requires, directly or through other required indices, the index of n. */
  ghost predicate Needs(reg: Registry, rank: string -> nat, a: string, n: string)
    decreases rank(a)
  {
    a == n || (a in reg && !reg[a].requiresScore &&
               exists d :: d in reg[a].requiredIndices && rank(d) < rank(a) && Needs(reg, rank, d, n))
  }

  /** One of the roots is n or needs it. */
  ghost predicate Reached(reg: Registry, rank: string -> nat, roots: seq<string>, n: string) {
    exists k :: 0 <= k < |roots| && Needs(reg, rank, roots[k], n)
  }

  /** Every name cached after but not before is one of the roots or an index one of them needs. */
  ghost predicate OnlyNeeded(before: Cache, after: Cache, reg: Registry, rank: string -> nat, roots: seq<string>) {
    forall n | n in after.Keys - before.Keys :: Reached(reg, rank, roots, n)
  }

  lemma OnlyNeededTrans(a: Cache, b: Cache, c: Cache, reg: Registry, rank: string -> nat, roots: seq<string>)
    requires OnlyNeeded(a, b, reg, rank, roots) && OnlyNeeded(b, c, reg, rank, roots)
    ensures OnlyNeeded(a, c, reg, rank, roots)
  {
    forall n | n in c.Keys - a.Keys
      ensures Reached(reg, rank, roots, n)
    {
      if n in b {
        assert n in b.Keys - a.Keys;
      } else {
        assert n in c.Keys - b.Keys;
      }
    }
  }

  /** Caching the index of a name the roots reach keeps every new name reached. */
  lemma OnlyNeededStore(a: Cache, b: Cache, reg: Registry, rank: string -> nat, roots: seq<string>, name: string, v: map<Settings, Value>)
    requires OnlyNeeded(a, b, reg, rank, roots) && Reached(reg, rank, roots, name)
    ensures OnlyNeeded(a, b[name := v], reg, rank, roots)
  {
    forall n | n in b[name := v].Keys - a.Keys
      ensures Reached(reg, rank, roots, n)
    {
      if n != name {
        assert n in b.Keys - a.Keys;
      }
    }
  }

  /** Roots that all occur among wider roots. */
  lemma OnlyNeededWithin(before: Cache, after: Cache, reg: Registry, rank: string -> nat, small: seq<string>, big: seq<string>)
    requires OnlyNeeded(before, after, reg, rank, small)
    requires forall x :: x in small ==> x in big
    ensures OnlyNeeded(before, after, reg, rank, big)
  {
    forall n | n in after.Keys - before.Keys
      ensures Reached(reg, rank, big, n)
    {
      var k :| 0 <= k < |small| && Needs(reg, rank, small[k], n);
      assert small[k] in big;
      var j :| 0 <= j < |big| && big[j] == small[k];
    }
  }

  /** What an indexer's required indices need, it needs itself. */
  lemma OnlyNeededRequired(before: Cache, after: Cache, reg: Registry, rank: string -> nat, name: string)
    requires name in reg && !reg[name].requiresScore && Acyclic(reg, rank)
    requires OnlyNeeded(before, after, reg, rank, reg[name].requiredIndices)
    ensures OnlyNeeded(before, after, reg, rank, [name])
  {
    forall n | n in after.Keys - before.Keys
      ensures Reached(reg, rank, [name], n)
    {
      var k :| 0 <= k < |reg[name].requiredIndices| && Needs(reg, rank, reg[name].requiredIndices[k], n);
      var d := reg[name].requiredIndices[k];
      assert d in reg[name].requiredIndices && rank(d) < rank(name);
      assert Needs(reg, rank, [name][0], n);
    }
  }

  /** Every index cached after but not before is stored under the settings its indexer resolves from `given`. */
  ghost predicate OnlyResolved(before: Cache, after: Cache, reg: Registry, given: Settings) {
    forall n, s | n in after && s in after[n] :: ResolvedEntry(before, after, reg, given, n, s)
  }

  /** The entry (n, s) was cached before, or n resolves to s. */
  ghost predicate ResolvedEntry(before: Cache, after: Cache, reg: Registry, given: Settings, n: string, s: Settings)
    requires n in after && s in after[n]
  {
    (n in before && s in before[n]) || (n in reg && SettingsOf(reg, n, given) == Some(s))
  }

  lemma OnlyResolvedTrans(a: Cache, b: Cache, c: Cache, reg: Registry, given: Settings)
    requires OnlyResolved(a, b, reg, given) && OnlyResolved(b, c, reg, given)
    ensures OnlyResolved(a, c, reg, given)
  {
    forall n, s | n in c && s in c[n] && !(n in a && s in a[n])
      ensures n in reg && SettingsOf(reg, n, given) == Some(s)
    {
      if n in b && s in b[n] {
        assert ResolvedEntry(a, b, reg, given, n, s);
      } else {
        assert ResolvedEntry(b, c, reg, given, n, s);
      }
    }
  }

  /** Storing an index under the settings its indexer resolves keeps every new entry resolved. */
  lemma OnlyResolvedStore(a: Cache, b: Cache, reg: Registry, given: Settings, name: string, s: Settings, v: Value)
    requires OnlyResolved(a, b, reg, given) && name in reg && SettingsOf(reg, name, given) == Some(s)
    ensures var inner := if name in b then b[name] else map[];
      OnlyResolved(a, b[name := inner[s := v]], reg, given)
  {
    var inner := if name in b then b[name] else map[];
    var c := b[name := inner[s := v]];
    forall n, t | n in c && t in c[n] && !(n in a && t in a[n])
      ensures n in reg && SettingsOf(reg, n, given) == Some(t)
    {
      if n != name || t != s {
        assert n in b && t in b[n];
        assert ResolvedEntry(a, b, reg, given, n, t);
      }
    }
  }

  /** A name reaches itself. */
  lemma ReachedSelf(reg: Registry, rank: string -> nat, name: string)
    ensures Reached(reg, rank, [name], name)
  {
    assert Needs(reg, rank, [name][0], name);
  }

  /** What happened to one requested indexer. */
  datatype Step = NotFound | NoSettings | Cached | Ran | Raised(error: Error)

  class IndexedPiece {
    var metadata: map<string, Value>
    var data: Cache

    /** IndexedPiece(pathname): the pathname as the only metadata and no index. */
    constructor (pathname: string)
      ensures metadata == map["pathname" := VStr(pathname)]
      ensures data == map[]
    {
      metadata := map["pathname" := VStr(pathname)];
      data := map[];
    }

    /**
     * add_index(which_indexers, which_settings): runs every requested indexer whose settings
     * resolve and whose index for those settings is not cached yet, first adding each index
     * it requires that is absent by name; then raises for unknown indexers, else for indexers
     * missing settings. `imported` counts the score imports of this call.
     */
    method AddIndex(request: Request, settings: Option<Settings>, reg: Registry, run: Runner, ghost rank: string -> nat)
      returns (err: Option<Error>, imported: nat)
      requires Acyclic(reg, rank) && Stored(data, run) && Complete(data, reg)
      modifies this
      decreases MaxRank(Indexers(request), rank), 5
      ensures Stored(data, run) && Complete(data, reg) && Grows(old(data), data) && metadata == old(metadata)
      ensures imported <= 1
      ensures OnlyNeeded(old(data), data, reg, rank, Indexers(request))
      ensures OnlyResolved(old(data), data, reg, AsSettings(settings))
      ensures imported == 1 ==> exists k :: 0 <= k < |Indexers(request)| && Indexers(request)[k] in reg && reg[Indexers(request)[k]].requiresScore
      ensures err.None? ==> Unknown(Indexers(request), reg) == [] && Spoiled(Indexers(request), reg, AsSettings(settings)) == []
      ensures (forall k :: 0 <= k < |Indexers(request)| ==> DepsHealthy(reg, AsSettings(settings), Indexers(request)[k], rank)) ==>
        err == Outcome(Unknown(Indexers(request), reg), Spoiled(Indexers(request), reg, AsSettings(settings)))
      ensures err.None? || (forall k :: 0 <= k < |Indexers(request)| ==> DepsHealthy(reg, AsSettings(settings), Indexers(request)[k], rank)) ==>
        forall k :: 0 <= k < |Indexers(request)| && Indexers(request)[k] in reg && SettingsOf(reg, Indexers(request)[k], AsSettings(settings)).Some? ==>
          Done(data, reg, AsSettings(settings), Indexers(request)[k])
    {
      var which := Indexers(request);
      var given := AsSettings(settings);
      var raised, missingIndexers, missingSettings, loaded := RunEach(which, given, reg, run, rank, MaxRank(which, rank));
      imported := if loaded then 1 else 0;
      if raised.Some? {
        return raised, imported;
      }
      err := Outcome(missingIndexers, missingSettings);
    }

    /** add_index's loop over which_indexers, stopped by the first error a recursive add_index raises. */
    method RunEach(which: seq<string>, given: Settings, reg: Registry, run: Runner, ghost rank: string -> nat, ghost bound: nat)
      returns (raised: Option<Error>, missingIndexers: seq<string>, missingSettings: seq<string>, loaded: bool)
      requires forall k :: 0 <= k < |which| ==> rank(which[k]) <= bound
      requires Acyclic(reg, rank) && Stored(data, run) && Complete(data, reg)
      modifies this
      decreases bound, 4
      ensures Stored(data, run) && Complete(data, reg) && Grows(old(data), data) && metadata == old(metadata)
      ensures OnlyNeeded(old(data), data, reg, rank, which)
      ensures OnlyResolved(old(data), data, reg, given)
      ensures loaded ==> exists k :: 0 <= k < |which| && which[k] in reg && reg[which[k]].requiresScore
      ensures (forall k :: 0 <= k < |which| ==> DepsHealthy(reg, given, which[k], rank)) ==> raised.None?
      ensures raised.None? ==> missingIndexers == Unknown(which, reg) && missingSettings == Spoiled(which, reg, given)
      ensures raised.None? ==>
        forall k :: 0 <= k < |which| && which[k] in reg && SettingsOf(reg, which[k], given).Some? ==> Done(data, reg, given, which[k])
    {
      missingIndexers, missingSettings := [], [];
      loaded := false;
      ghost var scoreAt := 0;
      var i := 0;
      while i < |which|
        invariant 0 <= i <= |which|
        invariant missingIndexers == Unknown(which[..i], reg) && missingSettings == Spoiled(which[..i], reg, given)
        invariant Stored(data, run) && Complete(data, reg) && Grows(old(data), data) && metadata == old(metadata)
        invariant OnlyNeeded(old(data), data, reg, rank, which)
        invariant OnlyResolved(old(data), data, reg, given)
        invariant loaded ==> scoreAt < i && which[scoreAt] in reg && reg[which[scoreAt]].requiresScore
        invariant forall k :: 0 <= k < i && which[k] in reg && SettingsOf(reg, which[k], given).Some? ==> Done(data, reg, given, which[k])
      {
        ghost var healthy := forall k :: 0 <= k < |which| ==> DepsHealthy(reg, given, which[k], rank);
        if healthy {
          assert DepsHealthy(reg, given, which[i], rank);
        }
        var nowLoaded;
        raised, nowLoaded, missingIndexers, missingSettings :=
          Visit(which, i, given, reg, run, rank, bound, loaded, missingIndexers, missingSettings, old(data));
        if raised.Some? {
          assert !healthy;
          return;
        }
        if nowLoaded && !loaded {
          scoreAt := i;
        }
        loaded := nowLoaded;
        i := i + 1;
      }
      assert which[..i] == which;
      raised := None;
    }

    /** The turn of add_index's loop for which[i], keeping the loop's account of what is missing and what is done. */
    method Visit(which: seq<string>, i: nat, given: Settings, reg: Registry, run: Runner, ghost rank: string -> nat, ghost bound: nat,
                 loaded: bool, missingIndexers: seq<string>, missingSettings: seq<string>, ghost start: Cache)
      returns (raised: Option<Error>, nowLoaded: bool, nextIndexers: seq<string>, nextSettings: seq<string>)
      requires i < |which| && rank(which[i]) <= bound
      requires Grows(start, data) && OnlyNeeded(start, data, reg, rank, which) && OnlyResolved(start, data, reg, given)
      requires Acyclic(reg, rank) && Stored(data, run) && Complete(data, reg)
      requires missingIndexers == Unknown(which[..i], reg) && missingSettings == Spoiled(which[..i], reg, given)
      requires forall k :: 0 <= k < i && which[k] in reg && SettingsOf(reg, which[k], given).Some? ==> Done(data, reg, given, which[k])
      modifies this
      decreases bound, 3
      ensures Stored(data, run) && Complete(data, reg) && Grows(old(data), data) && metadata == old(metadata)
      ensures Grows(start, data) && OnlyNeeded(start, data, reg, rank, which) && OnlyResolved(start, data, reg, given)
      ensures loaded ==> nowLoaded
      ensures nowLoaded && !loaded ==> which[i] in reg && reg[which[i]].requiresScore
      ensures DepsHealthy(reg, given, which[i], rank) ==> raised.None?
      ensures raised.None? ==> nextIndexers == Unknown(which[..i + 1], reg) && nextSettings == Spoiled(which[..i + 1], reg, given)
      ensures raised.None? ==>
        forall k :: 0 <= k < i + 1 && which[k] in reg && SettingsOf(reg, which[k], given).Some? ==> Done(data, reg, given, which[k])
    {
      ghost var before := data;
      var step;
      step, nowLoaded := AddOne(which[i], given, reg, run, rank, loaded);
      OnlyNeededWithin(before, data, reg, rank, [which[i]], which);
      OnlyNeededTrans(start, before, data, reg, rank, which);
      GrowsTrans(start, before, data);
      OnlyResolvedTrans(start, before, data, reg, given);
      nextIndexers, nextSettings := missingIndexers, missingSettings;
      if step.Raised? {
        return Some(step.error), nowLoaded, nextIndexers, nextSettings;
      }
      MissingStep(which, i, reg, given);
      if step == NotFound {
        nextIndexers := missingIndexers + [which[i]];
      } else if step == NoSettings {
        nextSettings := missingSettings + [which[i]];
      }
      forall k | 0 <= k < i && which[k] in reg && SettingsOf(reg, which[k], given).Some?
        ensures Done(data, reg, given, which[k])
      {
        DoneGrows(before, data, reg, given, which[k]);
      }
      raised := None;
    }

    /** One turn of add_index's loop for this_indexer. */
    method AddOne(name: string, given: Settings, reg: Registry, run: Runner, ghost rank: string -> nat, loaded: bool)
      returns (step: Step, nowLoaded: bool)
      requires Acyclic(reg, rank) && Stored(data, run) && Complete(data, reg)
      modifies this
      decreases rank(name), 2
      ensures Stored(data, run) && Complete(data, reg) && Grows(old(data), data) && metadata == old(metadata)
      ensures OnlyNeeded(old(data), data, reg, rank, [name])
      ensures OnlyResolved(old(data), data, reg, given)
      ensures step == NotFound <==> name !in reg
      ensures step == NoSettings <==> name in reg && SettingsOf(reg, name, given).None?
      ensures loaded ==> nowLoaded
      ensures nowLoaded && !loaded ==> name in reg && reg[name].requiresScore
      ensures DepsHealthy(reg, given, name, rank) ==> !step.Raised?
      ensures name in reg && SettingsOf(reg, name, given).Some? && !step.Raised? ==> Done(data, reg, given, name)
      ensures step == Cached <==> name in reg && SettingsOf(reg, name, given).Some? && name in old(data) && SettingsOf(reg, name, given).value in old(data)[name]
      ensures !step.Ran? && !step.Raised? ==> data == old(data)
    {
      nowLoaded := loaded;
      if name !in reg {
        return NotFound, nowLoaded;
      }
      var ic := reg[name];
      var these := ResolveSettings(ic, given);
      if these.None? {
        return NoSettings, nowLoaded;
      }
      var s := these.value;
      if name in data && s in data[name] {
        CachedDone(data, reg, given, name);
        return Cached, nowLoaded;
      }
      if ic.requiresScore {
        // the_score = self._import_score(), once per add_index call
        nowLoaded := true;
      } else {
        var e := AddRequired(name, given, reg, run, rank);
        OnlyNeededRequired(old(data), data, reg, rank, name);
        if e.Some? {
          return Raised(e.value), nowLoaded;
        }
      }
      ghost var before := data;
      var inner := if name in data then data[name] else map[];
      data := data[name := inner[s := run(name, s)]];
      Store(before, reg, name, s, run);
      GrowsTrans(old(data), before, data);
      ReachedSelf(reg, rank, name);
      OnlyNeededStore(old(data), before, reg, rank, [name], name, inner[s := run(name, s)]);
      OnlyResolvedStore(old(data), before, reg, given, name, s, run(name, s));
      step := Ran;
    }

    /** The indices this_indexer requires that are absent by name, each added by add_index(ind, which_settings). */
    method AddRequired(name: string, given: Settings, reg: Registry, run: Runner, ghost rank: string -> nat)
      returns (e: Option<Error>)
      requires name in reg && !reg[name].requiresScore
      requires Acyclic(reg, rank) && Stored(data, run) && Complete(data, reg)
      modifies this
      decreases rank(name), 1
      ensures Stored(data, run) && Complete(data, reg) && Grows(old(data), data) && metadata == old(metadata)
      ensures OnlyNeeded(old(data), data, reg, rank, reg[name].requiredIndices)
      ensures OnlyResolved(old(data), data, reg, given)
      ensures e.None? ==> forall d :: d in reg[name].requiredIndices ==> d in data
      ensures DepsHealthy(reg, given, name, rank) && SettingsOf(reg, name, given).Some? ==> e.None?
    {
      var required := reg[name].requiredIndices;
      e := None;
      var j := 0;
      while j < |required|
        invariant 0 <= j <= |required|
        invariant Stored(data, run) && Complete(data, reg) && Grows(old(data), data) && metadata == old(metadata)
        invariant OnlyNeeded(old(data), data, reg, rank, required)
        invariant OnlyResolved(old(data), data, reg, given)
        invariant forall k :: 0 <= k < j ==> required[k] in data
        invariant e.None?
      {
        ghost var before := data;
        if DepsHealthy(reg, given, name, rank) && SettingsOf(reg, name, given).Some? {
          assert required[j] in reg[name].requiredIndices;
        }
        e := AddMissing(required[j], given, reg, run, rank, rank(name));
        GrowsTrans(old(data), before, data);
        OnlyNeededWithin(before, data, reg, rank, [required[j]], required);
        OnlyNeededTrans(old(data), before, data, reg, rank, required);
        OnlyResolvedTrans(old(data), before, data, reg, given);
        if e.Some? {
          return;
        }
        forall k | 0 <= k < j
          ensures required[k] in data
        {
          assert required[k] in before;
        }
        j := j + 1;
      }
    }

    /** `if ind not in self._data: self.add_index(ind, which_settings)`, within this_indexer of rank below bound. */
    method AddMissing(ind: string, given: Settings, reg: Registry, run: Runner, ghost rank: string -> nat, ghost bound: nat)
      returns (err: Option<Error>)
      requires rank(ind) < bound
      requires Acyclic(reg, rank) && Stored(data, run) && Complete(data, reg)
      modifies this
      decreases bound, 0
      ensures Stored(data, run) && Complete(data, reg) && Grows(old(data), data) && metadata == old(metadata)
      ensures OnlyNeeded(old(data), data, reg, rank, [ind])
      ensures OnlyResolved(old(data), data, reg, given)
      ensures err.None? ==> ind in data
      ensures Healthy(reg, given, ind, rank) ==> err.None?
    {
      if ind in data {
        return None;
      }
      assert MaxRank([ind], rank) == rank(ind);
      var imported;
      err, imported := AddIndex(Name(ind), Some(given), reg, run, rank);
      if Healthy(reg, given, ind, rank) {
        RequiredHealthy(reg, given, ind, rank);
      }
      if err.None? {
        LoneAdded(data, reg, given, ind);
      }
    }
  }

  /** One more requested name extends the unknown and spoiled lists by at most that name. */
  lemma MissingStep(which: seq<string>, i: nat, reg: Registry, given: Settings)
    requires i < |which|
    ensures Unknown(which[..i + 1], reg) == Unknown(which[..i], reg) + (if which[i] !in reg then [which[i]] else [])
    ensures Spoiled(which[..i + 1], reg, given) ==
      Spoiled(which[..i], reg, given) + (if which[i] in reg && SettingsOf(reg, which[i], given).None? then [which[i]] else [])
  {
    assert which[..i + 1][..i] == which[..i];
  }

  /** A healthy requirement is requested alone without unknown or spoiled names. */
  lemma RequiredHealthy(reg: Registry, given: Settings, ind: string, rank: string -> nat)
    requires Healthy(reg, given, ind, rank)
    ensures Unknown([ind], reg) == [] && Spoiled([ind], reg, given) == []
    ensures forall k :: 0 <= k < |[ind]| ==> DepsHealthy(reg, given, [ind][k], rank)
  {
    assert [ind][..0] == [];
  }

  /** add_index(ind) that raises nothing leaves an index of ind cached. */
  lemma LoneAdded(data: Cache, reg: Registry, given: Settings, ind: string)
    requires Unknown([ind], reg) == [] && Spoiled([ind], reg, given) == []
    requires forall k :: 0 <= k < |[ind]| && [ind][k] in reg && SettingsOf(reg, [ind][k], given).Some? ==> Done(data, reg, given, [ind][k])
    ensures ind in data
  {
    assert [ind][..0] == [];
    assert [ind][0] == ind;
  }

  /** A cached index is done once its requirements are, and Complete says they are. */
  lemma CachedDone(data: Cache, reg: Registry, given: Settings, name: string)
    requires name in reg && SettingsOf(reg, name, given).Some?
    requires Complete(data, reg) && name in data && SettingsOf(reg, name, given).value in data[name]
    ensures Done(data, reg, given, name)
  {
  }

  /** Storing the index for (name, s) once name's requirements are cached keeps every other entry and stores what the indexer computes. */
  lemma Store(before: Cache, reg: Registry, name: string, s: Settings, run: Runner)
    requires Stored(before, run) && Complete(before, reg)
    requires name in reg && !reg[name].requiresScore ==> forall d :: d in reg[name].requiredIndices ==> d in before
    ensures var inner := if name in before then before[name] else map[];
      var after := before[name := inner[s := run(name, s)]];
      Stored(after, run) && Complete(after, reg) && Grows(before, after) && name in after && s in after[name]
  {
  }

  /** A missing or empty settings dict is {}. */
  function AsSettings(settings: Option<Settings>): Settings {
    if settings.None? then map[] else settings.value
  }

  /** A lone indexer name is a one-element list of names. */
  datatype Request = Name(name: string) | Names(names: seq<string>)

  function Indexers(which: Request): seq<string> {
    match which
    case Name(n) => [n]
    case Names(ns) => ns
  }
}
