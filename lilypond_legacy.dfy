// The older LilyPondIndexer of analyzers.indexers.lilypond: the same two settings as the vis
// indexer, but normalised to True/False and None, and with settings that are required.
module LegacyLilyPond {
  import opened Wrappers
  import opened PyValues
  import LilyPond

  /** The settings this LilyPondIndexer keeps when neither setting is given. */
  const Defaults: map<string, Value> :=
    map[LilyPond.RunLilypond := VBool(false), LilyPond.OutputPathname := VNone]

  /**
   * The settings the constructor stores, or the error it raises. Settings are required: a
   * missing dictionary fails the first membership test with a TypeError.
   */
  function Configure(given: Option<map<string, Value>>): (r: Result<map<string, Value>>)
    ensures given.None? ==> r == Failure(TypeError)
    ensures given.Some? ==>
              (r.Failure? <==> LilyPond.RunLilypond in given.value && given.value[LilyPond.RunLilypond] == VBool(true)
                               && LilyPond.OutputPathname !in given.value)
    ensures given.Some? && r.Failure? ==> r.error == RuntimeError(LilyPond.ErrorNoPathname)
    ensures r.Success? ==> r.value.Keys == {LilyPond.RunLilypond, LilyPond.OutputPathname}
    ensures r.Success? ==>
              r.value[LilyPond.RunLilypond]
              == VBool(LilyPond.RunLilypond in given.value && given.value[LilyPond.RunLilypond] == VBool(true))
    ensures r.Success? ==>
              r.value[LilyPond.OutputPathname]
              == if LilyPond.OutputPathname in given.value then given.value[LilyPond.OutputPathname] else VNone
  {
    match given
    case None => Failure(TypeError)
    case Some(g) =>
      if LilyPond.RunLilypond in g && g[LilyPond.RunLilypond] == VBool(true) then
        if LilyPond.OutputPathname in g then
          Success(map[LilyPond.RunLilypond := VBool(true), LilyPond.OutputPathname := g[LilyPond.OutputPathname]])
        else Failure(RuntimeError(LilyPond.ErrorNoPathname))
      else if LilyPond.OutputPathname in g then
        Success(map[LilyPond.RunLilypond := Defaults[LilyPond.RunLilypond], LilyPond.OutputPathname := g[LilyPond.OutputPathname]])
      else Success(Defaults)
  }

  /**
   * Where both indexers accept a dictionary whose run_lilypond, if present, is a boolean, they
   * store the same two settings.
   */
  lemma AgreesWithVis(given: map<string, Value>)
    requires LilyPond.RunLilypond in given ==> given[LilyPond.RunLilypond].VBool?
    ensures Configure(Some(given)).Success? <==> LilyPond.Configure(Some(given)).Success?
    ensures Configure(Some(given)).Success? ==>
              && Configure(Some(given)).value[LilyPond.RunLilypond] == LilyPond.Configure(Some(given)).value[LilyPond.RunLilypond]
              && Configure(Some(given)).value[LilyPond.OutputPathname] == LilyPond.Configure(Some(given)).value[LilyPond.OutputPathname]
  {
  }

  /** The indexer the constructor builds: its score and the settings it keeps. */
  class LilyPondIndexer {
    const score: seq<Value>
    var settings: map<string, Value>

    constructor Init(score: seq<Value>)
      ensures this.score == score && settings == map[]
    {
      this.score := score;
      settings := map[];
    }

    /** LilyPondIndexer(score, settings): stores the settings branch by branch, or raises. */
    static method New(score: seq<Value>, given: Option<map<string, Value>>) returns (r: Result<LilyPondIndexer>)
      ensures r.Failure? <==> Configure(given).Failure?
      ensures r.Failure? ==> r.error == Configure(given).error
      ensures r.Success? ==> fresh(r.value) && r.value.score == score
      ensures r.Success? ==> r.value.settings == Configure(given).value
    {
      if given.None? {
        return Failure(TypeError);
      }
      var g := given.value;
      var ind := new LilyPondIndexer.Init(score);
      if LilyPond.RunLilypond in g && g[LilyPond.RunLilypond] == VBool(true) {
        if LilyPond.OutputPathname in g {
          ind.settings := ind.settings[LilyPond.RunLilypond := VBool(true)];
          ind.settings := ind.settings[LilyPond.OutputPathname := g[LilyPond.OutputPathname]];
        } else {
          return Failure(RuntimeError(LilyPond.ErrorNoPathname));
        }
      } else if LilyPond.OutputPathname in g {
        ind.settings := ind.settings[LilyPond.RunLilypond := Defaults[LilyPond.RunLilypond]];
        ind.settings := ind.settings[LilyPond.OutputPathname := g[LilyPond.OutputPathname]];
      } else {
        ind.settings := ind.settings[LilyPond.RunLilypond := Defaults[LilyPond.RunLilypond]];
        ind.settings := ind.settings[LilyPond.OutputPathname := Defaults[LilyPond.OutputPathname]];
      }
      return Success(ind);
    }

    /** run(): each part of the score is analysed on its own, in part order. */
    method Combinations() returns (c: seq<seq<nat>>)
      ensures |c| == |score|
      ensures forall x :: 0 <= x < |score| ==> c[x] == [x]
    {
      c := LilyPond.EachPart(|score|);
    }
  }
}
