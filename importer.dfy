// The helpers of the Importer controller: the list of files to import (with the add and
// remove operations the GUI calls), and the part names and title of an imported score.
// Whether a path exists or is a directory is a parameter; the messages sent on the error
// signal, and the values sent on the add_remove_success signal, are kept in order.
module Importer {
  import opened Wrappers
  import opened PyStrings
  import opened PyValues

  // ---------------------------------------------------------------------------------------
  // The list of files

  /** The elements x of `s` with test(x) == want, in order. */
  function Select(s: seq<string>, test: string -> bool, want: bool): (r: seq<string>)
    ensures |r| <= |s|
    ensures forall x :: x in r <==> x in s && test(x) == want
  {
    if s == [] then []
    else
      var r := Select(s[..|s| - 1], test, want);
      assert s == s[..|s| - 1] + [s[|s| - 1]];
      if test(s[|s| - 1]) == want then r + [s[|s| - 1]] else r
  }

  /** Membership in a list, as a test. */
  function Member(listed: seq<string>): string -> bool {
    x => x in listed
  }

  /** The message sent for each path in `s`, in order. */
  function Messages(prefix: string, s: seq<string>): (r: seq<string>)
    ensures |r| == |s|
    ensures forall k :: 0 <= k < |s| ==> r[k] == prefix + s[k]
  {
    seq(|s|, k requires 0 <= k < |s| => prefix + s[k])
  }

  const NoSuchPath := "Path does not exist: "
  const AlreadyListed := "Filename already on the list: "

  /** The paths of `pieces` that exist and are not directories, in order. */
  function Files(pieces: seq<string>, present: string -> bool, isDir: string -> bool): seq<string> {
    Select(Select(pieces, present, true), isDir, false)
  }

  /** The paths add_pieces appends: the files not yet on the list, in order. */
  function Accepted(listed: seq<string>, pieces: seq<string>, present: string -> bool, isDir: string -> bool): seq<string> {
    Select(Files(pieces, present, isDir), Member(listed), false)
  }

  /** The errors add_pieces reports: first every missing path, then every file already listed. */
  function AddErrors(listed: seq<string>, pieces: seq<string>, present: string -> bool, isDir: string -> bool): seq<string> {
    Messages(NoSuchPath, Select(pieces, present, false))
      + Messages(AlreadyListed, Select(Files(pieces, present, isDir), Member(listed), true))
  }

  /** add_pieces appends exactly the existing, non-directory paths that are not listed yet. */
  lemma AcceptedMembers(listed: seq<string>, pieces: seq<string>, present: string -> bool, isDir: string -> bool)
    ensures forall x :: x in Accepted(listed, pieces, present, isDir)
                        <==> x in pieces && present(x) && !isDir(x) && x !in listed
  {
  }

  /** Nothing is selected exactly when no element passes the test. */
  lemma NoneSelected(s: seq<string>, test: string -> bool, want: bool)
    ensures Select(s, test, want) == [] <==> forall x :: x in s ==> test(x) != want
  {
    var r := Select(s, test, want);
    if r != [] {
      assert r[0] in r;
    }
  }

  /** add_pieces reports success exactly when no path is missing and no file is listed already. */
  lemma AddErrorFree(listed: seq<string>, pieces: seq<string>, present: string -> bool, isDir: string -> bool)
    ensures AddErrors(listed, pieces, present, isDir) == []
            <==> forall p :: p in pieces ==> present(p) && (isDir(p) || p !in listed)
  {
    var missing := Select(pieces, present, false);
    var again := Select(Files(pieces, present, isDir), Member(listed), true);
    NoneSelected(pieces, present, false);
    NoneSelected(Files(pieces, present, isDir), Member(listed), true);
    assert AddErrors(listed, pieces, present, isDir) == [] <==> missing == [] && again == [] by {
      assert |AddErrors(listed, pieces, present, isDir)| == |missing| + |again|;
    }
  }

  /**
   * The duplicate test looks only at the files listed before the call, so a path given twice
   * in one call is appended twice and no error is reported.
   */
  lemma AddPiecesDuplicates(p: string, present: string -> bool, isDir: string -> bool)
    requires present(p) && !isDir(p)
    ensures Accepted([], [p, p], present, isDir) == [p, p]
    ensures AddErrors([], [p, p], present, isDir) == []
  {
    var ps := [p, p];
    assert ps[..1] == [p] && ps[..1][..0] == [];
    assert Select([p], present, true) == [p];
    assert Select(ps, present, true) == ps;
    assert Select([p], isDir, false) == [p];
    assert Select(ps, isDir, false) == ps;
    assert Select([p], present, false) == [];
    assert Select(ps, present, false) == [];
    assert Select([p], Member([]), true) == [];
    assert Select(ps, Member([]), true) == [];
    assert Select([p], Member([]), false) == [p];
    assert Select(ps, Member([]), false) == ps;
  }

  /** The argument of remove_pieces: a single path or a list of them. */
  datatype PathsArg = OnePath(path: string) | PathList(paths: seq<string>)

  /** A single path is treated as a one-element list. */
  function PathsOf(arg: PathsArg): seq<string> {
    match arg
    case OnePath(p) => [p]
    case PathList(ps) => ps
  }

  /** The first position of `p` in `s`, as ListOfFiles.isPresent finds it. */
  function IndexOf(s: seq<string>, p: string): (r: Option<nat>)
    ensures r.None? <==> p !in s
    ensures r.Some? ==> r.value < |s| && s[r.value] == p && p !in s[..r.value]
  {
    if s == [] then None
    else if s[0] == p then Some(0)
    else
      var r := IndexOf(s[1..], p);
      assert s == [s[0]] + s[1..];
      if r.None? then None
      else
        assert s[..r.value + 1] == [s[0]] + s[1..][..r.value];
        Some(r.value + 1)
  }

  /** The list without the first occurrence of `p`; without `p` it is kept as it is. */
  function RemoveFirst(s: seq<string>, p: string): (r: seq<string>)
    ensures p !in s ==> r == s
    ensures multiset(r) == multiset(s) - multiset{p}
  {
    match IndexOf(s, p)
    case None => s
    case Some(k) =>
      assert s == s[..k] + [p] + s[k + 1..];
      s[..k] + s[k + 1..]
  }

  /** The list after removing each path of `ps` in turn. */
  function RemoveEach(s: seq<string>, ps: seq<string>): seq<string> {
    if ps == [] then s else RemoveFirst(RemoveEach(s, ps[..|ps| - 1]), ps[|ps| - 1])
  }

  lemma RemoveEachStep(s: seq<string>, ps: seq<string>, i: nat)
    requires i < |ps|
    ensures RemoveEach(s, ps[..i + 1]) == RemoveFirst(RemoveEach(s, ps[..i]), ps[i])
  {
    assert ps[..i + 1][..i] == ps[..i];
  }

  /**
   * remove_pieces takes one occurrence off the list for each path it is given, as far as
   * there are occurrences; paths not on the list are ignored.
   */
  lemma {:induction false} RemoveEachCounts(s: seq<string>, ps: seq<string>)
    ensures multiset(RemoveEach(s, ps)) == multiset(s) - multiset(ps)
  {
    if ps != [] {
      var init := ps[..|ps| - 1];
      var p := ps[|ps| - 1];
      var t := RemoveEach(s, init);
      calc {
        multiset(RemoveEach(s, ps));
      ==
        multiset(RemoveFirst(t, p));
      ==
        multiset(t) - multiset{p};
      == { RemoveEachCounts(s, init); }
        multiset(s) - multiset(init) - multiset{p};
      == { DifferenceOfSum(multiset(s), multiset(init), multiset{p}); }
        multiset(s) - (multiset(init) + multiset{p});
      == { MultisetSnoc(ps); }
        multiset(s) - multiset(ps);
      }
    }
  }

  lemma MultisetSnoc(ps: seq<string>)
    requires ps != []
    ensures multiset(ps) == multiset(ps[..|ps| - 1]) + multiset{ps[|ps| - 1]}
  {
    assert ps == ps[..|ps| - 1] + [ps[|ps| - 1]];
  }

  lemma SeqAssoc(a: seq<string>, b: seq<string>, c: seq<string>)
    ensures a + b + c == a + (b + c)
  {
  }

  /** Taking away b and then c is taking away b + c. */
  lemma DifferenceOfSum(a: multiset<string>, b: multiset<string>, c: multiset<string>)
    ensures a - b - c == a - (b + c)
  {
    forall x
      ensures (a - b - c)[x] == (a - (b + c))[x]
    {
    }
  }

  /** The Importer's list of files and what it has sent on its signals. */
  class Importer {
    /** The file names to import, in list order. */
    var files: seq<string>
    /** The messages sent on the error signal, in order. */
    var errors: seq<string>
    /** The values sent on the add_remove_success signal, in order. */
    var successes: seq<bool>

    constructor ()
      ensures files == [] && errors == [] && successes == []
    {
      files := [];
      errors := [];
      successes := [];
    }

    /**
     * add_pieces: drops missing paths (reporting each) and directories, turns away files
     * already listed (reporting each), appends the rest, and answers whether nothing was
     * reported.
     */
    method AddPieces(pieces: seq<string>, present: string -> bool, isDir: string -> bool) returns (ok: bool)
      modifies this
      ensures files == old(files) + Accepted(old(files), pieces, present, isDir)
      ensures errors == old(errors) + AddErrors(old(files), pieces, present, isDir)
      ensures ok <==> AddErrors(old(files), pieces, present, isDir) == []
      ensures successes == old(successes)
    {
      ok := true;
      ghost var reported := errors;
      var existing, missing := Existing(pieces, present);
      if missing != [] {
        ok := false;
      }
      errors := errors + Messages(NoSuchPath, missing);
      var expanded := NonDirectories(existing, isDir);
      var unlisted, again := Unlisted(expanded, files);
      if again != [] {
        ok := false;
      }
      errors := errors + Messages(AlreadyListed, again);
      assert AddErrors(files, pieces, present, isDir) == Messages(NoSuchPath, missing) + Messages(AlreadyListed, again);
      assert |AddErrors(files, pieces, present, isDir)| == |missing| + |again|;
      assert errors == reported + AddErrors(files, pieces, present, isDir) by {
        SeqAssoc(reported, Messages(NoSuchPath, missing), Messages(AlreadyListed, again));
      }
      assert unlisted == Accepted(files, pieces, present, isDir);
      if |unlisted| == 0 {
        return ok;
      }
      files := files + unlisted;
    }

    /** remove_pieces: takes each given path off the list where it is present; always succeeds. */
    method RemovePieces(arg: PathsArg) returns (ok: bool)
      modifies this
      ensures files == RemoveEach(old(files), PathsOf(arg))
      ensures ok && successes == old(successes) + [true]
      ensures errors == old(errors)
    {
      var pieces := PathsOf(arg);
      for i := 0 to |pieces|
        invariant files == RemoveEach(old(files), pieces[..i])
        invariant errors == old(errors) && successes == old(successes)
      {
        RemoveEachStep(old(files), pieces, i);
        RemoveOne(pieces[i]);
      }
      assert pieces[..|pieces|] == pieces;
      successes := successes + [true];
      return true;
    }

    /** One turn of the remove_pieces loop: the first row holding p goes, if there is one. */
    method RemoveOne(p: string)
      modifies this
      ensures files == RemoveFirst(old(files), p)
      ensures errors == old(errors) && successes == old(successes)
    {
      var index := IndexOf(files, p);
      if index.Some? {
        files := files[..index.value] + files[index.value + 1..];
      }
    }
  }

  /** The first loop of add_pieces: the paths that exist, and those that do not, in order. */
  method Existing(pieces: seq<string>, present: string -> bool) returns (found: seq<string>, missing: seq<string>)
    ensures found == Select(pieces, present, true)
    ensures missing == Select(pieces, present, false)
  {
    found, missing := [], [];
    for i := 0 to |pieces|
      invariant found == Select(pieces[..i], present, true)
      invariant missing == Select(pieces[..i], present, false)
    {
      assert pieces[..i + 1][..i] == pieces[..i];
      if present(pieces[i]) {
        found := found + [pieces[i]];
      } else {
        missing := missing + [pieces[i]];
      }
    }
    assert pieces[..|pieces|] == pieces;
  }

  /** The second loop of add_pieces: directories are passed over. */
  method NonDirectories(paths: seq<string>, isDir: string -> bool) returns (r: seq<string>)
    ensures r == Select(paths, isDir, false)
  {
    r := [];
    for i := 0 to |paths|
      invariant r == Select(paths[..i], isDir, false)
    {
      assert paths[..i + 1][..i] == paths[..i];
      if !isDir(paths[i]) {
        r := r + [paths[i]];
      }
    }
    assert paths[..|paths|] == paths;
  }

  /** The third loop of add_pieces: the files not on the list, and those that are. */
  method Unlisted(paths: seq<string>, listed: seq<string>) returns (unlisted: seq<string>, again: seq<string>)
    ensures unlisted == Select(paths, Member(listed), false)
    ensures again == Select(paths, Member(listed), true)
  {
    unlisted, again := [], [];
    for i := 0 to |paths|
      invariant unlisted == Select(paths[..i], Member(listed), false)
      invariant again == Select(paths[..i], Member(listed), true)
    {
      assert paths[..i + 1][..i] == paths[..i];
      assert Member(listed)(paths[i]) == (paths[i] in listed);
      if IndexOf(listed, paths[i]).None? {
        unlisted := unlisted + [paths[i]];
      } else {
        again := again + [paths[i]];
      }
    }
    assert paths[..|paths|] == paths;
  }

  // ---------------------------------------------------------------------------------------
  // Part names and title of an imported score

  /** A part of a score: its instrument's partName (None when it has no instrument) and its id. */
  datatype PartInfo = PartInfo(instrument: Option<Value>, id: Value)

  /** The first name of a part: a non-empty instrument name, or else the part id. */
  function RawName(p: PartInfo): Value {
    if p.instrument.Some? && p.instrument.value != VStr("") then p.instrument.value else p.id
  }

  /** The name used instead of a number: 'Part ' and the position counted from one. */
  function PartLabel(position: nat): string {
    "Part " + NatToString(position)
  }

  lemma PartLabelNotNumber(position: nat)
    ensures ParseInt(PartLabel(position)) == None
  {
    var s := PartLabel(position);
    var d := NatToString(position);
    assert s[|s| - 1] == d[|d| - 1];
    assert Stripped(s);
    StripNoSpace(s);
    assert !AllDigits(s) by {
      assert !IsDigit(s[0]);
    }
  }

  /** The name at position i after the second loop, or the error int() raises there. */
  function Relabel(i: nat, v: Value): Result<Value> {
    match PyInt(v)
    case Success(_) => Success(VStr(PartLabel(i + 1)))
    case Failure(e) => if e == ValueError then Success(v) else Failure(e)
  }

  /** The names with the first n of them relabelled. */
  function Relabelled(names: seq<Value>, n: nat): (r: Result<seq<Value>>)
    requires n <= |names|
    ensures r.Success? ==> |r.value| == |names|
  {
    if n == 0 then Success(names)
    else match Relabelled(names, n - 1)
      case Failure(e) => Failure(e)
      case Success(s) =>
        match Relabel(n - 1, names[n - 1])
        case Failure(e) => Failure(e)
        case Success(v) => Success(s[n - 1 := v])
  }

  /** _find_part_names: one name per part, with numbers replaced, or the error of int(). */
  function PartNames(parts: seq<PartInfo>): Result<seq<Value>> {
    Relabelled(seq(|parts|, i requires 0 <= i < |parts| => RawName(parts[i])), |parts|)
  }

  /** int() of a value fails with ValueError or TypeError, and with TypeError only for None or a list. */
  lemma PyIntErrors(v: Value)
    ensures PyInt(v).Failure? ==> PyInt(v).error == ValueError || PyInt(v).error == TypeError
    ensures PyInt(v) == Failure(TypeError) <==> v.VNone? || v.VList?
  {
  }

  /**
   * Relabelling the first n names fails exactly when one of them is None or a list; otherwise
   * a name that int() accepts becomes 'Part i+1' and every other name is kept.
   */
  lemma {:induction false} RelabelledSpec(names: seq<Value>, n: nat)
    requires n <= |names|
    ensures Relabelled(names, n).Failure? <==> exists i :: 0 <= i < n && (names[i].VNone? || names[i].VList?)
    ensures Relabelled(names, n).Success? ==>
              forall i :: 0 <= i < |names| ==>
                Relabelled(names, n).value[i]
                == if i < n && PyInt(names[i]).Success? then VStr(PartLabel(i + 1)) else names[i]
  {
    RelabelledFails(names, n);
    if Relabelled(names, n).Success? {
      RelabelledValues(names, n);
    }
  }

  /** The name at position i once the first n names have been relabelled. */
  function Expected(names: seq<Value>, n: nat, i: nat): Value
    requires i < |names|
  {
    if i < n && PyInt(names[i]).Success? then VStr(PartLabel(i + 1)) else names[i]
  }

  /** Relabelling the first n names fails exactly when int() raises TypeError on one of them. */
  lemma {:induction false} RelabelledFails(names: seq<Value>, n: nat)
    requires n <= |names|
    ensures Relabelled(names, n).Failure? <==> exists i :: 0 <= i < n && (names[i].VNone? || names[i].VList?)
  {
    if n > 0 {
      RelabelledFails(names, n - 1);
      PyIntErrors(names[n - 1]);
      assert Relabel(n - 1, names[n - 1]).Failure? <==> names[n - 1].VNone? || names[n - 1].VList?;
      assert Relabelled(names, n).Failure? <==> Relabelled(names, n - 1).Failure? || Relabel(n - 1, names[n - 1]).Failure?;
      if exists i :: 0 <= i < n && (names[i].VNone? || names[i].VList?) {
        var i :| 0 <= i < n && (names[i].VNone? || names[i].VList?);
        assert i < n - 1 || i == n - 1;
      }
    }
  }

  /** A successful relabelling of the first n names leaves each name as Expected says. */
  lemma {:induction false} RelabelledValues(names: seq<Value>, n: nat)
    requires n <= |names| && Relabelled(names, n).Success?
    ensures |Relabelled(names, n).value| == |names|
    ensures forall i :: 0 <= i < |names| ==> Relabelled(names, n).value[i] == Expected(names, n, i)
  {
    if n > 0 {
      RelabelledValues(names, n - 1);
      var s := Relabelled(names, n - 1).value;
      var v := Relabel(n - 1, names[n - 1]).value;
      assert Relabelled(names, n).value == s[n - 1 := v];
      PyIntErrors(names[n - 1]);
      forall i | 0 <= i < |names|
        ensures Relabelled(names, n).value[i] == Expected(names, n, i)
      {
        if i != n - 1 {
          assert Expected(names, n, i) == Expected(names, n - 1, i);
        }
      }
    }
  }

  /**
   * Each part is named after its instrument when that name is not empty, else after its id;
   * a name that is a number becomes 'Part ' with the part's position counted from one, so no
   * name that comes out is a number. int() of a None or list name is not caught.
   */
  lemma PartNamesSpec(parts: seq<PartInfo>)
    ensures PartNames(parts).Failure? <==> exists i :: 0 <= i < |parts| && (RawName(parts[i]).VNone? || RawName(parts[i]).VList?)
    ensures PartNames(parts).Success? ==>
              && |PartNames(parts).value| == |parts|
              && (forall i :: 0 <= i < |parts| && PyInt(RawName(parts[i])).Success? ==>
                               PartNames(parts).value[i] == VStr(PartLabel(i + 1)))
              && (forall i :: 0 <= i < |parts| && PyInt(RawName(parts[i])).Failure? ==>
                               PartNames(parts).value[i] == RawName(parts[i]))
              && (forall i :: 0 <= i < |parts| ==> PyInt(PartNames(parts).value[i]) == Failure(ValueError))
  {
    var names := seq(|parts|, i requires 0 <= i < |parts| => RawName(parts[i]));
    assert PartNames(parts) == Relabelled(names, |parts|);
    assert forall i :: 0 <= i < |parts| ==> names[i] == RawName(parts[i]);
    RelabelledSpec(names, |parts|);
    RelabelledNoNumbers(names);
  }

  /** After every name is relabelled, int() accepts none of them. */
  lemma RelabelledNoNumbers(names: seq<Value>)
    ensures Relabelled(names, |names|).Success? ==>
              forall i :: 0 <= i < |names| ==> PyInt(Relabelled(names, |names|).value[i]) == Failure(ValueError)
  {
    if Relabelled(names, |names|).Success? {
      forall i | 0 <= i < |names|
        ensures PyInt(Relabelled(names, |names|).value[i]) == Failure(ValueError)
      {
        RelabelledNotNumber(names, i);
      }
    }
  }

  lemma RelabelledNotNumber(names: seq<Value>, i: nat)
    requires i < |names| && Relabelled(names, |names|).Success?
    ensures PyInt(Relabelled(names, |names|).value[i]) == Failure(ValueError)
  {
    RelabelledSpec(names, |names|);
    var r := Relabelled(names, |names|).value;
    PyIntErrors(names[i]);
    if PyInt(names[i]).Success? {
      assert r[i] == VStr(PartLabel(i + 1));
      PartLabelNotNumber(i + 1);
    } else {
      assert r[i] == names[i];
    }
  }

  /** _find_part_names: collects the first names, then replaces numbers in place. */
  method FindPartNames(parts: seq<PartInfo>) returns (r: Result<seq<Value>>)
    ensures r == PartNames(parts)
  {
    var post := FirstNames(parts);
    r := RelabelNumbers(post);
  }

  /** Before turn i of the second loop, name i is still the one the first loop found. */
  lemma RelabelledPending(names: seq<Value>, i: nat, post: seq<Value>)
    requires i < |names| && Relabelled(names, i) == Success(post)
    ensures |post| == |names| && post[i] == names[i]
  {
    RelabelledValues(names, i);
    assert post[i] == Expected(names, i, i);
  }

  /** The first loop of _find_part_names: the instrument name if there is one, else the id. */
  method FirstNames(parts: seq<PartInfo>) returns (post: seq<Value>)
    ensures post == seq(|parts|, i requires 0 <= i < |parts| => RawName(parts[i]))
  {
    post := [];
    for i := 0 to |parts|
      invariant post == seq(i, k requires 0 <= k < i => RawName(parts[k]))
    {
      var instr := parts[i].instrument;
      if instr.Some? && instr.value != VStr("") {
        post := post + [instr.value];
      } else {
        post := post + [parts[i].id];
      }
    }
  }

  /** The second loop of _find_part_names: each name int() accepts becomes 'Part i+1', in place. */
  method RelabelNumbers(names: seq<Value>) returns (r: Result<seq<Value>>)
    ensures r == Relabelled(names, |names|)
  {
    var post := names;
    for i := 0 to |post|
      invariant |post| == |names|
      invariant Relabelled(names, i) == Success(post)
    {
      RelabelledPending(names, i, post);
      var next := RelabelAt(names, post, i);
      if next.Failure? {
        RelabelledStops(names, i + 1, |names|);
        return next;
      }
      post := next.value;
    }
    return Success(post);
  }

  /** One turn of the second loop: int() of name i, and 'Part i+1' in its place when it is a number. */
  method RelabelAt(names: seq<Value>, post: seq<Value>, i: nat) returns (r: Result<seq<Value>>)
    requires i < |names| && |post| == |names| && post[i] == names[i]
    requires Relabelled(names, i) == Success(post)
    ensures r == Relabelled(names, i + 1)
  {
    match PyInt(post[i]) {
      case Success(_) =>
        r := Success(post[i := VStr(PartLabel(i + 1))]);
      case Failure(e) =>
        if e == ValueError {
          assert post[i := names[i]] == post;
          r := Success(post);
        } else {
          r := Failure(e);
        }
    }
  }

  /** Once int() raises something other than ValueError, no later part is looked at. */
  lemma {:induction false} RelabelledStops(names: seq<Value>, n: nat, m: nat)
    requires n <= m <= |names|
    requires Relabelled(names, n).Failure?
    ensures Relabelled(names, m) == Relabelled(names, n)
    decreases m
  {
    if m > n {
      RelabelledStops(names, n, m - 1);
      var before := Relabelled(names, m - 1);
      assert before.Failure?;
      assert Relabelled(names, m) == Failure(before.error);
    }
  }

  /**
   * _find_piece_title: the metadata title when the score has metadata, else the file name
   * without its directory; then without its extension.
   */
  function PieceTitle(metadataTitle: Option<string>, filePath: string): (title: string)
    ensures var name := if metadataTitle.Some? then metadataTitle.value else Basename(filePath);
            |title| <= |name| && name[..|title|] == title
    ensures metadataTitle.None? ==> '/' !in title
    ensures var name := if metadataTitle.Some? then metadataTitle.value else Basename(filePath);
            forall d, k :: 0 <= k < d < |name| && name[d] == '.' && name[k] != '.' && '.' !in name[d + 1..] && '/' !in name[k..] ==>
              title == name[..d]
  {
    var name := if metadataTitle.Some? then metadataTitle.value else Basename(filePath);
    var title := SplitExtRoot(name);
    assert metadataTitle.None? ==> forall k :: 0 <= k < |title| ==> title[k] == name[k];
    title
  }

  /** What is cut from the name is exactly its extension: a '.' and a last part without '.' or '/'. */
  lemma PieceTitleCutsExtension(metadataTitle: Option<string>, filePath: string)
    ensures var name := if metadataTitle.Some? then metadataTitle.value else Basename(filePath);
            var title := PieceTitle(metadataTitle, filePath);
            title != name ==> name[|title|] == '.' && '.' !in name[|title| + 1..] && '/' !in name[|title|..]
    ensures var name := if metadataTitle.Some? then metadataTitle.value else Basename(filePath);
            forall d, k :: 0 <= k < d < |name| && name[d] == '.' && name[k] != '.' && '.' !in name[d + 1..] && '/' !in name[k..] ==>
              PieceTitle(metadataTitle, filePath) == name[..d]
  {
  }

  /** A file of a directory, with no metadata: the title is the file name without '.xml'. */
  lemma PieceTitleExample()
    ensures PieceTitle(None, "scores/bach.xml") == "bach"
  {
    BasenameExample();
    SplitExtExample();
  }

  lemma BasenameExample()
    ensures Basename("scores/bach.xml") == "bach.xml"
  {
    var p := "scores/bach.xml";
    assert p[6] == '/';
    assert p[7] != '/' && p[8] != '/' && p[9] != '/' && p[10] != '/';
    assert p[11] != '/' && p[12] != '/' && p[13] != '/' && p[14] != '/';
    assert RFind(p, '/') == 6;
    assert p[7..] == "bach.xml";
  }

  lemma SplitExtExample()
    ensures SplitExtRoot("bach.xml") == "bach"
  {
    var p := "bach.xml";
    assert p[4] == '.' && p[5] != '.' && p[6] != '.' && p[7] != '.';
    assert RFind(p, '.') == 4;
    assert p[0] == 'b' && p[1] != '/' && p[2] != '/' && p[3] != '/';
    assert p[0] != '/' && p[4] != '/' && p[5] != '/' && p[6] != '/' && p[7] != '/';
    assert RFind(p, '/') == -1;
    assert p[..4] == "bach";
  }
}
