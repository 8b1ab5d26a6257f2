// The dynamically typed values a settings dictionary can hold, with the Python 2
// operations the modelled code applies to them.
module PyValues {
  import opened Wrappers
  import opened PyStrings

  datatype Value =
    | VNone
    | VBool(b: bool)
    | VInt(i: int)
    | VReal(r: real)
    | VStr(s: string)
    | VList(items: seq<Value>)

  /** Python truth testing (`if v:`). */
  predicate Truthy(v: Value) {
    match v
    case VNone => false
    case VBool(b) => b
    case VInt(i) => i != 0
    case VReal(r) => r != 0.0
    case VStr(s) => |s| > 0
    case VList(items) => |items| > 0
  }

  /** `v == 0`: a zero of any numeric type, False included. */
  predicate EqualsZero(v: Value) {
    v == VBool(false) || v == VInt(0) || v == VReal(0.0)
  }

  /** int(r) on a float truncates toward zero. */
  function Truncate(r: real): (i: int)
    ensures (r >= 0.0 ==> 0.0 <= r - i as real < 1.0) && (r < 0.0 ==> 0.0 <= i as real - r < 1.0)
  {
    if r >= 0.0 then r.Floor else -((-r).Floor)
  }

  /** Python's int(v): a ValueError for a string that is not an integer, a TypeError for None or a list. */
  function PyInt(v: Value): (r: Result<int>)
    ensures v.VInt? ==> r == Success(v.i)
    ensures v.VNone? || v.VList? ==> r == Failure(TypeError)
  {
    match v
    case VNone => Failure(TypeError)
    case VBool(b) => Success(if b then 1 else 0)
    case VInt(i) => Success(i)
    case VReal(r) => Success(Truncate(r))
    case VStr(s) => (match ParseInt(s) case Some(i) => Success(i) case None => Failure(ValueError))
    case VList(_) => Failure(TypeError)
  }

  /**
   * Python 2's `v < x` for a float x: numbers compare by value, None is smaller than
   * everything and a string or a list is greater than every number.
   */
  predicate LessThanNumber(v: Value, x: real) {
    match v
    case VNone => true
    case VBool(b) => (if b then 1.0 else 0.0) < x
    case VInt(i) => (i as real) < x
    case VReal(r) => r < x
    case VStr(_) => false
    case VList(_) => false
  }

  /**
   * Python 2's default order between values of different types: None first, then the
   * numbers (bool included), then lists, then strings, the last two by type name.
   */
  function TypeRank(v: Value): nat {
    match v
    case VNone => 0
    case VBool(_) => 1
    case VInt(_) => 1
    case VReal(_) => 1
    case VList(_) => 2
    case VStr(_) => 3
  }

  /** The numeric value of a number, False and True being 0 and 1. */
  function NumValue(v: Value): real
    requires TypeRank(v) == 1
  {
    match v
    case VBool(b) => if b then 1.0 else 0.0
    case VInt(i) => i as real
    case VReal(r) => r
  }

  /** -1, 0 or 1 by the sign of x. */
  function Sign(x: real): (c: int)
    ensures c == -1 || c == 0 || c == 1
    ensures c < 0 <==> x < 0.0
    ensures c > 0 <==> x > 0.0
  {
    if x < 0.0 then -1 else if x > 0.0 then 1 else 0
  }

  /** The first nonzero comparison of corresponding elements, else the comparison of the lengths. */
  function Lexicographic(cs: seq<int>, tie: int): int {
    if cs == [] then tie else if cs[0] != 0 then cs[0] else Lexicographic(cs[1..], tie)
  }

  function Shorter(m: nat, n: nat): nat {
    if m < n then m else n
  }

  /**
   * Python 2's cmp(a, b): numbers compare by value, strings character by character, lists
   * element by element, and values of different kinds by TypeRank.
   */
  function Py2Cmp(a: Value, b: Value): (c: int)
    ensures TypeRank(a) < TypeRank(b) ==> c == -1
    ensures TypeRank(a) == 1 == TypeRank(b) ==>
      (c < 0 <==> NumValue(a) < NumValue(b)) && (c == 0 <==> NumValue(a) == NumValue(b))
    decreases a
  {
    if TypeRank(a) != TypeRank(b) then Sign(TypeRank(a) as real - TypeRank(b) as real)
    else if a.VStr? then
      var s, t := a.s, b.s;
      var m := Shorter(|s|, |t|);
      Lexicographic(seq(m, k requires 0 <= k < m => Sign(s[k] as int as real - t[k] as int as real)),
                    Sign(|s| as real - |t| as real))
    else if a.VList? then
      var xs, ys := a.items, b.items;
      var m := Shorter(|xs|, |ys|);
      Lexicographic(seq(m, k requires 0 <= k < m => Py2Cmp(xs[k], ys[k])), Sign(|xs| as real - |ys| as real))
    else if a.VNone? then 0
    else Sign(NumValue(a) - NumValue(b))
  }

  lemma {:induction false} LexicographicNegated(cs: seq<int>, ds: seq<int>, tie: int)
    requires |cs| == |ds| && forall k :: 0 <= k < |cs| ==> ds[k] == -cs[k]
    ensures Lexicographic(ds, -tie) == -Lexicographic(cs, tie)
  {
    if cs != [] {
      LexicographicNegated(cs[1..], ds[1..], tie);
    }
  }

  /** Swapping the arguments of Python 2's cmp negates it, so a sort by it answers consistently. */
  lemma {:induction false} Py2CmpAntisymmetric(a: Value, b: Value)
    ensures Py2Cmp(b, a) == -Py2Cmp(a, b)
    decreases a
  {
    if TypeRank(a) == TypeRank(b) && a.VStr? {
      var s, t := a.s, b.s;
      var m := Shorter(|s|, |t|);
      LexicographicNegated(seq(m, k requires 0 <= k < m => Sign(s[k] as int as real - t[k] as int as real)),
                           seq(m, k requires 0 <= k < m => Sign(t[k] as int as real - s[k] as int as real)),
                           Sign(|s| as real - |t| as real));
    } else if TypeRank(a) == TypeRank(b) && a.VList? {
      var xs, ys := a.items, b.items;
      var m := Shorter(|xs|, |ys|);
      forall k | 0 <= k < m ensures Py2Cmp(ys[k], xs[k]) == -Py2Cmp(xs[k], ys[k]) {
        Py2CmpAntisymmetric(xs[k], ys[k]);
      }
      LexicographicNegated(seq(m, k requires 0 <= k < m => Py2Cmp(xs[k], ys[k])),
                           seq(m, k requires 0 <= k < m => Py2Cmp(ys[k], xs[k])),
                           Sign(|xs| as real - |ys| as real));
    }
  }

  /**
   * Python's unicode(v). The text of a float or a list (Python's float formatting and the
   * repr of each item) is the parameter show.
   */
  function Str(v: Value, show: Value -> string): (s: string)
    ensures v.VInt? ==> ParseInt(s) == Some(v.i)
    ensures v.VStr? ==> s == v.s
    ensures v.VReal? || v.VList? ==> s == show(v)
  {
    match v
    case VNone => "None"
    case VBool(b) => if b then "True" else "False"
    case VInt(i) => (ParseIntToString(i); IntToString(i))
    case VReal(_) => show(v)
    case VStr(s) => s
    case VList(_) => show(v)
  }
}
