/**
 * Decoded JSON values as the exporter receives them from the catalog API, and
 * the pieces of Python behaviour the export pipeline relies on: truthiness,
 * `dict.get`, iteration, hashing of dictionary keys, `str()`, `str.lower()` and
 * `str.join()`.
 */
module Json {
  import opened Wrappers

  /**
   * A decoded JSON value. An object keeps its members in key order, as a
   * Python dict does; a decoded object has distinct keys.
   */
  datatype Value =
    | Null
    | Bool(b: bool)
    | Int(i: int)
    | Str(s: string)
    | List(items: seq<Value>)
    | Obj(members: seq<(string, Value)>)

  /** The Python exception classes ill-shaped records raise. */
  datatype Fault = AttributeError | TypeError

  /** Python truthiness. */
  predicate Truthy(v: Value) {
    match v
    case Null => false
    case Bool(b) => b
    case Int(i) => i != 0
    case Str(s) => s != ""
    case List(items) => items != []
    case Obj(ms) => ms != []
  }

  /** `v or {}` */
  function OrEmptyDict(v: Value): (r: Value)
    ensures Truthy(v) ==> r == v
    ensures !Truthy(v) ==> r == Obj([])
  {
    if Truthy(v) then v else Obj([])
  }

  /** `x or {}` for each element. */
  function OrEmptyDicts(xs: seq<Value>): (r: seq<Value>)
    ensures |r| == |xs| && forall i :: 0 <= i < |xs| ==> r[i] == OrEmptyDict(xs[i])
  {
    if xs == [] then [] else [OrEmptyDict(xs[0])] + OrEmptyDicts(xs[1..])
  }

  /** `v or []` */
  function OrEmptyList(v: Value): (r: Value)
    ensures Truthy(v) ==> r == v
    ensures !Truthy(v) ==> r == List([])
  {
    if Truthy(v) then v else List([])
  }

  /** `d.get(key, default)` on the members of a dict. */
  function Lookup(ms: seq<(string, Value)>, key: string, default: Value): Value {
    if ms == [] then default
    else if ms[0].0 == key then ms[0].1
    else Lookup(ms[1..], key, default)
  }

  /** A key absent from the members yields the default. */
  lemma {:induction false} LookupAbsent(ms: seq<(string, Value)>, key: string, default: Value)
    requires forall i :: 0 <= i < |ms| ==> ms[i].0 != key
    ensures Lookup(ms, key, default) == default
  {
    if ms != [] {
      assert forall i :: 1 <= i < |ms| ==> ms[i] == ms[1..][i - 1];
      LookupAbsent(ms[1..], key, default);
    }
  }

  /** `v.get(key, default)`: only a dict has a `get` method. */
  function Get(v: Value, key: string, default: Value): (r: Result<Value, Fault>)
    ensures r.Success? <==> v.Obj?
  {
    if v.Obj? then Success(Lookup(v.members, key, default)) else Failure(AttributeError)
  }

  /**
   * The elements a `for` loop visits: the items of a list, the one-character
   * strings of a string, the keys of a dict; anything else is not iterable.
   */
  function Iterate(v: Value): (r: Result<seq<Value>, Fault>)
    ensures r.Success? <==> v.List? || v.Str? || v.Obj?
    ensures v.List? ==> r == Success(v.items)
  {
    match v
    case List(items) => Success(items)
    case Str(s) => Success(Chars(s))
    case Obj(ms) => Success(Keys(ms))
    case _ => Failure(TypeError)
  }

  /** The one-character strings of a string. */
  function Chars(s: string): (r: seq<Value>)
    ensures |r| == |s|
  {
    if s == [] then [] else [Str([s[0]])] + Chars(s[1..])
  }

  /** The keys of a dict, in order. */
  function Keys(ms: seq<(string, Value)>): (r: seq<Value>)
    ensures |r| == |ms|
  {
    if ms == [] then [] else [Str(ms[0].0)] + Keys(ms[1..])
  }

  /**
   * The dictionary key a value stands for. Python identifies `True` with `1`
   * and `False` with `0` as keys; lists and dicts are unhashable.
   */
  function HashKey(v: Value): (r: Result<Value, Fault>)
    ensures r.Success? <==> !(v.List? || v.Obj?)
    ensures r.Success? ==> !r.value.Bool?
  {
    match v
    case Bool(b) => Success(Int(if b then 1 else 0))
    case List(_) => Failure(TypeError)
    case Obj(_) => Failure(TypeError)
    case _ => Success(v)
  }

  function DigitChar(d: nat): char
    requires d < 10
  {
    "0123456789"[d]
  }

  /** Decimal digits of a natural number. */
  function NatToDecimal(n: nat): (r: string)
    ensures |r| >= 1
    ensures forall k :: 0 <= k < |r| ==> '0' <= r[k] <= '9'
  {
    if n < 10 then [DigitChar(n)] else NatToDecimal(n / 10) + [DigitChar(n % 10)]
  }

  /** `str(i)` for an int. */
  function IntToDecimal(i: int): string {
    if i < 0 then "-" + NatToDecimal(-i) else NatToDecimal(i)
  }

  /** `sep.join(parts)` */
  function Join(sep: string, parts: seq<string>): (r: string)
    ensures parts == [] ==> r == ""
    ensures |parts| == 1 ==> r == parts[0]
  {
    if |parts| == 0 then ""
    else if |parts| == 1 then parts[0]
    else parts[0] + sep + Join(sep, parts[1..])
  }

  /**
   * `str(v)` when `quoted` is false and `repr(v)` when it is true: the two
   * differ only on strings. Strings inside containers are shown in single
   * quotes without escaping.
   */
  function Render(v: Value, quoted: bool): string
    decreases v, 1, 0
  {
    match v
    case Null => "None"
    case Bool(b) => if b then "True" else "False"
    case Int(i) => IntToDecimal(i)
    case Str(s) => if quoted then "'" + s + "'" else s
    case List(items) => "[" + Join(", ", RenderItems(v, 0)) + "]"
    case Obj(ms) => "{" + Join(", ", RenderMembers(v, 0)) + "}"
  }

  /** `repr()` of the list elements from index `i` on. */
  function RenderItems(v: Value, i: nat): seq<string>
    requires v.List?
    decreases v, 0, |v.items| - i
  {
    if i >= |v.items| then [] else [Render(v.items[i], true)] + RenderItems(v, i + 1)
  }

  /** `'key': repr(value)` for the dict members from index `i` on. */
  function RenderMembers(v: Value, i: nat): seq<string>
    requires v.Obj?
    decreases v, 0, |v.members| - i
  {
    if i >= |v.members| then []
    else
      assert v.members[i] in v.members;
      ["'" + v.members[i].0 + "': " + Render(v.members[i].1, true)] + RenderMembers(v, i + 1)
  }

  /** Python's `str(v)`. */
  function ToStr(v: Value): string {
    Render(v, false)
  }

  /** `str(x)` for each element. */
  function ToStrs(xs: seq<Value>): (r: seq<string>)
    ensures |r| == |xs| && forall k :: 0 <= k < |xs| ==> r[k] == ToStr(xs[k])
  {
    if xs == [] then [] else [ToStr(xs[0])] + ToStrs(xs[1..])
  }

  function LowerChar(c: char): char {
    if 'A' <= c <= 'Z' then (c as int + 32) as char else c
  }

  /** `s.lower()` on ASCII letters. */
  function Lower(s: string): (r: string)
    ensures |r| == |s|
  {
    seq(|s|, i requires 0 <= i < |s| => LowerChar(s[i]))
  }

  /** `sep.join(parts)` when the parts are arbitrary values: a non-string raises. */
  function JoinStrs(sep: string, parts: seq<Value>): (r: Result<string, Fault>)
    ensures r.Success? <==> forall k :: 0 <= k < |parts| ==> parts[k].Str?
  {
    var texts :- Texts(parts);
    Success(Join(sep, texts))
  }

  /** Joining values that are the strings `strs` joins `strs`. */
  lemma JoinStrsOfStrings(sep: string, parts: seq<Value>, strs: seq<string>)
    requires |parts| == |strs| && forall k :: 0 <= k < |parts| ==> parts[k] == Str(strs[k])
    ensures JoinStrs(sep, parts) == Success(Join(sep, strs))
  {
    assert Texts(parts).value == strs;
  }

  /** The strings of a sequence of values that must all be strings. */
  function Texts(parts: seq<Value>): (r: Result<seq<string>, Fault>)
    ensures r.Success? <==> forall k :: 0 <= k < |parts| ==> parts[k].Str?
    ensures r.Success? ==> |r.value| == |parts| && forall k :: 0 <= k < |parts| ==> r.value[k] == parts[k].s
  {
    if parts == [] then Success([])
    else if !parts[0].Str? then Failure(TypeError)
    else
      var rest :- Texts(parts[1..]);
      Success([parts[0].s] + rest)
  }
}
