/** JavaScript values as the reducers and views see them, with the three
    operators the front end leans on: truthiness (`if (x)`, `Boolean(x)`),
    `||`, `??`, and optional property access `x?.k`. */
module JsValues {
  import Text
  import Wrappers

  /** A JavaScript value. Numbers are integers here: `NaN` and fractions do not
      occur in the modelled code paths. Objects are finite maps from keys to values. */
  datatype Value =
    | Undefined
    | Null
    | Bool(b: bool)
    | Num(n: int)
    | Str(s: string)
    | Arr(elems: seq<Value>)
    | Obj(fields: map<string, Value>)

  /** `undefined` or `null`. */
  predicate Nullish(v: Value)
  {
    v.Undefined? || v.Null?
  }

  /** JavaScript truthiness: `false`, `0`, `""`, `null` and `undefined` are
      falsy; every array and every object is truthy, even an empty one. */
  predicate Truthy(v: Value)
  {
    match v
    case Undefined => false
    case Null => false
    case Bool(b) => b
    case Num(n) => n != 0
    case Str(s) => s != ""
    case Arr(_) => true
    case Obj(_) => true
  }

  /** `a || b`: `a` when it is truthy, otherwise `b`. */
  function Or(a: Value, b: Value): (r: Value)
    ensures Truthy(a) ==> r == a
    ensures !Truthy(a) ==> r == b
  {
    if Truthy(a) then a else b
  }

  /** `a ?? b`: `a` unless it is `null` or `undefined`. Differs from `||` on
      `false`, `0` and `""`, which `??` keeps. */
  function Coalesce(a: Value, b: Value): (r: Value)
    ensures Nullish(a) ==> r == b
    ensures !Nullish(a) ==> r == a
  {
    if Nullish(a) then b else a
  }

  /** `v?.key`: the property of an object, `undefined` for a missing key and for
      anything that is not an object (the array and string properties such as
      `length` are never read in the modelled code). On a non-nullish `v` this is
      also what `v.key` gives. */
  function Get(v: Value, key: string): (r: Value)
    ensures v.Obj? && key in v.fields ==> r == v.fields[key]
    ensures !(v.Obj? && key in v.fields) ==> r == Undefined
  {
    if v.Obj? && key in v.fields then v.fields[key] else Undefined
  }

  /** `typeof v === "string" ? v : undefined`, as a Dafny option. */
  function AsString(v: Value): (r: Wrappers.Option<string>)
  {
    if v.Str? then Wrappers.Some(v.s) else Wrappers.None
  }

  /** `String(v)`, as JavaScript renders primitives, arrays (elements joined
      with ",", `null` and `undefined` elements as "") and plain objects. */
  function ToJsString(v: Value): (r: string)
    ensures v.Str? ==> r == v.s
    ensures v.Obj? ==> r == "[object Object]"
  {
    match v
    case Undefined => "undefined"
    case Null => "null"
    case Bool(b) => if b then "true" else "false"
    case Num(n) => if n < 0 then "-" + Text.NatToString(-n) else Text.NatToString(n)
    case Str(s) => s
    case Arr(elems) => Text.Join(ElementStrings(elems), ',')
    case Obj(_) => "[object Object]"
  }

  function ElementStrings(elems: seq<Value>): (r: seq<string>)
    ensures |r| == |elems|
    decreases elems
  {
    if elems == [] then []
    else
      [if Nullish(elems[0]) then "" else ToJsString(elems[0])] + ElementStrings(elems[1..])
  }

  /** The whitespace and line terminators JavaScript's `String.prototype.trim`
      removes: TAB, VT, FF, SP, NBSP, ZWNBSP, the other space separators (Zs)
      and LF, CR, LS, PS. */
  const JsWhitespace: set<char> := {
    '\t', '\n', '\U{B}', '\U{C}', '\r', ' ', '\U{A0}', '\U{1680}',
    '\U{2000}', '\U{2001}', '\U{2002}', '\U{2003}', '\U{2004}', '\U{2005}',
    '\U{2006}', '\U{2007}', '\U{2008}', '\U{2009}', '\U{200A}',
    '\U{2028}', '\U{2029}', '\U{202F}', '\U{205F}', '\U{3000}', '\U{FEFF}'
  }

  /** `s.trim()`. */
  function Trim(s: string): (r: string)
    ensures |r| <= |s|
    ensures r == [] || (r[0] !in JsWhitespace && r[|r| - 1] !in JsWhitespace)
  {
    Text.Strip(s, JsWhitespace)
  }

  /** `s.toLowerCase()` on the ASCII letters; other characters are kept. */
  function ToLowerCase(s: string): (r: string)
    ensures |r| == |s|
    ensures forall i :: 0 <= i < |s| ==> r[i] == Text.LowerChar(s[i])
  {
    Text.AsciiLower(s)
  }

  /** `!s.trim()` holds exactly when `s` consists of whitespace only. */
  lemma BlankIffAllWhitespace(s: string)
    ensures !Truthy(Str(Trim(s))) <==> forall j :: 0 <= j < |s| ==> s[j] in JsWhitespace
  {
    var t := Trim(s);
    assert Truthy(Str(t)) <==> t != [];
    Text.StripEmptyIff(s, JsWhitespace);
  }
}
