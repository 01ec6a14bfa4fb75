/**
 * The few pieces of JavaScript value semantics the widget relies on:
 * dynamically typed values with their truthiness, optional fields, and the
 * UTF-16 `length` of a string.
 */
module Js {

  datatype Option<+T> = None | Some(value: T)

  /** A JavaScript value as far as the widget inspects it. Objects and arrays
      are not looked into where this type is used, so they share `Obj`. */
  datatype JsValue = Undefined | Null | Bool(b: bool) | Number(n: real) | Str(s: string) | Obj

  /** JavaScript's ToBoolean (NaN is not modelled): the falsy values are
      exactly undefined, null, false, 0 and the empty string. */
  predicate Truthy(v: JsValue): (truthy: bool)
    ensures !truthy <==> v == Undefined || v == Null || v == Bool(false) || v == Number(0.0) || v == Str("")
  {
    match v
    case Undefined => false
    case Null => false
    case Bool(b) => b
    case Number(n) => n != 0.0
    case Str(s) => s != ""
    case Obj => true
  }

  lemma TruthyStrings(s: string)
    ensures Truthy(Str(s)) <==> |s| > 0
    ensures !Truthy(Undefined) && !Truthy(Null) && Truthy(Obj)
  {
  }

  /** Number of UTF-16 code units of one character: two for characters outside
      the Basic Multilingual Plane. */
  function CodeUnits(c: char): (n: nat)
    ensures 1 <= n <= 2
  {
    if c as int > 0xFFFF then 2 else 1
  }

  /** JavaScript's `s.length`: UTF-16 code units, not characters. */
  function Utf16Length(s: string): (n: nat)
    ensures |s| <= n <= 2 * |s|
    ensures n == 0 <==> s == []
  {
    if s == [] then 0 else CodeUnits(s[0]) + Utf16Length(s[1..])
  }

  /** A string of two characters or more is at least two code units long,
      and a string of one character is one or two. */
  lemma {:induction false} Utf16LengthAtLeastTwo(s: string)
    ensures Utf16Length(s) < 2 <==> |s| == 0 || (|s| == 1 && s[0] as int <= 0xFFFF)
  {
    if |s| == 1 {
      assert s[1..] == [];
    }
  }
}
