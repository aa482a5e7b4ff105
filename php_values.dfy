/**
 * The slice of PHP's value semantics that the Contactzilla client relies on:
 * the values it stores and passes around, the truthiness that the `?:` and
 * `if` operators test, the conversion to string that the `.` operator performs
 * when it builds URLs, and the key normalisation of array lookups.
 */
module Php {

  datatype Option<T> = None | Some(value: T)

  /** A PHP value as decoded from JSON or passed by a caller (floats and objects left out). */
  datatype Value =
    | Null
    | Bool(b: bool)
    | Int(i: int)
    | Str(s: string)
    | List(items: seq<Value>)                 // an array with keys 0 .. n-1
    | Dict(entries: map<string, Value>)       // an array with string keys

  /** What `if ($v)` and `$v ?: $w` test: false, 0, "", "0", null and the empty array are false. */
  predicate Truthy(v: Value)
  {
    match v
    case Null => false
    case Bool(b) => b
    case Int(i) => i != 0
    case Str(s) => s != "" && s != "0"
    case List(items) => |items| != 0
    case Dict(entries) => |entries| != 0
  }

  predicate IsDigit(c: char)
  {
    '0' <= c <= '9'
  }

  predicate AllDigits(s: string)
  {
    forall j :: 0 <= j < |s| ==> IsDigit(s[j])
  }

  function DigitChar(d: nat): (c: char)
    requires d < 10
    ensures IsDigit(c) && (c == '0' <==> d == 0)
  {
    "0123456789"[d]
  }

  function DigitOf(c: char): (d: nat)
    requires IsDigit(c)
    ensures d < 10
  {
    (c as int) - ('0' as int)
  }

  /** The decimal text PHP produces for a non-negative integer: digits only, no leading zero. */
  function NatText(n: nat): (r: string)
    ensures |r| >= 1 && AllDigits(r)
    ensures r[0] == '0' ==> n == 0
    decreases n
  {
    if n < 10 then [DigitChar(n)] else NatText(n / 10) + [DigitChar(n % 10)]
  }

  /** Reads a string of decimal digits back as a number. */
  function DigitsValue(s: string): nat
    requires AllDigits(s)
  {
    if s == [] then 0 else DigitsValue(s[..|s| - 1]) * 10 + DigitOf(s[|s| - 1])
  }

  lemma {:induction false} NatTextRoundTrip(n: nat)
    ensures DigitsValue(NatText(n)) == n
  {
    var r := NatText(n);
    if n < 10 {
      assert r[..|r| - 1] == [];
      assert DigitOf(DigitChar(n)) == n;
    } else {
      NatTextRoundTrip(n / 10);
      assert r[..|r| - 1] == NatText(n / 10);
      assert DigitOf(DigitChar(n % 10)) == n % 10;
    }
  }

  lemma NatTextInjective(m: nat, n: nat)
    requires NatText(m) == NatText(n)
    ensures m == n
  {
    NatTextRoundTrip(m);
    NatTextRoundTrip(n);
  }

  /** The decimal text PHP produces for any integer. */
  function IntText(i: int): string
  {
    if i < 0 then "-" + NatText(-i) else NatText(i)
  }

  /** What the string concatenation operator `.` turns a value into. */
  function Text(v: Value): string
  {
    match v
    case Null => ""
    case Bool(b) => if b then "1" else ""
    case Int(i) => IntText(i)
    case Str(s) => s
    case List(_) => "Array"     // array-to-string conversion (PHP also raises a notice)
    case Dict(_) => "Array"
  }

  /** The array key a value stands for when used as `$array[$key]` (null stands for ""); None for an array offset, which PHP refuses. */
  function ArrayKey(key: Value): Option<string>
  {
    match key
    case Str(s) => Some(s)
    case Int(i) => Some(IntText(i))
    case Bool(b) => Some(if b then "1" else "0")
    case Null => Some("")
    case _ => None
  }

  /** A key PHP stores as an integer index: the canonical decimal form of a natural number. */
  predicate IsIndexKey(k: string)
  {
    |k| >= 1 && AllDigits(k) && NatText(DigitsValue(k)) == k
  }

  /**
   * `isset($array[$key]) ? $array[$key] : null` for a decoded JSON value: the entry under
   * the key, or null when the key is absent, is itself an array, or the value is no array.
   */
  function Lookup(data: Value, key: Value): Value
  {
    match (data, ArrayKey(key))
    case (Dict(m), Some(k)) => if k in m then m[k] else Null
    case (List(items), Some(k)) =>
      if IsIndexKey(k) && DigitsValue(k) < |items| then items[DigitsValue(k)] else Null
    case _ => Null
  }

  lemma LookupInList(items: seq<Value>, j: nat)
    requires j < |items|
    ensures Lookup(List(items), Int(j)) == items[j]
    ensures Lookup(List(items), Str(NatText(j))) == items[j]
  {
    NatTextRoundTrip(j);
  }

  lemma LookupInDict(m: map<string, Value>, k: string)
    ensures k in m ==> Lookup(Dict(m), Str(k)) == m[k]
    ensures k !in m ==> Lookup(Dict(m), Str(k)) == Null
  {
  }
}
