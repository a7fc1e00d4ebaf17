/**
 * The JavaScript values that request bodies, environment variables and
 * response payloads take, and the few language operations the handlers
 * apply to them: truthiness, property reads, template-literal string
 * conversion, `String.prototype.includes`, and object construction as
 * `JSON.stringify` serializes it.
 */
module Js {
  import opened Common

  /** A JSON value, plus `undefined` for an absent property. Numbers are integers. */
  datatype Value =
    | Undefined
    | Null
    | Bool(b: bool)
    | Num(n: int)
    | Str(s: string)
    | Arr(elems: seq<Value>)
    | Obj(fields: map<string, Value>)

  /** `v` is one of JavaScript's falsy values (NaN and -0 do not arise here). */
  predicate Falsy(v: Value) {
    v == Undefined || v == Null || v == Bool(false) || v == Num(0) || v == Str("")
  }

  predicate Truthy(v: Value) { !Falsy(v) }

  /** `null` or `undefined`: reading a property of these throws a TypeError. */
  predicate Nullish(v: Value) { v == Undefined || v == Null }

  /** `v.k` for a non-nullish `v`: only objects have the handlers' properties. */
  function Get(v: Value, k: string): (r: Value)
    ensures r != Undefined ==> v.Obj? && k in v.fields
  {
    if v.Obj? && k in v.fields then v.fields[k] else Undefined
  }

  /** V8's TypeError message for `v.k` on a nullish `v`. */
  function ReadError(v: Value, k: string): string {
    "Cannot read properties of " + (if v == Null then "null" else "undefined") + " (reading '" + k + "')"
  }

  /** V8's TypeError message for `const { k, ... } = name` on a nullish value. */
  function DestructureError(v: Value, k: string, name: string): string {
    "Cannot destructure property '" + k + "' of '" + name + "' as it is " +
    (if v == Null then "null" else "undefined") + "."
  }

  /** The single-entry object `{ k: v }` as JSON.stringify writes it: an undefined member is dropped. */
  function Entry(k: string, v: Value): (m: map<string, Value>)
    ensures k in m <==> v != Undefined
    ensures k in m ==> m[k] == v
    ensures m.Keys <= {k}
  {
    if v == Undefined then map[] else map[k := v]
  }

  function DigitChar(d: nat): (c: char)
    requires d < 10
  {
    ('0' as int + d) as char
  }

  predicate IsDigit(c: char) { '0' <= c <= '9' }

  function DigitValue(c: char): (d: nat)
    requires IsDigit(c)
    ensures d < 10 && DigitChar(d) == c
  {
    c as int - '0' as int
  }

  /** Decimal notation of a natural number, as `String(n)` writes integers below 10^21. */
  function NatToString(n: nat): (r: string)
    ensures |r| >= 1
    ensures forall i :: 0 <= i < |r| ==> IsDigit(r[i])
    ensures |r| > 1 ==> r[0] != '0'
    decreases n
  {
    if n < 10 then [DigitChar(n)] else NatToString(n / 10) + [DigitChar(n % 10)]
  }

  /** The number a string of decimal digits denotes: the reading of NatToString's output. */
  function DecimalValue(s: string): nat
    requires forall i :: 0 <= i < |s| ==> IsDigit(s[i])
  {
    if s == [] then 0 else 10 * DecimalValue(s[..|s| - 1]) + DigitValue(s[|s| - 1])
  }

  lemma {:induction false} DecimalRoundTrip(n: nat)
    ensures DecimalValue(NatToString(n)) == n
    decreases n
  {
    if n >= 10 {
      var s := NatToString(n);
      assert s[..|s| - 1] == NatToString(n / 10);
      DecimalRoundTrip(n / 10);
    }
  }

  function IntToString(n: int): (r: string)
    ensures n < 0 <==> (|r| > 0 && r[0] == '-')
  {
    if n < 0 then "-" + NatToString(-n) else NatToString(n)
  }

  /** `ss.join(sep)`. */
  function Join(ss: seq<string>, sep: string): string {
    if ss == [] then ""
    else if |ss| == 1 then ss[0]
    else ss[0] + sep + Join(ss[1..], sep)
  }

  /** `String(v)`, the conversion a template literal `${v}` and `new Error(v)` apply. */
  function ToString(v: Value): (r: string)
    ensures v.Str? ==> r == v.s
    decreases v
  {
    match v
    case Undefined => "undefined"
    case Null => "null"
    case Bool(b) => if b then "true" else "false"
    case Num(n) => IntToString(n)
    case Str(s) => s
    case Arr(es) =>
      // Array.prototype.join writes null and undefined elements as empty strings.
      Join(seq(|es|, i requires 0 <= i < |es| => if Nullish(es[i]) then "" else ToString(es[i])), ",")
    case Obj(_) => "[object Object]"
  }

  /** `s.includes(sub)`. */
  predicate Includes(s: string, sub: string)
    decreases |s|
  {
    sub <= s || (|s| > 0 && Includes(s[1..], sub))
  }
}
