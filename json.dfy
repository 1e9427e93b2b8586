/** Option and Result, the failure-carrying wrappers the rest of the model uses. */
module Wrappers {
  datatype Option<+T> = None | Some(value: T)

  datatype Result<+T, +E> = Success(value: T) | Failure(error: E)
}

/**
 * The JSON values the bridge receives from its JSON body parser and from the
 * archival service, together with the few pieces of JavaScript semantics
 * the handler relies on: truthiness, property reads, and the string
 * conversion that a template literal `${x}` performs.
 */
module JsValues {
  import opened Wrappers

  /** A value produced by JSON parsing. Numbers are modelled as integers. */
  datatype JVal =
    | JNull
    | JBool(b: bool)
    | JNum(n: int)
    | JStr(s: string)
    | JArr(items: seq<JVal>)
    | JObj(fields: map<string, JVal>)

  /** JavaScript truthiness of a present value: null, false, 0 and "" are falsy. */
  predicate Truthy(v: JVal) {
    match v
    case JNull => false
    case JBool(b) => b
    case JNum(n) => n != 0
    case JStr(s) => s != ""
    case JArr(_) => true
    case JObj(_) => true
  }

  /** The falsy JSON values are exactly null, false, 0 and the empty string. */
  lemma FalsyValues(x: JVal)
    ensures !Truthy(x) <==> x in {JNull, JBool(false), JNum(0), JStr("")}
  {
  }

  /** Truthiness of a possibly absent value (`undefined` is falsy). */
  predicate OptTruthy(v: Option<JVal>) {
    v.Some? && Truthy(v.value)
  }

  /** `v || fallback` for a present value. */
  function OrElse(v: Option<JVal>, fallback: JVal): (r: JVal)
    ensures OptTruthy(v) ==> r == v.value
    ensures !OptTruthy(v) ==> r == fallback
  {
    if OptTruthy(v) then v.value else fallback
  }

  /**
   * Reading property `key` of a non-null value that JSON parsing produced.
   * Only objects have own properties; strings, numbers, booleans and arrays
   * inherit none of the keys the bridge reads, so they give `undefined`.
   */
  function Get(v: JVal, key: string): (r: Option<JVal>)
    ensures r.Some? <==> v.JObj? && key in v.fields
    ensures r.Some? ==> r.value == v.fields[key]
  {
    if v.JObj? && key in v.fields then Some(v.fields[key]) else None
  }

  /** The message of the TypeError raised by reading a property of `null`. */
  function NullReadMessage(key: string): string {
    "Cannot read properties of null (reading '" + key + "')"
  }

  /** The message of the TypeError raised when an object has no usable string conversion. */
  const NoPrimitiveMessage: string := "Cannot convert object to primitive value"

  /** `v.key`, which throws a TypeError when `v` is `null`. */
  function Member(v: JVal, key: string): (r: Result<Option<JVal>, string>)
    ensures r.Failure? <==> v == JNull
    ensures r.Failure? ==> r.error == NullReadMessage(key)
    ensures r.Success? ==> r.value == Get(v, key)
  {
    if v == JNull then Failure(NullReadMessage(key)) else Success(Get(v, key))
  }

  /** The decimal digit for `d`. */
  function DigitChar(d: nat): (c: char)
    requires d < 10
    ensures '0' <= c <= '9'
  {
    "0123456789"[d]
  }

  /** The value of a decimal digit character. */
  function DigitValue(c: char): (d: nat)
    requires '0' <= c <= '9'
    ensures d < 10
  {
    c as int - '0' as int
  }

  predicate IsDigits(s: string) {
    forall i :: 0 <= i < |s| ==> '0' <= s[i] <= '9'
  }

  /** The decimal representation of a natural number, without leading zeros. */
  function NatToString(n: nat): (s: string)
    ensures |s| >= 1 && IsDigits(s)
    ensures |s| > 1 ==> s[0] != '0'
  {
    if n < 10 then [DigitChar(n)] else NatToString(n / 10) + [DigitChar(n % 10)]
  }

  /** Reads a string of decimal digits back as a number. */
  function ParseDigits(s: string): nat
    requires IsDigits(s)
  {
    if s == [] then 0 else 10 * ParseDigits(s[..|s| - 1]) + DigitValue(s[|s| - 1])
  }

  lemma {:induction false} NatToStringRoundTrip(n: nat)
    ensures ParseDigits(NatToString(n)) == n
  {
    var s := NatToString(n);
    if n >= 10 {
      assert s[..|s| - 1] == NatToString(n / 10);
      NatToStringRoundTrip(n / 10);
    }
  }

  /**
   * JavaScript's `String(n)` for an integral number of magnitude at most
   * 2^53, the range in which a double holds the integer exactly.
   */
  function IntToString(n: int): (s: string)
    ensures n >= 0 ==> s == NatToString(n)
    ensures n < 0 ==> s == "-" + NatToString(-n)
  {
    if n < 0 then "-" + NatToString(-n) else NatToString(n)
  }

  /** Reads an optionally signed decimal numeral back as an integer. */
  function ParseInt(s: string): int
    requires IsDigits(s) || (|s| > 0 && s[0] == '-' && IsDigits(s[1..]))
  {
    if |s| > 0 && s[0] == '-' then -(ParseDigits(s[1..]) as int) else ParseDigits(s)
  }

  /** Every integer is read back from the text JavaScript writes for it. */
  lemma IntToStringRoundTrip(n: int)
    ensures var s := IntToString(n);
      (IsDigits(s) || (|s| > 0 && s[0] == '-' && IsDigits(s[1..]))) && ParseInt(s) == n
  {
    if n < 0 {
      var digits := NatToString(-n);
      assert IntToString(n)[1..] == digits;
      assert '0' <= digits[0] <= '9';
      assert !IsDigits(IntToString(n));
      NatToStringRoundTrip(-n);
    } else {
      NatToStringRoundTrip(n);
    }
  }

  /**
   * The conversion `${v}` performs on a present value. An object whose own
   * `toString` key shadows the inherited method has no callable conversion
   * (JSON values are never callable), so conversion throws; an array joins
   * its elements with "," after turning null elements into "".
   */
  function ValueString(v: JVal): Result<string, string>
    decreases v
  {
    match v
    case JNull => Success("null")
    case JBool(b) => Success(if b then "true" else "false")
    case JNum(n) => Success(IntToString(n))
    case JStr(s) => Success(s)
    case JArr(items) => JoinElements(items)
    case JObj(fields) =>
      if "toString" in fields then Failure(NoPrimitiveMessage) else Success("[object Object]")
  }

  /** `Array.prototype.join(",")` over array elements; the first failing element decides the error. */
  function JoinElements(items: seq<JVal>): Result<string, string>
    decreases items
  {
    if |items| == 0 then Success("")
    else
      var head := if items[0] == JNull then Success("") else ValueString(items[0]);
      if head.Failure? then head
      else if |items| == 1 then head
      else
        var tail := JoinElements(items[1..]);
        if tail.Failure? then tail else Success(head.value + "," + tail.value)
  }

  /** The conversion `${x}` performs, where an absent value is `undefined`. */
  function TemplateString(v: Option<JVal>): (r: Result<string, string>)
    ensures v.None? ==> r == Success("undefined")
    ensures v.Some? && v.value.JStr? ==> r == Success(v.value.s)
    ensures r.Failure? ==> r.error == NoPrimitiveMessage
  {
    match v
    case None => Success("undefined")
    case Some(x) => ConversionFailsOnlyOnObjects(x); ValueString(x)
  }

  /** Only objects that shadow `toString`, possibly nested in arrays, make a conversion throw. */
  predicate HasShadowedToString(v: JVal)
    decreases v
  {
    match v
    case JObj(fields) => "toString" in fields
    case JArr(items) => exists i :: 0 <= i < |items| && HasShadowedToString(items[i])
    case _ => false
  }

  lemma {:induction false} ConversionFailsOnlyOnObjects(v: JVal)
    ensures ValueString(v).Failure? <==> HasShadowedToString(v)
    ensures ValueString(v).Failure? ==> ValueString(v).error == NoPrimitiveMessage
    decreases v
  {
    if v.JArr? {
      JoinFailsOnlyOnObjects(v.items);
    }
  }

  lemma {:induction false} JoinFailsOnlyOnObjects(items: seq<JVal>)
    ensures JoinElements(items).Failure? <==>
      exists i :: 0 <= i < |items| && HasShadowedToString(items[i])
    ensures JoinElements(items).Failure? ==> JoinElements(items).error == NoPrimitiveMessage
    decreases items
  {
    if |items| > 0 {
      if items[0] != JNull {
        ConversionFailsOnlyOnObjects(items[0]);
      }
      if |items| > 1 {
        JoinFailsOnlyOnObjects(items[1..]);
        if exists i :: 0 <= i < |items| && HasShadowedToString(items[i]) {
          var i :| 0 <= i < |items| && HasShadowedToString(items[i]);
          if i > 0 {
            assert items[1..][i - 1] == items[i];
          }
        }
        forall i | 0 <= i < |items| - 1 && HasShadowedToString(items[1..][i])
          ensures HasShadowedToString(items[i + 1])
        {
        }
      }
    }
  }
}
