/** The small part of JavaScript value semantics the map script relies on:
    the decimal text of an integer (what `"" + n` produces for the integer
    legend bounds), `undefined` for an array index past the end, and the
    truthiness test of a conditional expression. */
module JsValues {
  import opened Wrappers

  predicate IsDigit(c: char) {
    '0' <= c <= '9'
  }

  predicate AllDigits(s: string) {
    forall i :: 0 <= i < |s| ==> IsDigit(s[i])
  }

  function DigitChar(d: nat): (c: char)
    requires d < 10
    ensures IsDigit(c)
  {
    (('0' as int) + d) as char
  }

  function DigitValue(c: char): (d: nat)
    requires IsDigit(c)
    ensures d < 10 && DigitChar(d) == c
  {
    (c as int) - ('0' as int)
  }

  /** Decimal text of a natural number, most significant digit first, with no
      leading zeros. */
  function NatToString(n: nat): (s: string)
    ensures |s| >= 1 && AllDigits(s)
    ensures s[0] == '0' <==> n == 0
    ensures s[0] == '0' ==> |s| == 1
    decreases n
  {
    if n < 10 then [DigitChar(n)]
    else NatToString(n / 10) + [DigitChar(n % 10)]
  }

  /** JavaScript's text for an integral number of magnitude below 10^21 that
      is held exactly: a minus sign for negatives, then the decimal digits
      (String(-10) == "-10", String(0) == "0"). Exponent notation and the
      rounding of integers above 2^53 are not modelled. */
  function IntToString(i: int): (s: string)
    ensures |s| >= 1
    ensures s[0] == '-' <==> i < 0
    ensures AllDigits(s[1..])
  {
    if i < 0 then "-" + NatToString(-i) else NatToString(i)
  }

  /** The number a string of decimal digits denotes. */
  function DigitsValue(s: string): nat
    requires AllDigits(s)
  {
    if s == [] then 0
    else DigitsValue(s[..|s| - 1]) * 10 + DigitValue(s[|s| - 1])
  }

  /** Reads back optionally signed decimal text; the partner of IntToString. */
  function ParseInt(s: string): (r: Option<int>)
    ensures r.Some? ==> |s| >= 1
  {
    if |s| >= 2 && s[0] == '-' && AllDigits(s[1..]) then Some(-(DigitsValue(s[1..]) as int))
    else if |s| >= 1 && s[0] != '-' && AllDigits(s) then Some(DigitsValue(s))
    else None
  }

  lemma {:induction false} NatToStringRoundTrip(n: nat)
    ensures DigitsValue(NatToString(n)) == n
    decreases n
  {
    var s := NatToString(n);
    if n >= 10 {
      var prefix := NatToString(n / 10);
      assert s == prefix + [DigitChar(n % 10)];
      assert s[..|s| - 1] == prefix;
      NatToStringRoundTrip(n / 10);
    }
  }

  /** ParseInt undoes IntToString for every integer. */
  lemma IntToStringRoundTrip(i: int)
    ensures ParseInt(IntToString(i)) == Some(i)
  {
    var s := IntToString(i);
    if i < 0 {
      assert s[1..] == NatToString(-i);
      NatToStringRoundTrip(-i);
    } else {
      NatToStringRoundTrip(i);
    }
  }

  /** Distinct integers have distinct texts. */
  lemma IntToStringInjective(i: int, j: int)
    ensures IntToString(i) == IntToString(j) ==> i == j
  {
    IntToStringRoundTrip(i);
    IntToStringRoundTrip(j);
  }

  /** A JavaScript value as the script meets it: an integral number, or
      `undefined` for a read past the end of an array. */
  datatype JsValue = Undefined | Number(n: int)

  /** `a[k]` in JavaScript. */
  function Index(a: seq<int>, k: nat): (v: JsValue)
    ensures v.Number? <==> k < |a|
    ensures v.Number? ==> v.n == a[k]
  {
    if k < |a| then Number(a[k]) else Undefined
  }

  /** The truthiness test of `v ? … : …`; `undefined` and 0 are falsy. */
  predicate Truthy(v: JsValue) {
    match v
    case Undefined => false
    case Number(n) => n != 0
  }

  /** The text `"" + v` gives. */
  function ToJsString(v: JsValue): string {
    match v
    case Undefined => "undefined"
    case Number(n) => IntToString(n)
  }

  /** An array read is truthy exactly when it is in range and not zero. */
  lemma TruthyIndex(a: seq<int>, k: nat)
    ensures Truthy(Index(a, k)) <==> k < |a| && a[k] != 0
  {
  }
}
