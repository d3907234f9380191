/** Decoded JSON values, as `response.json()` hands them to the pipeline, and
    the text Python's `str()` gives for such a value when it is interpolated
    into an f-string. */
module Json {

  /** A decoded JSON document. Numbers are integers (floats are not modelled). */
  datatype Json =
    | Null
    | Bool(b: bool)
    | Number(n: int)
    | Str(s: string)
    | Array(items: seq<Json>)
    | Object(fields: map<string, Json>)

  predicate IsDigit(c: char) {
    '0' <= c <= '9'
  }

  function DigitChar(d: nat): (c: char)
    requires d < 10
    ensures IsDigit(c) && c as int - '0' as int == d
  {
    "0123456789"[d]
  }

  /** Decimal digits of `n`, most significant first, without leading zeros. */
  function NatText(n: nat): (r: string)
    ensures |r| >= 1
    ensures forall i :: 0 <= i < |r| ==> IsDigit(r[i])
    ensures r[0] == '0' ==> n == 0
    decreases n
  {
    if n < 10 then [DigitChar(n)] else NatText(n / 10) + [DigitChar(n % 10)]
  }

  /** The number a string of decimal digits denotes (reference reading of `NatText`). */
  function DecimalValue(s: string): nat
    requires forall i :: 0 <= i < |s| ==> IsDigit(s[i])
  {
    if s == [] then 0
    else
      var last := s[|s| - 1];
      assert IsDigit(last);
      DecimalValue(s[..|s| - 1]) * 10 + (last as int - '0' as int)
  }

  /** Reading back the digits `NatText` writes gives the number. */
  lemma {:induction false} NatTextRoundTrip(n: nat)
    ensures DecimalValue(NatText(n)) == n
    decreases n
  {
    if n >= 10 {
      var prefix := NatText(n / 10);
      var r := prefix + [DigitChar(n % 10)];
      assert r[..|r| - 1] == prefix;
      NatTextRoundTrip(n / 10);
    }
  }

  /** Python's `str()` of an integer: an optional minus sign and decimal digits. */
  function IntText(n: int): (r: string)
    ensures |r| >= 1
    ensures n < 0 <==> r[0] == '-'
    ensures n >= 0 && r[0] == '0' ==> n == 0
    ensures n == 0 ==> r == "0"
    ensures n < 0 ==> |r| >= 2 && r[1] != '0'
    ensures n >= 0 ==> (forall i :: 0 <= i < |r| ==> IsDigit(r[i])) && DecimalValue(r) == n
    ensures n < 0 ==> (forall i :: 1 <= i < |r| ==> IsDigit(r[i])) && DecimalValue(r[1..]) == -n
  {
    if n < 0 then
      NatTextRoundTrip(-n);
      var r := "-" + NatText(-n);
      assert r[1..] == NatText(-n);
      r
    else
      NatTextRoundTrip(n);
      NatText(n)
  }

  /** Python's `str()` of a decoded value, which an f-string interpolates. */
  function Text(v: Json): (r: string)
    ensures v.Str? ==> r == v.s
    ensures v.Number? ==> r == IntText(v.n)
  {
    match v
    case Null => "None"
    case Bool(b) => if b then "True" else "False"
    case Number(n) => IntText(n)
    case Str(s) => s
    case Array(_) => "[...]"
    case Object(_) => "{...}"
  }
}
