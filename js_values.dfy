/**
 * The few JavaScript value semantics the notification handlers rely on:
 * truthiness of optional string arguments, the `x || ""` default, and the
 * string a template literal `${v}` produces for a Firestore field value.
 */
module JsValues {

  datatype Option<+T> = None | Some(value: T)

  /** An optional string argument is truthy when it is present and not "". */
  predicate Truthy(v: Option<string>) {
    v.Some? && v.value != ""
  }

  /** `v || ""`: the value itself when truthy, otherwise the empty string. */
  function OrEmpty(v: Option<string>): (s: string)
    ensures s == "" <==> !Truthy(v)
    ensures Truthy(v) ==> s == v.value
  {
    if Truthy(v) then v.value else ""
  }

  /**
   * Integers a JavaScript number holds exactly (|n| <= Number.MAX_SAFE_INTEGER).
   * In this range `${n}` is the plain decimal notation.
   */
  type SafeInt = n: int | -0x1F_FFFF_FFFF_FFFF <= n <= 0x1F_FFFF_FFFF_FFFF

  /** A Firestore document field as the handlers see it after `doc.data()`. */
  datatype Scalar = Undefined | Null | Num(n: SafeInt) | Text(s: string)

  /** What a template literal `${v}` inserts for the field value `v`. */
  function Render(v: Scalar): (r: string)
    ensures v == Undefined ==> r == "undefined"
    ensures v == Null ==> r == "null"
    ensures v.Text? ==> r == v.s
    ensures v.Num? ==> ParseInt(r) == Some(v.n as int) && (r[0] == '-' <==> v.n < 0)
    ensures v.Num? ==> var digits := if v.n < 0 then r[1..] else r;
      |digits| >= 1 && IsDigits(digits) && (digits[0] == '0' ==> digits == "0")
  {
    match v
    case Undefined => "undefined"
    case Null => "null"
    case Num(n) => IntDecimalRoundTrip(n); IntToDecimal(n)
    case Text(s) => s
  }

  predicate IsDigits(s: string) {
    forall i | 0 <= i < |s| :: '0' <= s[i] <= '9'
  }

  function Digit(d: nat): (c: char)
    requires d < 10
    ensures '0' <= c <= '9'
    ensures c as int - '0' as int == d
  {
    ('0' as int + d) as char
  }

  /** Decimal notation of a natural number: digits only, no leading zero. */
  function NatToDecimal(n: nat): (s: string)
    ensures |s| >= 1 && IsDigits(s)
    ensures (s[0] == '0') == (n == 0)
    ensures n == 0 ==> s == "0"
    decreases n
  {
    if n < 10 then [Digit(n)] else NatToDecimal(n / 10) + [Digit(n % 10)]
  }

  /** Decimal notation of an integer, with a leading '-' when negative. */
  function IntToDecimal(n: int): (s: string)
    ensures |s| >= 1
    ensures n < 0 <==> s[0] == '-'
    ensures n < 0 ==> |s| >= 2 && IsDigits(s[1..]) && s[1] != '0'
    ensures n >= 0 ==> IsDigits(s) && (s[0] == '0' ==> s == "0")
  {
    if n < 0 then "-" + NatToDecimal(-n) else NatToDecimal(n)
  }

  /** The value of a string of decimal digits. */
  function DecimalValue(s: string): nat
    requires IsDigits(s)
    decreases |s|
  {
    if s == [] then 0
    else 10 * DecimalValue(s[..|s| - 1]) + (s[|s| - 1] as int - '0' as int)
  }

  /** Reads back an optionally signed, non-empty decimal numeral. */
  function ParseInt(s: string): Option<int> {
    if |s| > 1 && s[0] == '-' && IsDigits(s[1..]) then var v: int := DecimalValue(s[1..]); Some(-v)
    else if |s| > 0 && IsDigits(s) then Some(DecimalValue(s))
    else None
  }

  lemma {:induction false} NatDecimalRoundTrip(n: nat)
    ensures DecimalValue(NatToDecimal(n)) == n
    decreases n
  {
    if n >= 10 {
      var s := NatToDecimal(n / 10);
      var t := s + [Digit(n % 10)];
      assert t[..|t| - 1] == s;
      NatDecimalRoundTrip(n / 10);
    }
  }

  /** The text of a natural number reads back as that number. */
  lemma UnsignedRoundTrip(m: nat)
    ensures ParseInt(NatToDecimal(m)) == Some(m)
  {
    var d := NatToDecimal(m);
    assert d[0] != '-';
    NatDecimalRoundTrip(m);
  }

  /** The text of a negative number, '-' and the digits of its magnitude, reads back as that number. */
  lemma NegativeRoundTrip(m: nat)
    ensures ParseInt("-" + NatToDecimal(m)) == Some(-(m as int))
  {
    var d := NatToDecimal(m);
    assert ("-" + d)[1..] == d;
    NatDecimalRoundTrip(m);
  }

  /** The decimal text of any integer reads back as that integer. */
  lemma IntDecimalRoundTrip(n: int)
    ensures ParseInt(IntToDecimal(n)) == Some(n)
  {
    if n < 0 {
      NegativeRoundTrip(-n);
    } else {
      UnsignedRoundTrip(n);
    }
  }
}
