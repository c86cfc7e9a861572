/**
 * The PHP values the update snapshot and the version-control cache pass
 * around, and the two PHP coercions the module relies on: the `(bool)` cast
 * (whose negation is `empty()`) and `strval()`.
 */
module PhpValues {

  /** A PHP value. Arrays are keyed by strings; floats and objects are not modelled. */
  datatype Value =
    | Null
    | Bool(b: bool)
    | Int(i: int)
    | Str(s: string)
    | Arr(entries: map<string, Value>)

  /** PHP's `(bool)` cast: null, false, 0, "", "0" and the empty array are false. */
  predicate ToBool(v: Value) {
    match v
    case Null => false
    case Bool(b) => b
    case Int(i) => i != 0
    case Str(s) => s != "" && s != "0"
    case Arr(m) => m != map[]
  }

  /** PHP's `empty($m[k])` on an array: true for a missing key and for every falsy value. */
  predicate EmptyAt(m: map<string, Value>, k: string) {
    k !in m || !ToBool(m[k])
  }

  /** The character of a decimal digit. */
  function DigitChar(d: nat): (c: char)
    requires d < 10
    ensures '0' <= c <= '9'
  {
    (d + '0' as int) as char
  }

  /** The decimal representation of a natural number, most significant digit first. */
  function NatToDecimal(n: nat): (r: string)
    ensures r != []
    ensures forall j :: 0 <= j < |r| ==> '0' <= r[j] <= '9'
    ensures r == "0" <==> n == 0
    decreases n
  {
    if n < 10 then [DigitChar(n)] else NatToDecimal(n / 10) + [DigitChar(n % 10)]
  }

  /** The number a string of decimal digits denotes; the reading direction of `NatToDecimal`. */
  function DecimalValue(s: string): int {
    if s == [] then 0 else DecimalValue(s[..|s| - 1]) * 10 + (s[|s| - 1] as int - '0' as int)
  }

  /** Reading back the decimal representation of `n` gives `n`. */
  lemma {:induction false} DecimalRoundTrip(n: nat)
    ensures DecimalValue(NatToDecimal(n)) == n
  {
    if n >= 10 {
      var r := NatToDecimal(n);
      assert r[..|r| - 1] == NatToDecimal(n / 10);
      DecimalRoundTrip(n / 10);
    }
  }

  /**
   * PHP's `strval()`: null and false give "", true gives "1", an integer its
   * decimal form with a leading '-' when negative, an array "Array".
   * For every value but an array, the string is truthy exactly when the value is.
   */
  function Strval(v: Value): (s: string)
    ensures !v.Arr? ==> (ToBool(Str(s)) <==> ToBool(v))
    ensures v.Int? && v.i >= 0 ==> DecimalValue(s) == v.i
  {
    match v
    case Null => ""
    case Bool(b) => if b then "1" else ""
    case Int(i) =>
      if i < 0 then "-" + NatToDecimal(-i)
      else DecimalRoundTrip(i); NatToDecimal(i)
    case Str(s) => s
    case Arr(_) => "Array"
  }
}
