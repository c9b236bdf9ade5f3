/**
 * The slice of PHP's value semantics that the option layer relies on:
 * the scalar values a configuration array can hold, PHP's conversion of a
 * value to boolean (used by `if (!$x)` and `$x ? $x : ...`), PHP's
 * conversion of a value to string (used by the `.` concatenation operator)
 * and `array_key_exists($k, $a) ? $a[$k] : null`.
 */
module PhpValues {

  /** A scalar PHP value. Floats, arrays and objects are not modelled. */
  datatype Value = Null | Str(s: string) | Bool(b: bool) | Int(i: int)

  /** A PHP associative array with string keys. */
  type Config = map<string, Value>

  /**
   * PHP's conversion to boolean: null, false, 0, "" and "0" are false,
   * every other scalar is true.
   */
  predicate Truthy(v: Value)
    ensures Truthy(v) <==> v !in {Null, Str(""), Str("0"), Bool(false), Int(0)}
  {
    match v
    case Null => false
    case Str(s) => s != "" && s != "0"
    case Bool(b) => b
    case Int(i) => i != 0
  }

  /** `array_key_exists($key, $m) ? $m[$key] : null` */
  function Lookup(m: Config, key: string): Value
  {
    if key in m then m[key] else Null
  }

  /** The decimal digit for d. */
  function DigitChar(d: nat): (c: char)
    requires d < 10
    ensures '0' <= c <= '9'
  {
    (48 + d) as char
  }

  predicate IsDigits(s: string)
  {
    forall i :: 0 <= i < |s| ==> '0' <= s[i] <= '9'
  }

  /**
   * PHP's rendering of a non-negative integer: its decimal digits, most
   * significant first, without leading zeros.
   */
  function NatToDecimal(n: nat): (r: string)
    ensures |r| >= 1 && IsDigits(r)
    ensures r[0] == '0' <==> n == 0
  {
    if n < 10 then [DigitChar(n)] else NatToDecimal(n / 10) + [DigitChar(n % 10)]
  }

  /** The number a string of decimal digits denotes; the inverse of NatToDecimal. */
  function DecimalValue(s: string): nat
    requires IsDigits(s)
  {
    if s == [] then 0 else 10 * DecimalValue(s[..|s| - 1]) + ((s[|s| - 1] as int) - 48)
  }

  /** Reading back the rendering of n gives n: the rendering loses nothing. */
  lemma {:induction false} DecimalRoundTrip(n: nat)
    ensures DecimalValue(NatToDecimal(n)) == n
  {
    if n >= 10 {
      var r := NatToDecimal(n);
      assert r[..|r| - 1] == NatToDecimal(n / 10);
      DecimalRoundTrip(n / 10);
    }
  }

  /** PHP's rendering of an integer, with a leading '-' when negative. */
  function IntToDecimal(i: int): string
  {
    if i < 0 then "-" + NatToDecimal(-i) else NatToDecimal(i)
  }

  /**
   * PHP's conversion of a value to string: null and false become "",
   * true becomes "1", an integer its decimal form, a string itself.
   * A value is truthy exactly when its string form is neither "" nor "0".
   */
  function ToStr(v: Value): (r: string)
    ensures Truthy(v) <==> r != "" && r != "0"
  {
    match v
    case Null => ""
    case Str(s) => s
    case Bool(b) => if b then "1" else ""
    case Int(i) => IntToDecimal(i)
  }
}
