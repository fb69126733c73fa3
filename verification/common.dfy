/** Helpers shared by the solar-advisor model: optional values, the Python
    numeric conversions the calculators rely on, substring tests, decimal
    rendering of counts, and reading a field out of a parsed recommendation. */
module Common {

  datatype Option<+T> = None | Some(value: T) {
    /** Python's `d.get(key, default)` once the key lookup is an Option. */
    function GetOr(default: T): T {
      match this
      case Some(v) => v
      case None => default
    }
  }

  function Min(a: real, b: real): (m: real)
    ensures m <= a && m <= b && (m == a || m == b)
  {
    if a <= b then a else b
  }

  function Max(a: real, b: real): (m: real)
    ensures a <= m && b <= m && (m == a || m == b)
  {
    if a >= b then a else b
  }

  /** Python's `math.ceil`: the least integer not below `x`. */
  function Ceil(x: real): (n: int)
    ensures x <= n as real < x + 1.0
  {
    if x.Floor as real == x then x.Floor else x.Floor + 1
  }

  /** Python's `int(x)` on a float: truncation toward zero. */
  function Trunc(x: real): (n: int)
    ensures 0.0 <= x ==> 0 <= n && n as real <= x < n as real + 1.0
    ensures x < 0.0 ==> n <= 0 && n as real - 1.0 < x <= n as real
  {
    if x >= 0.0 then x.Floor else -((-x).Floor)
  }

  /** `b ** n` for a natural exponent. */
  function Pow(b: real, n: nat): (p: real)
    ensures b > 0.0 ==> p > 0.0
    ensures 0.0 < b <= 1.0 ==> p <= 1.0
    ensures b >= 1.0 ==> p >= 1.0
    decreases n
  {
    if n == 0 then 1.0
    else
      var q := Pow(b, n - 1);
      assert 0.0 < b <= 1.0 ==> b * q <= 1.0 * q;
      assert b >= 1.0 ==> b * q >= 1.0 * q;
      b * q
  }

  predicate StartsWith(s: string, prefix: string) {
    |prefix| <= |s| && s[..|prefix|] == prefix
  }

  /** Python's `part in s` on strings. */
  predicate Contains(s: string, part: string)
    decreases |s|
  {
    StartsWith(s, part) || (|s| > 0 && Contains(s[1..], part))
  }

  function DigitChar(d: nat): (c: char)
    requires d < 10
    ensures '0' <= c <= '9'
  {
    ['0', '1', '2', '3', '4', '5', '6', '7', '8', '9'][d]
  }

  /** A string made only of decimal digits. */
  predicate IsDigits(s: string) {
    forall i :: 0 <= i < |s| ==> '0' <= s[i] <= '9'
  }

  /** Python's `str(n)` for a non-negative integer: its decimal digits. */
  function NatToString(n: nat): (s: string)
    ensures |s| >= 1
    ensures IsDigits(s)
    decreases n
  {
    if n < 10 then [DigitChar(n)] else NatToString(n / 10) + [DigitChar(n % 10)]
  }

  /** The value of a string of decimal digits. */
  function DigitsValue(s: string): nat
    requires IsDigits(s)
  {
    if s == [] then 0
    else 10 * DigitsValue(s[..|s| - 1]) + (s[|s| - 1] as int - '0' as int)
  }

  lemma {:induction false} NatToStringRoundTrip(n: nat)
    ensures DigitsValue(NatToString(n)) == n
    decreases n
  {
    var s := NatToString(n);
    if n >= 10 {
      NatToStringRoundTrip(n / 10);
      assert s[..|s| - 1] == NatToString(n / 10);
    }
  }

  /** A parsed JSON recommendation: section name to the numeric fields of that section. */
  type Record = map<string, map<string, real>>

  /** `rec.get(section, {}).get(key, 0)`: a missing section or key reads as 0. */
  function Field(rec: Record, section: string, key: string): (v: real)
    ensures (section !in rec || key !in rec[section]) ==> v == 0.0
    ensures section in rec && key in rec[section] ==> v == rec[section][key]
  {
    if section in rec && key in rec[section] then rec[section][key] else 0.0
  }
}
