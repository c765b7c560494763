/** Java language facts the app relies on: null references, fixed-width integer
    casts and overflow, truncating division, and Long.parseLong / Long.toString. */
module JavaLang {

  /** A reference that may be null (None). */
  datatype Option<+T> = None | Some(value: T) {
    function GetOr(default: T): T {
      if Some? then value else default
    }
  }

  /** A java.lang.String reference: None is null. */
  type JString = Option<string>

  const TWO_32: int := 0x1_0000_0000
  const TWO_64: int := 0x1_0000_0000_0000_0000
  const LONG_MIN: int := -0x8000_0000_0000_0000
  const LONG_MAX: int := 0x7FFF_FFFF_FFFF_FFFF

  predicate IsInt(x: int) {
    -0x8000_0000 <= x < 0x8000_0000
  }

  predicate IsLong(x: int) {
    LONG_MIN <= x <= LONG_MAX
  }

  /** The narrowing cast `(int) x` of a long: the low 32 bits, read as two's complement. */
  function ToInt(x: int): (r: int)
    ensures IsInt(r)
    ensures (x - r) % TWO_32 == 0
    ensures IsInt(x) ==> r == x
  {
    var m := x % TWO_32;
    if m < 0x8000_0000 then m else m - TWO_32
  }

  /** A long addition or subtraction whose exact value is x, after wrap-around. */
  function WrapLong(x: int): (r: int)
    ensures IsLong(r)
    ensures (x - r) % TWO_64 == 0
    ensures IsLong(x) ==> r == x
  {
    var m := x % TWO_64;
    if m <= LONG_MAX then m else m - TWO_64
  }

  /** Java's integer `/`, which rounds toward zero (Dafny's `/` is Euclidean). */
  function JavaDiv(a: int, b: int): (q: int)
    requires b > 0
    ensures a >= 0 ==> 0 <= a - q * b < b
    ensures a < 0 ==> -b < a - q * b <= 0
  {
    if a >= 0 then a / b else -((-a) / b)
  }

  /** Java's `String.valueOf` applied inside a string concatenation: null prints as "null". */
  function Show(s: JString): string {
    if s.Some? then s.value else "null"
  }

  predicate IsDigit(c: char) {
    '0' <= c <= '9'
  }

  predicate AllDigits(s: string) {
    forall i :: 0 <= i < |s| ==> IsDigit(s[i])
  }

  /** The value of a string of decimal digits, most significant first. */
  function DigitsValue(s: string): nat
    requires AllDigits(s)
  {
    if s == [] then 0 else DigitsValue(s[..|s| - 1]) * 10 + (s[|s| - 1] as int - '0' as int)
  }

  /** The digits of a numeral: what follows an optional leading sign. */
  function Unsigned(s: string): string
    requires s != []
  {
    if s[0] == '-' || s[0] == '+' then s[1..] else s
  }

  /** The value of digits n under the numeral's leading character. */
  function Signed(lead: char, n: int): int {
    if lead == '-' then -n else n
  }

  /** Long.parseLong on ASCII input: an optional sign, at least one digit, in the long
      range; None is the NumberFormatException. */
  function ParseLong(s: string): (r: Option<int>)
    ensures r.Some? <==>
      s != [] && Unsigned(s) != [] && AllDigits(Unsigned(s)) && IsLong(Signed(s[0], DigitsValue(Unsigned(s))))
    ensures r.Some? ==> r.value == Signed(s[0], DigitsValue(Unsigned(s)))
    ensures r.Some? ==> IsLong(r.value)
    ensures r.Some? ==> s != [] && (IsDigit(s[0]) || (|s| > 1 && (s[0] == '-' || s[0] == '+')))
    ensures r.Some? && s[0] == '-' ==> r.value <= 0
    ensures r.Some? && s[0] != '-' ==> r.value >= 0
  {
    if s == [] then None
    else if s[0] == '-' || s[0] == '+' then
      if |s| == 1 || !AllDigits(s[1..]) then None
      else
        var n: int := DigitsValue(s[1..]);
        var v := if s[0] == '-' then -n else n;
        if IsLong(v) then Some(v) else None
    else if AllDigits(s) && IsLong(DigitsValue(s)) then Some(DigitsValue(s))
    else None
  }

  function DigitChar(d: int): (c: char)
    requires 0 <= d < 10
    ensures IsDigit(c) && c as int - '0' as int == d
  {
    ('0' as int + d) as char
  }

  /** The decimal digits of n without leading zeros. */
  function NatToDigits(n: nat): (s: string)
    ensures s != [] && AllDigits(s)
    ensures DigitsValue(s) == n
    ensures s[0] != '0' || n == 0
  {
    if n < 10 then [DigitChar(n)]
    else
      var prefix := NatToDigits(n / 10);
      var s := prefix + [DigitChar(n % 10)];
      assert s[..|s| - 1] == prefix;
      s
  }

  /** Long.toString / string concatenation of a long. */
  function LongToString(n: int): string {
    if n < 0 then "-" + NatToDigits(-n) else NatToDigits(n)
  }

  /** Printing a long and parsing it back gives the same long. */
  lemma {:induction false} ParseLongRoundTrip(n: int)
    requires IsLong(n)
    ensures ParseLong(LongToString(n)) == Some(n)
  {
    var s := LongToString(n);
    if n < 0 {
      var d := NatToDigits(-n);
      assert s[1..] == d;
      assert s[0] == '-';
    } else {
      assert s == NatToDigits(n);
      assert IsDigit(s[0]);
    }
  }
}
