/**
 * Decimal integers as the Rust code reads and writes them: `str::parse::<u32>()` and
 * `str::parse::<i32>()` (a left-to-right digit loop with an optional sign and an overflow
 * check), `Display` for `u32`/`i32`, and the zero-padded form of width `02`.
 */
module Numbers {
  import opened Wrappers

  const U32_MAX: int := 0xFFFF_FFFF
  const I32_MIN: int := -0x8000_0000
  const I32_MAX: int := 0x7FFF_FFFF

  /** Rust's `u32` and `i32` as ranges of the unbounded integers. */
  type U32 = x: int | 0 <= x <= U32_MAX
  type I32 = x: int | I32_MIN <= x <= I32_MAX

  /** The kind carried by Rust's `ParseIntError`. */
  datatype IntErrorKind = Empty | InvalidDigit | PosOverflow | NegOverflow

  predicate IsDigit(c: char)
  {
    '0' <= c <= '9'
  }

  predicate AllDigits(s: string)
  {
    forall i :: 0 <= i < |s| ==> IsDigit(s[i])
  }

  function DigitValue(c: char): (d: nat)
    requires IsDigit(c)
    ensures d < 10
  {
    (c as int) - ('0' as int)
  }

  function DigitChar(d: nat): (c: char)
    requires d < 10
    ensures IsDigit(c) && DigitValue(c) == d
  {
    ('0' as int + d) as char
  }

  /** The number written by the digits `s` after the already-read value `acc`, most significant first. */
  function ValueFrom(acc: nat, s: string): nat
    requires AllDigits(s)
    decreases |s|
  {
    if s == [] then acc else ValueFrom(acc * 10 + DigitValue(s[0]), s[1..])
  }

  /** The number a string of decimal digits stands for. */
  function DigitsValue(s: string): nat
    requires AllDigits(s)
  {
    ValueFrom(0, s)
  }

  /** Reading more digits never makes the number smaller. */
  lemma {:induction false} ValueFromGrows(acc: nat, s: string)
    ensures AllDigits(s) ==> acc <= ValueFrom(acc, s)
    decreases |s|
  {
    if s != [] && AllDigits(s) {
      ValueFromGrows(acc * 10 + DigitValue(s[0]), s[1..]);
    }
  }

  /** Appending one digit multiplies the value by ten and adds the digit. */
  lemma {:induction false} ValueFromAppend(acc: nat, s: string, c: char)
    requires AllDigits(s) && IsDigit(c)
    ensures AllDigits(s + [c])
    ensures ValueFrom(acc, s + [c]) == ValueFrom(acc, s) * 10 + DigitValue(c)
    decreases |s|
  {
    if s != [] {
      assert (s + [c])[1..] == s[1..] + [c];
      ValueFromAppend(acc * 10 + DigitValue(s[0]), s[1..], c);
    }
  }

  /** Leading zeros do not change the value. */
  lemma LeadingZero(s: string)
    requires AllDigits(s)
    ensures AllDigits("0" + s) && DigitsValue("0" + s) == DigitsValue(s)
  {
    assert ("0" + s)[1..] == s;
  }

  /**
   * The digit loop of Rust's `from_str_radix` on the digits after the sign: it stops with
   * `InvalidDigit` at the first non-digit, and with `overflow` as soon as the value read so
   * far exceeds `limit`.
   */
  function Accumulate(digits: string, acc: nat, limit: nat, overflow: IntErrorKind): (r: Result<nat, IntErrorKind>)
    requires acc <= limit
    ensures r.Ok? <==> AllDigits(digits) && ValueFrom(acc, digits) <= limit
    ensures r.Ok? ==> r.value == ValueFrom(acc, digits)
    ensures r.Err? && AllDigits(digits) ==> r.error == overflow
    ensures r.Err? ==> r.error == InvalidDigit || r.error == overflow
    decreases |digits|
  {
    if digits == [] then Ok(acc)
    else if !IsDigit(digits[0]) then Err(InvalidDigit)
    else
      var next := acc * 10 + DigitValue(digits[0]);
      if next > limit then
        ValueFromGrows(next, digits[1..]);
        Err(overflow)
      else
        Accumulate(digits[1..], next, limit, overflow)
  }

  /**
   * Rust's `str::parse` for a fixed-width integer with range `min..=max`: an empty text is
   * `Empty`; a lone sign is `InvalidDigit`; a leading `+` is skipped; a leading `-` is skipped
   * (and the value negated) only for a signed type, and is otherwise an invalid digit.
   */
  function ParseInt(s: string, signed: bool, min: int, max: int): (r: Result<int, IntErrorKind>)
    requires min <= 0 <= max
    ensures r.Ok? ==> min <= r.value <= max
  {
    if s == [] then Err(Empty)
    else if (s[0] == '+' || s[0] == '-') && |s| == 1 then Err(InvalidDigit)
    else if s[0] == '+' then Accumulate(s[1..], 0, max, PosOverflow)
    else if s[0] == '-' && signed then
      match Accumulate(s[1..], 0, -min, NegOverflow)
      case Ok(v) => Ok(-(v as int))
      case Err(e) => Err(e)
    else Accumulate(s, 0, max, PosOverflow)
  }

  /** The digits of an unsigned number: the text with one leading `+` dropped. */
  function UnsignedDigits(s: string): string
  {
    if |s| > 0 && s[0] == '+' then s[1..] else s
  }

  /** `s.parse::<u32>()`: succeeds exactly on an optional `+` followed by digits whose value fits. */
  function ParseU32(s: string): (r: Result<U32, IntErrorKind>)
    ensures r.Ok? <==> (var d := UnsignedDigits(s); d != [] && AllDigits(d) && DigitsValue(d) <= U32_MAX)
    ensures r.Ok? ==> r.value == DigitsValue(UnsignedDigits(s))
    ensures s == [] <==> r == Err(Empty)
  {
    match ParseInt(s, false, 0, U32_MAX)
    case Ok(v) => Ok(v)
    case Err(e) => Err(e)
  }

  /** `s.parse::<i32>()`: succeeds exactly on an optional sign followed by digits whose signed value fits. */
  function ParseI32(s: string): (r: Result<I32, IntErrorKind>)
    ensures r.Ok? <==>
      if |s| > 1 && s[0] == '-' then AllDigits(s[1..]) && DigitsValue(s[1..]) <= -I32_MIN
      else var d := UnsignedDigits(s); d != [] && AllDigits(d) && DigitsValue(d) <= I32_MAX
    ensures r.Ok? ==> r.value == if s[0] == '-' then -(DigitsValue(s[1..]) as int) else DigitsValue(UnsignedDigits(s))
    ensures s == [] <==> r == Err(Empty)
  {
    match ParseInt(s, true, I32_MIN, I32_MAX)
    case Ok(v) => Ok(v)
    case Err(e) => Err(e)
  }

  /** `Display` for an unsigned number: its decimal digits, most significant first. */
  function FormatNat(n: nat): string
    decreases n
  {
    if n < 10 then [DigitChar(n)] else FormatNat(n / 10) + [DigitChar(n % 10)]
  }

  /** `FormatNat` writes digits that stand for `n`, without leading zeros; one digit exactly below ten. */
  lemma {:induction false} FormatNatDigits(n: nat)
    ensures var r := FormatNat(n);
      && r != [] && AllDigits(r) && DigitsValue(r) == n
      && (r[0] == '0' ==> r == "0")
      && (n < 10 <==> |r| == 1)
    decreases n
  {
    if n < 10 {
      var r := [DigitChar(n)];
      assert r[1..] == [] && DigitsValue(r) == ValueFrom(n, []);
    } else {
      FormatNatDigits(n / 10);
      var front := FormatNat(n / 10);
      ValueFromAppend(0, front, DigitChar(n % 10));
      assert (front + [DigitChar(n % 10)])[0] == front[0];
    }
  }

  /** `Display` for a signed number (`i32::to_string`, `format!("{}", year)`). */
  function FormatInt(x: int): string
  {
    if x < 0 then "-" + FormatNat(-x) else FormatNat(x)
  }

  /** `format!` with width `02`: the decimal digits, with a leading zero added when there is only one. */
  function Pad2(n: nat): string
  {
    var digits := FormatNat(n);
    if |digits| < 2 then "0" + digits else digits
  }

  /** A field with width `02` has at least two digits and stands for `n`; below ten it is a zero and the digit. */
  lemma Pad2Digits(n: nat)
    ensures var r := Pad2(n); |r| >= 2 && AllDigits(r) && DigitsValue(r) == n
    ensures n < 10 ==> Pad2(n) == "0" + FormatNat(n) && |Pad2(n)| == 2
    ensures n >= 10 ==> Pad2(n) == FormatNat(n)
  {
    FormatNatDigits(n);
    if n < 10 {
      LeadingZero(FormatNat(n));
    }
  }

  /** Reading back what `Display` wrote gives the same `u32`. */
  lemma ParseFormatU32(n: U32)
    ensures ParseU32(FormatNat(n)) == Ok(n)
  {
    FormatNatDigits(n);
  }

  /** Reading back what `Display` wrote gives the same `i32`. */
  lemma ParseFormatI32(x: I32)
    ensures ParseI32(FormatInt(x)) == Ok(x)
  {
    var r := FormatInt(x);
    if x < 0 {
      var m: nat := -(x as int);
      var digits := FormatNat(m);
      FormatNatDigits(m);
      assert r == "-" + digits && r[1..] == digits && |r| > 1;
    } else {
      FormatNatDigits(x);
      assert r == FormatNat(x) && IsDigit(r[0]);
      assert UnsignedDigits(r) == r;
    }
  }

  /** Reading back a field with width `02` gives the same `u32`. */
  lemma ParsePad2(n: U32)
    ensures ParseU32(Pad2(n)) == Ok(n)
  {
    Pad2Digits(n);
    assert Pad2(n)[0] != '+';
  }

  /** Different numbers are written differently. */
  lemma FormatIntInjective(x: I32, y: I32)
    requires FormatInt(x) == FormatInt(y)
    ensures x == y
  {
    ParseFormatI32(x);
    ParseFormatI32(y);
  }

  /** Different numbers are written differently. */
  lemma FormatNatInjective(x: nat, y: nat)
    requires FormatNat(x) == FormatNat(y)
    ensures x == y
  {
    FormatNatDigits(x);
    FormatNatDigits(y);
  }
}
