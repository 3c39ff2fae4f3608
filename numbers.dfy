// Rust's integer `FromStr` (an optional sign, then at least one ASCII digit,
// with an overflow error above the type's range) and decimal `to_string`.
module Numbers {
  import opened Wrappers

  const U8_MAX: nat := 0xFF
  const U32_MAX: nat := 0xFFFF_FFFF
  const U64_MAX: nat := 0xFFFF_FFFF_FFFF_FFFF
  const I32_MIN: int := -0x8000_0000
  const I32_MAX: int := 0x7FFF_FFFF
  const I64_MIN: int := -0x8000_0000_0000_0000
  const I64_MAX: int := 0x7FFF_FFFF_FFFF_FFFF

  predicate IsDigit(c: char) {
    '0' <= c <= '9'
  }

  predicate AllDigits(s: string) {
    forall k :: 0 <= k < |s| ==> IsDigit(s[k])
  }

  function DigitChar(d: nat): (c: char)
    requires d < 10
    ensures IsDigit(c) && c as int - '0' as int == d
  {
    ('0' as int + d) as char
  }

  /** The value of a string of decimal digits, most significant first. */
  function DigitsValue(s: string): nat
    requires AllDigits(s)
  {
    if |s| == 0 then 0 else DigitsValue(s[..|s| - 1]) * 10 + (s[|s| - 1] as int - '0' as int)
  }

  /** The magnitude part of `FromStr`: non-empty, digits only. */
  function ParseDigits(s: string): (r: Option<nat>)
    ensures r.Some? <==> |s| > 0 && AllDigits(s)
  {
    if |s| > 0 && AllDigits(s) then Some(DigitsValue(s)) else None
  }

  /**
   * `<uN as FromStr>::from_str` for an unsigned type whose largest value is
   * `max`: a lone sign is invalid, a leading '+' is allowed, '-' is not.
   */
  function ParseUnsigned(s: string, max: nat): (r: Option<nat>)
    ensures r.Some? ==> r.value <= max
    ensures r.Some? ==> |s| > 0 && (s[0] == '+' || IsDigit(s[0]))
  {
    var digits := if |s| > 0 && s[0] == '+' then s[1..] else s;
    match ParseDigits(digits)
    case Some(v) => if v <= max then Some(v) else None
    case None => None
  }

  /** `<iN as FromStr>::from_str` for a signed type with range `min..=max`. */
  function ParseSigned(s: string, min: int, max: int): (r: Option<int>)
    requires min <= 0 <= max
    ensures r.Some? ==> min <= r.value <= max
    ensures r.Some? ==> |s| > 0 && (r.value < 0 ==> s[0] == '-')
  {
    if |s| > 0 && s[0] == '-' then
      match ParseDigits(s[1..])
      case Some(v) => if min <= -(v as int) then Some(-(v as int)) else None
      case None => None
    else
      var digits := if |s| > 0 && s[0] == '+' then s[1..] else s;
      match ParseDigits(digits)
      case Some(v) => if v <= max then Some(v) else None
      case None => None
  }

  function ParseU8(s: string): Option<nat> { ParseUnsigned(s, U8_MAX) }
  function ParseU32(s: string): Option<nat> { ParseUnsigned(s, U32_MAX) }
  function ParseU64(s: string): Option<nat> { ParseUnsigned(s, U64_MAX) }
  function ParseI32(s: string): Option<int> { ParseSigned(s, I32_MIN, I32_MAX) }
  function ParseI64(s: string): Option<int> { ParseSigned(s, I64_MIN, I64_MAX) }

  /** Decimal rendering of a natural number (`u64::to_string`), without leading zeros. */
  function NatToString(n: nat): (s: string)
    ensures |s| > 0 && AllDigits(s)
    ensures |s| > 1 ==> s[0] != '0'
  {
    if n < 10 then [DigitChar(n)] else NatToString(n / 10) + [DigitChar(n % 10)]
  }

  /** Decimal rendering of an integer (`i32::to_string`, `i64::to_string`). */
  function IntToString(i: int): (s: string)
    ensures |s| > 0
    ensures i < 0 <==> s[0] == '-'
  {
    if i < 0 then "-" + NatToString(-i) else NatToString(i)
  }

  lemma {:induction false} DigitsValueOfNatToString(n: nat)
    ensures DigitsValue(NatToString(n)) == n
  {
    var s := NatToString(n);
    if n >= 10 {
      assert s[..|s| - 1] == NatToString(n / 10);
      DigitsValueOfNatToString(n / 10);
    }
  }

  /** Printing then parsing a value in range gives the value back. */
  lemma ParseUnsignedNatToString(n: nat, max: nat)
    requires n <= max
    ensures ParseUnsigned(NatToString(n), max) == Some(n)
  {
    DigitsValueOfNatToString(n);
  }

  lemma ParseSignedIntToString(i: int, min: int, max: int)
    requires min <= 0 <= max && min <= i <= max
    ensures ParseSigned(IntToString(i), min, max) == Some(i)
  {
    if i < 0 {
      var n := NatToString(-i);
      assert IntToString(i)[1..] == n;
      DigitsValueOfNatToString(-i);
      assert ParseDigits(n) == Some(-i);
    } else {
      var n := NatToString(i);
      DigitsValueOfNatToString(i);
      assert ParseDigits(n) == Some(i);
      assert IsDigit(n[0]);
    }
  }

  /** Distinct numbers print differently. */
  lemma NatToStringInjective(a: nat, b: nat)
    requires NatToString(a) == NatToString(b)
    ensures a == b
  {
    DigitsValueOfNatToString(a);
    DigitsValueOfNatToString(b);
  }
}
