// The small text helpers of the statistics report (src/stats/report.rs):
// thousands separators, percentages, histogram bars, padding and label
// truncation. The box-drawing report around them is not modelled.
module StatsFormat {
  import opened Wrappers
  import opened Numbers

  function Reverse(s: string): (r: string)
    ensures |r| == |s| && forall k :: 0 <= k < |s| ==> r[k] == s[|s| - 1 - k]
  {
    seq(|s|, k requires 0 <= k < |s| => s[|s| - 1 - k])
  }

  lemma ReverseAppend(a: string, b: string)
    ensures Reverse(a + b) == Reverse(b) + Reverse(a)
  {
    assert forall k :: 0 <= k < |a + b| ==> Reverse(a + b)[k] == (Reverse(b) + Reverse(a))[k];
  }

  lemma ReverseReverse(s: string)
    ensures Reverse(Reverse(s)) == s
  {
  }

  // ------------------------------------------------------------ format_number

  /** What is written before a digit that has `following` digits after it: a comma at every third. */
  function Separator(following: nat): string {
    if following > 0 && following % 3 == 0 then "," else ""
  }

  /** The digits with a comma between every group of three, counted from the right. */
  function Grouped(digits: string): string
    decreases |digits|
  {
    if |digits| == 0 then "" else [digits[0]] + Separator(|digits| - 1) + Grouped(digits[1..])
  }

  /** The characters other than commas, in order. */
  function WithoutCommas(s: string): (r: string)
    ensures forall i :: 0 <= i < |r| ==> r[i] != ','
  {
    if |s| == 0 then "" else (if s[0] == ',' then "" else [s[0]]) + WithoutCommas(s[1..])
  }

  predicate CommaFree(s: string) {
    forall i :: 0 <= i < |s| ==> s[i] != ','
  }

  /** One comma per complete group of three after the first digit. */
  lemma {:induction false} GroupedLength(digits: string)
    ensures |digits| > 0 ==> |Grouped(digits)| == |digits| + (|digits| - 1) / 3
    decreases |digits|
  {
    if |digits| > 1 {
      var rest := digits[1..];
      GroupedLength(rest);
      var m := |rest| / 3;
      assert |rest| == 3 * m + |rest| % 3;
    }
  }

  /** Removing the commas gives the digits back. */
  lemma {:induction false} GroupedUngrouped(digits: string)
    requires CommaFree(digits)
    ensures WithoutCommas(Grouped(digits)) == digits
    decreases |digits|
  {
    if |digits| > 0 {
      var rest := digits[1..];
      var g := Grouped(digits);
      GroupedUngrouped(rest);
      WithoutCommasAppend([digits[0]] + Separator(|rest|), Grouped(rest));
      assert g == [digits[0]] + Separator(|rest|) + Grouped(rest);
      WithoutCommasAppend([digits[0]], Separator(|rest|));
      assert WithoutCommas(Separator(|rest|)) == "";
      assert digits == [digits[0]] + rest;
    }
  }

  lemma {:induction false} WithoutCommasAppend(a: string, b: string)
    ensures WithoutCommas(a + b) == WithoutCommas(a) + WithoutCommas(b)
    decreases |a|
  {
    if |a| > 0 {
      assert (a + b)[1..] == a[1..] + b;
      WithoutCommasAppend(a[1..], b);
    } else {
      assert a + b == b;
    }
  }

  /**
   * Counting from the right (position 1 is the last character), exactly
   * every fourth character is a comma.
   */
  lemma {:induction false} GroupedCommas(digits: string)
    requires CommaFree(digits)
    ensures var g := Grouped(digits);
            forall j :: 1 <= j <= |g| ==> (g[|g| - j] == ',' <==> j % 4 == 0)
    decreases |digits|
  {
    if |digits| > 0 {
      var rest := digits[1..];
      var g, tail := Grouped(digits), Grouped(rest);
      GroupedCommas(rest);
      GroupedLength(rest);
      var sep := Separator(|rest|);
      assert g == [digits[0]] + sep + tail;
      var m := |rest| / 3;
      assert |rest| == 3 * m + |rest| % 3;
      if |rest| == 0 {
        assert |g| == 1;
      } else if |rest| % 3 == 0 {
        assert |tail| == 4 * m - 1 && |g| == 4 * m + 1;
      } else {
        assert |tail| == 4 * m + |rest| % 3 && |g| == |tail| + 1;
      }
      forall j | 1 <= j <= |g| ensures g[|g| - j] == ',' <==> j % 4 == 0 {
        if j <= |tail| {
          assert g[|g| - j] == tail[|tail| - j];
        }
      }
    }
  }

  lemma GroupedStep(s: string, i: nat)
    requires i < |s|
    ensures Grouped(s[|s| - i - 1..]) == [s[|s| - 1 - i]] + Separator(i) + Grouped(s[|s| - i..])
  {
    assert s[|s| - i - 1..][1..] == s[|s| - i..];
  }

  /**
   * `format_number`: the decimal digits, read from the right, with a comma
   * pushed before every third one. The result holds the digits of `n` in
   * order, and exactly every fourth character from the right is a comma.
   */
  method FormatNumber(n: nat) returns (r: string)
    ensures r == Grouped(NatToString(n))
    ensures WithoutCommas(r) == NatToString(n)
    ensures forall j :: 1 <= j <= |r| ==> (r[|r| - j] == ',' <==> j % 4 == 0)
  {
    var s := NatToString(n);
    var result := PushGroups(s);
    r := Reverse(result);
    assert r == Grouped(s) by {
      ReverseReverse(Grouped(s));
    }
    assert CommaFree(s) by {
      assert forall i :: 0 <= i < |s| ==> IsDigit(s[i]);
    }
    assert WithoutCommas(r) == s by {
      GroupedUngrouped(s);
    }
    GroupedCommas(s);
  }

  /** The loop of `format_number`: the characters from the right, a comma before every third. */
  method PushGroups(s: string) returns (result: string)
    ensures result == Reverse(Grouped(s))
  {
    result := "";
    assert s[|s| - 0..] == "";
    for i := 0 to |s|
      invariant result == Reverse(Grouped(s[|s| - i..]))
    {
      var c := s[|s| - 1 - i];
      PushStep(s, i, result);
      if i > 0 && i % 3 == 0 {
        result := result + ",";
      }
      result := result + [c];
    }
    assert s[|s| - |s|..] == s;
  }

  lemma PushStep(s: string, i: nat, result: string)
    requires i < |s| && result == Reverse(Grouped(s[|s| - i..]))
    ensures Reverse(Grouped(s[|s| - i - 1..])) == result + Separator(i) + [s[|s| - 1 - i]]
  {
    var c := s[|s| - 1 - i];
    GroupedStep(s, i);
    ReverseAppend([c] + Separator(i), Grouped(s[|s| - i..]));
    ReverseAppend([c], Separator(i));
    assert Reverse(Separator(i)) == Separator(i);
  }

  // ------------------------------------------------------------ fmt_percent

  /** A percentage, or `n/a` for a zero denominator. */
  datatype Percent = NotApplicable | Percent(value: real)

  /** `fmt_percent`: `n/a` exactly for a zero denominator, else the share of the numerator in percent. */
  function FmtPercent(numerator: nat, denominator: nat): (r: Percent)
    ensures r.NotApplicable? <==> denominator == 0
    ensures r.Percent? ==> r.value * denominator as real == 100.0 * numerator as real
    ensures r.Percent? && numerator <= denominator ==> 0.0 <= r.value <= 100.0
  {
    if denominator == 0 then NotApplicable
    else Percent((numerator as real / denominator as real) * 100.0)
  }

  /**
   * The `{:.1}` rendering of the exact percentage in tenths of a percent:
   * `1000 * numerator / denominator` rounded to the nearest integer, ties to even.
   */
  function PercentTenths(numerator: nat, denominator: nat): (t: nat)
    requires denominator > 0
    ensures t == 1000 * numerator / denominator || t == 1000 * numerator / denominator + 1
  {
    var q := 1000 * numerator / denominator;
    var rem := 1000 * numerator % denominator;
    if 2 * rem > denominator || (2 * rem == denominator && q % 2 == 1) then q + 1 else q
  }

  /** The rounded number of tenths is off by at most half a tenth: `|t * d - 1000 * n| <= d / 2`. */
  lemma PercentTenthsError(numerator: nat, denominator: nat)
    requires denominator > 0
    ensures var e: int := PercentTenths(numerator, denominator) * denominator - 1000 * numerator;
            -(denominator as int) <= 2 * e <= denominator
  {
    var x, d := 1000 * numerator, denominator;
    var q, rem := x / d, x % d;
    assert x == q * d + rem;
    assert (q + 1) * d == q * d + d;
  }

  /** No other number of tenths is closer to the exact percentage. */
  lemma PercentTenthsNearest(numerator: nat, denominator: nat, u: int)
    requires denominator > 0
    ensures var t := PercentTenths(numerator, denominator);
            var e: int := t * denominator - 1000 * numerator;
            var f: int := u * denominator - 1000 * numerator;
            (if e < 0 then -e else e) <= (if f < 0 then -f else f)
  {
    var t, d, x := PercentTenths(numerator, denominator), denominator, 1000 * numerator;
    PercentTenthsError(numerator, denominator);
    if u > t {
      var k := u - t;
      assert u * d == t * d + k * d;
      MulLe(1, k, d);
    } else if u < t {
      var k := t - u;
      assert t * d == u * d + k * d;
      MulLe(1, k, d);
    }
  }

  /** A share of at most the whole renders as at most `100.0`. */
  lemma PercentTenthsBound(numerator: nat, denominator: nat)
    requires 0 < denominator && numerator <= denominator
    ensures PercentTenths(numerator, denominator) <= 1000
  {
    var t := PercentTenths(numerator, denominator);
    PercentTenthsError(numerator, denominator);
    MulLe(numerator, denominator, 1000);
    if t > 1000 {
      MulLe(1001, t, denominator);
    }
  }

  /** `fmt_percent`'s text: `n/a`, or the rounded percentage with one decimal and a `%` sign. */
  function FmtPercentText(numerator: nat, denominator: nat): (r: string)
    ensures r == "n/a" <==> denominator == 0
    ensures denominator > 0 ==> |r| >= 4 && r[|r| - 1] == '%' && r[|r| - 3] == '.'
  {
    if denominator == 0 then "n/a"
    else
      var t := PercentTenths(numerator, denominator);
      NatToString(t / 10) + "." + [DigitChar(t % 10)] + "%"
  }

  /** `a` lies within `0.05` of zero when `20 * a * d` lies within `d` of zero, for positive `d`. */
  lemma ScaledBound(a: real, d: real, x: real)
    requires d > 0.0 && x == 20.0 * a * d && -d <= x <= d
    ensures -0.05 <= a <= 0.05
  {
  }

  /** The rendered value is within half a tenth of the exact percentage. */
  lemma PercentTextWithin(numerator: nat, denominator: nat)
    requires denominator > 0
    ensures var shown := PercentTenths(numerator, denominator) as real / 10.0;
            var exact := FmtPercent(numerator, denominator).value;
            -0.05 <= shown - exact <= 0.05
  {
    var t := PercentTenths(numerator, denominator);
    var shown := t as real / 10.0;
    var exact := FmtPercent(numerator, denominator).value;
    var d := denominator as real;
    PercentTenthsError(numerator, denominator);
    var e: int := t * denominator - 1000 * numerator;
    var a := shown - exact;
    assert shown * 10.0 == t as real;
    assert exact * d == 100.0 * numerator as real;
    assert 20.0 * a * d == 20.0 * shown * d - 20.0 * exact * d;
    assert 20.0 * shown * d == 2.0 * (t as real * d);
    assert t as real * d == (t * denominator) as real;
    assert 20.0 * a * d == 2.0 * e as real;
    assert -(denominator as int) <= 2 * e <= denominator;
    assert -d <= (2 * e) as real <= d;
    ScaledBound(a, d, (2 * e) as real);
  }

  // ------------------------------------------------------------ render_bar, pad_bar

  const FULL_CELL: char := '\U{2588}'
  const EMPTY_CELL: char := '\U{2591}'

  function Repeat(c: char, n: nat): (r: string)
    ensures |r| == n && forall i :: 0 <= i < n ==> r[i] == c
  {
    seq(n, _ => c)
  }

  function Min(a: nat, b: nat): nat {
    if a <= b then a else b
  }

  /** Below `x / m` exactly when the next cell's share still fits in `x`. */
  lemma DivCells(i: nat, x: nat, m: nat)
    requires m > 0
    ensures i < x / m <==> (i + 1) * m <= x
  {
    var q := x / m;
    assert x == q * m + x % m;
    if i < q {
      assert (i + 1) * m <= q * m;
    } else {
      assert (i + 1) * m >= (q + 1) * m == q * m + m;
    }
  }

  /**
   * `render_bar`: empty for a zero maximum or width; otherwise `width`
   * cells, cell `i` filled exactly when `count` reaches its share
   * `(i + 1) / width` of `max_count`, the rest light.
   */
  function RenderBar(count: nat, maxCount: nat, width: nat): (r: string)
    ensures maxCount == 0 || width == 0 ==> r == ""
    ensures maxCount > 0 && width > 0 ==> |r| == width
    ensures maxCount > 0 ==> forall i :: 0 <= i < |r| ==>
              && (r[i] == FULL_CELL <==> (i + 1) * maxCount <= count * width)
              && (r[i] == FULL_CELL || r[i] == EMPTY_CELL)
  {
    if maxCount == 0 || width == 0 then ""
    else
      var filled := Min(count * width / maxCount, width);
      var r := Repeat(FULL_CELL, filled) + Repeat(EMPTY_CELL, width - filled);
      assert forall i :: 0 <= i < width ==> (r[i] == FULL_CELL <==> (i + 1) * maxCount <= count * width) by {
        forall i | 0 <= i < width ensures r[i] == FULL_CELL <==> (i + 1) * maxCount <= count * width {
          DivCells(i, count * width, maxCount);
        }
      }
      r
  }

  /** A count at the maximum fills the bar; a zero count fills no cell. */
  lemma {:induction false} BarExtremes(count: nat, maxCount: nat, width: nat)
    requires maxCount > 0 && width > 0
    ensures count >= maxCount ==> RenderBar(count, maxCount, width) == Repeat(FULL_CELL, width)
    ensures count == 0 ==> RenderBar(count, maxCount, width) == Repeat(EMPTY_CELL, width)
  {
    var r := RenderBar(count, maxCount, width);
    if count >= maxCount {
      forall i | 0 <= i < width ensures r[i] == FULL_CELL {
        MulLe(i + 1, width, maxCount);
        MulLe(maxCount, count, width);
      }
    }
    if count == 0 {
      forall i | 0 <= i < width ensures r[i] == EMPTY_CELL {
        MulLe(1, i + 1, maxCount);
      }
    }
  }

  lemma MulLe(a: nat, b: nat, c: nat)
    requires a <= b
    ensures a * c <= b * c
  {
  }

  /** A larger count fills every cell a smaller one fills. */
  lemma BarMonotone(c1: nat, c2: nat, maxCount: nat, width: nat)
    requires c1 <= c2 && maxCount > 0
    ensures var b1, b2 := RenderBar(c1, maxCount, width), RenderBar(c2, maxCount, width);
            |b1| == |b2| && forall i :: 0 <= i < |b1| && b1[i] == FULL_CELL ==> b2[i] == FULL_CELL
  {
    assert c1 * width <= c2 * width;
  }

  /** `pad_bar`: the bar followed by spaces up to `width + 2` characters, or the bar alone when it is already that long. */
  function PadBar(bar: string, width: nat): (r: string)
    ensures |r| == if |bar| < width + 2 then width + 2 else |bar|
    ensures r[..|bar|] == bar && forall i :: |bar| <= i < |r| ==> r[i] == ' '
  {
    bar + Repeat(' ', if |bar| < width + 2 then width + 2 - |bar| else 0)
  }

  /** Every rendered bar pads to the same column width. */
  lemma PaddedBarWidth(count: nat, maxCount: nat, width: nat)
    ensures |PadBar(RenderBar(count, maxCount, width), width)| == width + 2
  {
  }

  // ------------------------------------------------------------ truncate_label

  const ELLIPSIS: char := '\U{2026}'

  /** The length of `c` in UTF-8. */
  function CharBytes(c: char): (n: nat)
    ensures 1 <= n <= 4
  {
    if c as int < 0x80 then 1 else if c as int < 0x800 then 2 else if c as int < 0x1_0000 then 3 else 4
  }

  /** `str::len`: the length of `s` in UTF-8 bytes. */
  function ByteLen(s: string): nat {
    if |s| == 0 then 0 else CharBytes(s[0]) + ByteLen(s[1..])
  }

  /** How many leading characters fit, whole, in `budget` bytes. */
  function CharsWithin(s: string, budget: nat): (k: nat)
    ensures k <= |s| && ByteLen(s[..k]) <= budget
    ensures k < |s| ==> ByteLen(s[..k + 1]) > budget
  {
    if |s| == 0 || CharBytes(s[0]) > budget then
      assert |s| > 0 ==> s[..1][1..] == [];
      0
    else
      var k := CharsWithin(s[1..], budget - CharBytes(s[0]));
      assert s[..k + 1][1..] == s[1..][..k];
      assert k + 1 < |s| ==> s[..k + 2][1..] == s[1..][..k + 1];
      k + 1
  }

  /** Byte `b` starts a character of `s` or ends `s`: `str::is_char_boundary`. */
  predicate IsCharBoundary(s: string, b: nat) {
    ByteLen(s[..CharsWithin(s, b)]) == b
  }

  /** Why `truncate_label` as written can panic. */
  datatype Panic = LengthUnderflow | NotCharBoundary

  /**
   * `truncate_label` as written: the test is on the byte length, and the
   * cut `&label[..max_len - 1]` is a byte slice, which panics when that byte
   * falls inside a character (and `max_len - 1` underflows for 0).
   */
  function TruncateLabelAsWritten(name: string, maxLen: nat): (r: Result<string, Panic>)
    ensures ByteLen(name) <= maxLen ==> r == Ok(name)
    ensures ByteLen(name) > maxLen && maxLen >= 1 ==> (r.Ok? <==> IsCharBoundary(name, maxLen - 1))
    ensures ByteLen(name) > maxLen && maxLen == 0 ==> r == Err(LengthUnderflow)
  {
    if ByteLen(name) <= maxLen then Ok(name)
    else if maxLen == 0 then Err(LengthUnderflow)
    else
      var k := CharsWithin(name, maxLen - 1);
      if ByteLen(name[..k]) == maxLen - 1 then Ok(name[..k] + [ELLIPSIS]) else Err(NotCharBoundary)
  }

  /** Every character takes two bytes. */
  predicate TwoByteChars(s: string) {
    forall i :: 0 <= i < |s| ==> 0x80 <= s[i] as int < 0x800
  }

  lemma {:induction false} TwoByteLen(s: string)
    requires TwoByteChars(s)
    ensures ByteLen(s) == 2 * |s|
  {
    if |s| > 0 {
      TwoByteLen(s[1..]);
    }
  }

  /**
   * A label of two-byte characters (such as `é`) that is too long panics
   * whenever `max_len - 1` is odd: every character boundary is even.
   */
  lemma TwoBytePanics(name: string, maxLen: nat)
    requires TwoByteChars(name) && 2 * |name| > maxLen && maxLen >= 1 && (maxLen - 1) % 2 == 1
    ensures TruncateLabelAsWritten(name, maxLen) == Err(NotCharBoundary)
  {
    TwoByteLen(name);
    var k := CharsWithin(name, maxLen - 1);
    assert TwoByteChars(name[..k]);
    TwoByteLen(name[..k]);
  }

  /** The label `ééééééééé` (18 bytes) at `max_len = 16` panics. */
  lemma TruncateLabelPanics()
    ensures TruncateLabelAsWritten("\U{E9}\U{E9}\U{E9}\U{E9}\U{E9}\U{E9}\U{E9}\U{E9}\U{E9}", 16) == Err(NotCharBoundary)
  {
    var name := "\U{E9}\U{E9}\U{E9}\U{E9}\U{E9}\U{E9}\U{E9}\U{E9}\U{E9}";
    assert TwoByteChars(name);
    TwoBytePanics(name, 16);
  }

  /**
   * `truncate_label` cut at a character boundary: a label within `max_len`
   * bytes is kept; a longer one keeps the longest run of whole leading
   * characters that fits in `max_len - 1` bytes, followed by an ellipsis.
   */
  function TruncateLabel(name: string, maxLen: nat): (r: string)
    ensures ByteLen(name) <= maxLen ==> r == name
    ensures ByteLen(name) > maxLen ==>
              && |r| >= 1 && r[|r| - 1] == ELLIPSIS && |r| - 1 <= |name| && r[..|r| - 1] == name[..|r| - 1]
              && ByteLen(r[..|r| - 1]) < (if maxLen == 0 then 1 else maxLen)
              && (|r| - 1 < |name| ==> ByteLen(name[..|r|]) >= maxLen)
  {
    if ByteLen(name) <= maxLen then name
    else
      var k := CharsWithin(name, if maxLen == 0 then 0 else maxLen - 1);
      var r := name[..k] + [ELLIPSIS];
      assert r[..|r| - 1] == name[..k];
      r
  }

  /** Wherever the source does not panic, it gives the same label as the boundary-safe cut. */
  lemma TruncateLabelAgrees(name: string, maxLen: nat)
    ensures TruncateLabelAsWritten(name, maxLen).Ok? ==> TruncateLabelAsWritten(name, maxLen).value == TruncateLabel(name, maxLen)
  {
  }

  /** Every character is one byte in UTF-8. */
  predicate Ascii(s: string) {
    forall i :: 0 <= i < |s| ==> s[i] as int < 0x80
  }

  lemma {:induction false} AsciiByteLen(s: string)
    requires Ascii(s)
    ensures ByteLen(s) == |s|
  {
    if |s| > 0 {
      AsciiByteLen(s[1..]);
    }
  }

  /** On an ASCII label the cut keeps `max_len - 1` characters, so the label shown has at most `max_len` characters. */
  lemma AsciiTruncation(name: string, maxLen: nat)
    requires Ascii(name) && maxLen >= 1
    ensures |TruncateLabel(name, maxLen)| == Min(|name|, maxLen)
    ensures TruncateLabelAsWritten(name, maxLen) == Ok(TruncateLabel(name, maxLen))
  {
    AsciiByteLen(name);
    if |name| > maxLen {
      var k := CharsWithin(name, maxLen - 1);
      assert Ascii(name[..k]);
      AsciiByteLen(name[..k]);
      if k < maxLen - 1 {
        assert Ascii(name[..k + 1]);
        AsciiByteLen(name[..k + 1]);
      }
    }
  }
}
