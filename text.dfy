// String helpers with the semantics of Rust's `str` methods that the
// converters rely on: `trim` (Unicode White_Space), `split`,
// `split_whitespace`, `to_ascii_lowercase`, `eq_ignore_ascii_case`,
// `starts_with`/`ends_with` and `replace`.
module Text {
  /** The Unicode White_Space property, as used by `str::trim`. */
  predicate IsWhitespace(c: char) {
    ('\t' <= c <= '\r') || c == ' ' || c == '\U{85}' || c == '\U{A0}' || c == '\U{1680}'
    || ('\U{2000}' <= c <= '\U{200A}') || c == '\U{2028}' || c == '\U{2029}'
    || c == '\U{202F}' || c == '\U{205F}' || c == '\U{3000}'
  }

  predicate AllWhitespace(s: string) {
    forall k :: 0 <= k < |s| ==> IsWhitespace(s[k])
  }

  /** The number of leading white-space characters. */
  function LeadingBlanks(s: string): (n: nat)
    ensures n <= |s|
    ensures forall k :: 0 <= k < n ==> IsWhitespace(s[k])
    ensures n < |s| ==> !IsWhitespace(s[n])
  {
    if |s| > 0 && IsWhitespace(s[0]) then 1 + LeadingBlanks(s[1..]) else 0
  }

  /** Where the trailing white space of `s` begins. */
  function TrailingBlanksStart(s: string): (n: nat)
    ensures n <= |s|
    ensures forall k :: n <= k < |s| ==> IsWhitespace(s[k])
    ensures n > 0 ==> !IsWhitespace(s[n - 1])
  {
    if |s| > 0 && IsWhitespace(s[|s| - 1]) then TrailingBlanksStart(s[..|s| - 1]) else |s|
  }

  /** `str::trim_start`: the suffix left after dropping leading white space. */
  function TrimStart(s: string): (r: string)
    ensures |r| <= |s|
    ensures |r| > 0 ==> !IsWhitespace(r[0])
  {
    s[LeadingBlanks(s)..]
  }

  /** `str::trim_end`: the prefix left after dropping trailing white space. */
  function TrimEnd(s: string): (r: string)
    ensures |r| <= |s|
    ensures |r| > 0 ==> !IsWhitespace(r[|r| - 1])
  {
    s[..TrailingBlanksStart(s)]
  }

  /** `r` is the slice of `s` starting at `i`, with only white space around it. */
  predicate StrippedAt(s: string, i: int, r: string) {
    0 <= i <= |s| - |r| && r == s[i..i + |r|]
    && (forall k :: 0 <= k < i ==> IsWhitespace(s[k]))
    && (forall k :: i + |r| <= k < |s| ==> IsWhitespace(s[k]))
  }

  /** `str::trim`: white space stripped at both ends. */
  function Trim(s: string): string {
    TrimEnd(TrimStart(s))
  }

  /** `Trim` leaves a contiguous slice of `s`, only white space around it, with non-blank ends. */
  lemma TrimStrips(s: string)
    ensures exists i :: StrippedAt(s, i, Trim(s))
    ensures var r := Trim(s); |r| > 0 ==> !IsWhitespace(r[0]) && !IsWhitespace(r[|r| - 1])
  {
    TrimmedSlice(s);
    TrimmedTail(s);
    assert StrippedAt(s, LeadingBlanks(s), Trim(s));
  }

  lemma TrimmedSlice(s: string)
    ensures var i, r := LeadingBlanks(s), TrimEnd(TrimStart(s));
      r == s[i..i + |r|] && (|r| > 0 ==> r[0] == s[i])
  {
    var i := LeadingBlanks(s);
    var t := s[i..];
    var r := t[..TrailingBlanksStart(t)];
    assert r == s[i..i + |r|];
  }

  lemma TrimmedTail(s: string)
    ensures var i, r := LeadingBlanks(s), TrimEnd(TrimStart(s));
      forall k :: i + |r| <= k < |s| ==> IsWhitespace(s[k])
  {
    var i := LeadingBlanks(s);
    var t := s[i..];
    var j := TrailingBlanksStart(t);
    forall k | i + j <= k < |s| ensures IsWhitespace(s[k]) {
      assert s[k] == t[k - i];
    }
  }

  /** A string that `trim` maps to "" (empty or white space only). */
  predicate IsBlank(s: string) {
    Trim(s) == ""
  }

  lemma BlankIffAllWhitespace(s: string)
    ensures IsBlank(s) <==> AllWhitespace(s)
  {
    var r := Trim(s);
    TrimStrips(s);
    var i :| StrippedAt(s, i, r);
    if r != "" {
      assert s[i] == r[0];
    }
  }

  /** A string that starts and ends with a non-blank character is its own trim. */
  lemma TrimUnpadded(s: string)
    requires |s| > 0 && !IsWhitespace(s[0]) && !IsWhitespace(s[|s| - 1])
    ensures Trim(s) == s
  {
    assert LeadingBlanks(s) == 0;
    assert TrimStart(s) == s;
    assert TrailingBlanksStart(s) == |s|;
  }

  lemma TrimIdempotent(s: string)
    ensures Trim(Trim(s)) == Trim(s)
  {
    var r := Trim(s);
    TrimStrips(s);
    assert TrimStart(r) == r;
    assert TrimEnd(r) == r;
  }

  function AsciiLowerChar(c: char): (d: char)
    ensures 'A' <= c <= 'Z' ==> d as int == c as int + 32
    ensures !('A' <= c <= 'Z') ==> d == c
  {
    if 'A' <= c <= 'Z' then (c as int + 32) as char else c
  }

  /** `str::to_ascii_lowercase`: ASCII capitals are lowered, every other character kept. */
  function AsciiLower(s: string): (r: string)
    ensures |r| == |s|
    ensures forall k :: 0 <= k < |s| ==> r[k] == AsciiLowerChar(s[k])
  {
    seq(|s|, k requires 0 <= k < |s| => AsciiLowerChar(s[k]))
  }

  /** `str::eq_ignore_ascii_case`. */
  predicate EqIgnoreAsciiCase(a: string, b: string) {
    AsciiLower(a) == AsciiLower(b)
  }

  lemma EqIgnoreAsciiCaseLength(a: string, b: string)
    requires EqIgnoreAsciiCase(a, b)
    ensures |a| == |b|
  {
    assert |AsciiLower(a)| == |AsciiLower(b)|;
  }

  predicate StartsWith(s: string, prefix: string) {
    prefix <= s
  }

  predicate EndsWith(s: string, suffix: string) {
    |suffix| <= |s| && s[|s| - |suffix|..] == suffix
  }

  /** The index of the first occurrence of `c`. */
  function FirstIndex(s: string, c: char): (i: nat)
    requires c in s
    ensures i < |s| && s[i] == c && c !in s[..i]
  {
    if s[0] == c then 0 else
      var j := FirstIndex(s[1..], c);
      assert s[..j + 1] == [s[0]] + s[1..][..j];
      j + 1
  }

  /** The index of the last occurrence of `c`. */
  function LastIndex(s: string, c: char): (i: nat)
    requires c in s
    ensures i < |s| && s[i] == c && c !in s[i + 1..]
  {
    if s[|s| - 1] == c then |s| - 1 else
      assert c in s[..|s| - 1] by {
        var k :| 0 <= k < |s| && s[k] == c;
        assert s[..|s| - 1][k] == c;
      }
      var j := LastIndex(s[..|s| - 1], c);
      assert s[j + 1..] == s[..|s| - 1][j + 1..] + [s[|s| - 1]];
      j
  }

  /** `str::split` on a single character: never empty, no piece holds `sep`. */
  function Split(s: string, sep: char): (parts: seq<string>)
    ensures |parts| >= 1
    ensures forall k :: 0 <= k < |parts| ==> sep !in parts[k]
    decreases |s|
  {
    if sep !in s then [s]
    else
      var i := FirstIndex(s, sep);
      [s[..i]] + Split(s[i + 1..], sep)
  }

  /** `[T]::join` with a one-character separator. */
  function Join(parts: seq<string>, sep: char): string {
    if |parts| == 0 then ""
    else if |parts| == 1 then parts[0]
    else parts[0] + [sep] + Join(parts[1..], sep)
  }

  lemma {:induction false} JoinSplit(s: string, sep: char)
    ensures Join(Split(s, sep), sep) == s
    decreases |s|
  {
    if sep in s {
      var i := FirstIndex(s, sep);
      var rest := Split(s[i + 1..], sep);
      var parts := [s[..i]] + rest;
      assert Split(s, sep) == parts;
      assert parts[1..] == rest;
      assert Join(parts, sep) == s[..i] + [sep] + Join(rest, sep);
      JoinSplit(s[i + 1..], sep);
      assert s == s[..i] + [sep] + s[i + 1..];
    }
  }

  lemma {:induction false} SplitJoin(parts: seq<string>, sep: char)
    requires |parts| >= 1
    requires forall k :: 0 <= k < |parts| ==> sep !in parts[k]
    ensures Split(Join(parts, sep), sep) == parts
  {
    if |parts| > 1 {
      var rest := Join(parts[1..], sep);
      var s := parts[0] + [sep] + rest;
      assert s[|parts[0]|] == sep;
      var i := FirstIndex(s, sep);
      assert forall k :: 0 <= k < |parts[0]| ==> s[k] == parts[0][k];
      assert i == |parts[0]|;
      assert s[..i] == parts[0];
      assert s[i + 1..] == rest;
      SplitJoin(parts[1..], sep);
    }
  }

  /** The longest prefix of `s` without white space. */
  function Word(s: string): (w: string)
    ensures w <= s
    ensures forall k :: 0 <= k < |w| ==> !IsWhitespace(w[k])
    ensures |w| < |s| ==> IsWhitespace(s[|w|])
  {
    if |s| == 0 || IsWhitespace(s[0]) then "" else [s[0]] + Word(s[1..])
  }

  /** A non-empty run without white space. */
  predicate IsWord(w: string) {
    |w| > 0 && forall j :: 0 <= j < |w| ==> !IsWhitespace(w[j])
  }

  /** A text starting with a non-blank character starts with a word. */
  lemma WordOfNonBlank(t: string)
    requires |t| > 0 && !IsWhitespace(t[0])
    ensures IsWord(Word(t)) && |Word(t)| <= |t|
  {
    assert Word(t)[0] == t[0];
  }

  /** `str::split_whitespace`: the maximal non-blank runs, in order. */
  function SplitWhitespace(s: string): (words: seq<string>)
    ensures forall k :: 0 <= k < |words| ==> IsWord(words[k])
    decreases |s|
  {
    var t := TrimStart(s);
    if |t| == 0 then []
    else
      var w := Word(t);
      WordOfNonBlank(t);
      var rest := SplitWhitespace(t[|w|..]);
      [w] + rest
  }

  lemma SplitWhitespaceEmptyIffBlank(s: string)
    ensures SplitWhitespace(s) == [] <==> IsBlank(s)
  {
    BlankIffAllWhitespace(s);
    var t := TrimStart(s);
    if |t| == 0 {
      assert s[..|s|] == s;
    } else {
      assert !IsWhitespace(s[|s| - |t|]);
    }
  }

  /** Every occurrence of the character `c` replaced by `repl`, as `str::replace`. */
  function ReplaceChar(s: string, c: char, repl: string): (r: string)
    ensures c !in repl ==> c !in r
  {
    if |s| == 0 then ""
    else (if s[0] == c then repl else [s[0]]) + ReplaceChar(s[1..], c, repl)
  }

  /** `ReplaceChar` distributes over concatenation. */
  lemma {:induction false} ReplaceCharAppend(a: string, b: string, c: char, repl: string)
    ensures ReplaceChar(a + b, c, repl) == ReplaceChar(a, c, repl) + ReplaceChar(b, c, repl)
  {
    if |a| > 0 {
      assert (a + b)[1..] == a[1..] + b;
      ReplaceCharAppend(a[1..], b, c, repl);
    } else {
      assert a + b == b;
    }
  }
}
