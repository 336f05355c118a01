/**
 * The pieces of Python's `str` behaviour that the profile importer, the
 * cache key and the throttle decoder rely on: `strip()`, `splitlines()`,
 * `startswith`/`endswith`, `"\n".join`, `int()` on a text value, and the
 * decimal (`str(n)`, `f"{n:+d}"`) and hexadecimal (`f"{n:08x}"`) formats.
 */
module Text {
  import opened Wrappers

  // ---------------------------------------------------------------------
  // Whitespace, stripping and prefixes
  // ---------------------------------------------------------------------

  /** The characters `str.strip()` removes (Python's Unicode whitespace). */
  predicate IsSpace(c: char) {
    c == ' ' || ('\t' <= c <= '\r') || ('\U{1C}' <= c <= '\U{1F}')
    || c == '\U{85}' || c == '\U{A0}' || c == '\U{1680}'
    || ('\U{2000}' <= c <= '\U{200A}') || c == '\U{2028}' || c == '\U{2029}'
    || c == '\U{202F}' || c == '\U{205F}' || c == '\U{3000}'
  }

  /** Whitespace only. */
  predicate AllSpace(t: string) {
    forall i :: 0 <= i < |t| ==> IsSpace(t[i])
  }

  /** `s.lstrip()`: the suffix left once the leading whitespace is removed. */
  function LStrip(s: string): (r: string)
    ensures |r| <= |s|
    ensures r == [] || !IsSpace(r[0])
  {
    if s != [] && IsSpace(s[0]) then LStrip(s[1..]) else s
  }

  /** `lstrip` removes whitespace only: what it leaves is a suffix, and what is cut off is whitespace. */
  lemma {:induction false} LStripTrimsSpace(s: string)
    ensures var r := LStrip(s);
      r == s[|s| - |r|..] && AllSpace(s[..|s| - |r|])
    decreases |s|
  {
    if s != [] && IsSpace(s[0]) {
      LStripTrimsSpace(s[1..]);
      var r := LStrip(s);
      assert r == LStrip(s[1..]);
      assert s[1..][|s| - 1 - |r|..] == s[|s| - |r|..];
      assert s[..|s| - |r|] == [s[0]] + s[1..][..|s| - 1 - |r|];
    }
  }

  /** `s.rstrip()`: the prefix left once the trailing whitespace is removed. */
  function RStrip(s: string): (r: string)
    ensures |r| <= |s| && r == s[..|r|]
    ensures r == [] || !IsSpace(r[|r| - 1])
  {
    if s != [] && IsSpace(s[|s| - 1]) then RStrip(s[..|s| - 1]) else s
  }

  /** `rstrip` removes whitespace only: what is cut off after the prefix is whitespace. */
  lemma {:induction false} RStripTrimsSpace(s: string)
    ensures AllSpace(s[|RStrip(s)|..])
    decreases |s|
  {
    if s != [] && IsSpace(s[|s| - 1]) {
      var t := s[..|s| - 1];
      RStripTrimsSpace(t);
      var r := RStrip(s);
      assert r == RStrip(t);
      assert s[|r|..] == t[|r|..] + [s[|s| - 1]];
    }
  }

  /** `s.strip()`: the longest slice of `s` with no whitespace at either end. */
  function Strip(s: string): (r: string)
    ensures r == [] || (!IsSpace(r[0]) && !IsSpace(r[|r| - 1]))
    ensures |r| <= |s|
  {
    var l := LStrip(s);
    var r := RStrip(l);
    r
  }

  /** `strip` removes whitespace only: the result is a slice of `s` with only whitespace around it. */
  lemma StripTrimsSpace(s: string)
    ensures var i := |s| - |LStrip(s)|;
      && 0 <= i <= |s| - |Strip(s)| && Strip(s) == s[i..i + |Strip(s)|]
      && AllSpace(s[..i]) && AllSpace(s[i + |Strip(s)|..])
  {
    var l := LStrip(s);
    var i := |s| - |l|;
    var r := RStrip(l);
    LStripTrimsSpace(s);
    RStripTrimsSpace(l);
    assert Strip(s) == r;
    assert s[i..i + |r|] == r by {
      assert l == s[i..] && r == l[..|r|];
    }
    assert s[i + |r|..] == l[|r|..] by {
      assert l == s[i..];
    }
  }

  lemma StripNoEdgeSpace(s: string)
    requires s == [] || (!IsSpace(s[0]) && !IsSpace(s[|s| - 1]))
    ensures Strip(s) == s
  {
  }

  predicate StartsWith(s: string, prefix: string) {
    |prefix| <= |s| && s[..|prefix|] == prefix
  }

  predicate EndsWith(s: string, suffix: string) {
    |suffix| <= |s| && s[|s| - |suffix|..] == suffix
  }

  /** `sep.join(parts)`. */
  function Join(sep: string, parts: seq<string>): string {
    if parts == [] then ""
    else if |parts| == 1 then parts[0]
    else parts[0] + sep + Join(sep, parts[1..])
  }

  // ---------------------------------------------------------------------
  // str.splitlines()
  // ---------------------------------------------------------------------

  /** The line boundaries `str.splitlines()` recognises. */
  predicate IsLineBreak(c: char) {
    ('\n' <= c <= '\r') || ('\U{1C}' <= c <= '\U{1E}') || c == '\U{85}'
    || c == '\U{2028}' || c == '\U{2029}'
  }

  /** Index of the first line boundary in `s`, or `|s|` if there is none. */
  function LineEnd(s: string): (k: nat)
    ensures k <= |s|
    ensures k < |s| ==> IsLineBreak(s[k])
    ensures forall j :: 0 <= j < k ==> !IsLineBreak(s[j])
  {
    if s == [] || IsLineBreak(s[0]) then 0 else 1 + LineEnd(s[1..])
  }

  /**
   * `s.splitlines()`: the lines of `s` without their terminators; "\r\n"
   * is one terminator, and a final terminator does not open an empty line.
   */
  function SplitLines(s: string): seq<string>
    decreases |s|
  {
    if s == [] then []
    else
      var k := LineEnd(s);
      if k == |s| then [s]
      else
        var width := if s[k] == '\r' && k + 1 < |s| && s[k + 1] == '\n' then 2 else 1;
        [s[..k]] + SplitLines(s[k + width..])
  }

  predicate NoBreaks(line: string) {
    forall j :: 0 <= j < |line| ==> !IsLineBreak(line[j])
  }

  /** The text before the first line boundary has none. */
  lemma FirstLineNoBreaks(s: string)
    ensures NoBreaks(s[..LineEnd(s)])
  {
    var k := LineEnd(s);
    forall j | 0 <= j < k ensures !IsLineBreak(s[..k][j]) {
      assert s[..k][j] == s[j];
    }
  }

  /** No line produced by `splitlines()` contains a line boundary. */
  lemma {:induction false} SplitLinesHaveNoBreaks(s: string)
    ensures forall i :: 0 <= i < |SplitLines(s)| ==> NoBreaks(SplitLines(s)[i])
    decreases |s|
  {
    if s != [] {
      var k := LineEnd(s);
      FirstLineNoBreaks(s);
      if k < |s| {
        var width := if s[k] == '\r' && k + 1 < |s| && s[k + 1] == '\n' then 2 else 1;
        var rest := SplitLines(s[k + width..]);
        SplitLinesHaveNoBreaks(s[k + width..]);
        var lines := [s[..k]] + rest;
        assert SplitLines(s) == lines;
        forall i | 0 <= i < |lines| ensures NoBreaks(lines[i]) {
          if i > 0 {
            assert lines[i] == rest[i - 1];
          }
        }
      } else {
        assert s[..k] == s;
      }
    }
  }

  /** A position before which there is no boundary, and at which there is one (or the end), is LineEnd. */
  lemma LineEndAt(s: string, k: nat)
    requires k <= |s| && (k < |s| ==> IsLineBreak(s[k]))
    requires forall j :: 0 <= j < k ==> !IsLineBreak(s[j])
    ensures LineEnd(s) == k
  {
  }

  /** A line without boundaries followed by "\n" is the first line `splitlines()` gives. */
  lemma SplitFirstLine(first: string, tail: string)
    requires NoBreaks(first)
    ensures SplitLines(first + "\n" + tail) == [first] + SplitLines(tail)
  {
    var s := first + "\n" + tail;
    assert s[|first|] == '\n';
    forall j | 0 <= j < |first| ensures !IsLineBreak(s[j]) {
      assert s[j] == first[j];
    }
    LineEndAt(s, |first|);
    assert s[..|first|] == first;
    assert s[|first| + 1..] == tail;
  }

  /**
   * `splitlines()` undoes `"\n".join` of lines that hold no boundary, as
   * long as the last line is not empty (an empty last line leaves a final
   * terminator, which does not open a line).
   */
  lemma {:induction false} SplitJoin(lines: seq<string>)
    requires forall i :: 0 <= i < |lines| ==> NoBreaks(lines[i])
    requires lines != [] && lines[|lines| - 1] != ""
    ensures SplitLines(Join("\n", lines)) == lines
  {
    var first := lines[0];
    assert NoBreaks(first);
    if |lines| == 1 {
      LineEndAt(first, |first|);
    } else {
      var rest := lines[1..];
      assert Join("\n", lines) == first + "\n" + Join("\n", rest);
      SplitFirstLine(first, Join("\n", rest));
      forall i | 0 <= i < |rest| ensures NoBreaks(rest[i]) {
        assert rest[i] == lines[i + 1];
      }
      SplitJoin(rest);
      assert lines == [first] + rest;
    }
  }

  // ---------------------------------------------------------------------
  // Decimal and hexadecimal formatting
  // ---------------------------------------------------------------------

  function DigitChar(d: nat): char
    requires d < 16
  {
    if d < 10 then ('0' as int + d) as char else ('a' as int + d - 10) as char
  }

  /** Decimal digits of `n`, no sign, no leading zeros. */
  function Decimal(n: nat): (r: string)
    ensures |r| >= 1
    decreases n
  {
    if n < 10 then [DigitChar(n)] else Decimal(n / 10) + [DigitChar(n % 10)]
  }

  /** `str(n)` / `f"{n}"` for an integer. */
  function FormatInt(n: int): string {
    if n < 0 then "-" + Decimal(-n) else Decimal(n)
  }

  /** `f"{n:+d}"`: the sign is always written. */
  function FormatSigned(n: int): (r: string)
    ensures |r| >= 2 && (r[0] == '+' || r[0] == '-')
  {
    if n < 0 then "-" + Decimal(-n) else "+" + Decimal(n)
  }

  /** Lower-case hexadecimal digits of `n`. */
  function Hex(n: nat): (r: string)
    ensures |r| >= 1
    decreases n
  {
    if n < 16 then [DigitChar(n)] else Hex(n / 16) + [DigitChar(n % 16)]
  }

  function Zeros(k: nat): (r: string)
    ensures |r| == k && forall i :: 0 <= i < k ==> r[i] == '0'
  {
    if k == 0 then [] else Zeros(k - 1) + ['0']
  }

  /** `f"{n:08x}"`: lower-case hex, zero-padded to at least eight digits. */
  function Hex08(n: nat): string {
    var h := Hex(n);
    if |h| < 8 then Zeros(8 - |h|) + h else h
  }

  // ---------------------------------------------------------------------
  // int() on text
  // ---------------------------------------------------------------------

  predicate IsDigit(c: char) { '0' <= c <= '9' }

  predicate IsHexDigit(c: char) { IsDigit(c) || 'a' <= c <= 'f' }

  function HexDigitValue(c: char): nat
    requires IsHexDigit(c)
  {
    if IsDigit(c) then c as int - '0' as int else c as int - 'a' as int + 10
  }

  /**
   * A digit run as `int()` accepts it: digits, with single underscores
   * allowed between two digits.
   */
  predicate ValidDigits(s: string) {
    && s != []
    && IsDigit(s[0]) && IsDigit(s[|s| - 1])
    && (forall i :: 0 <= i < |s| ==> IsDigit(s[i]) || s[i] == '_')
    && (forall i :: 0 <= i < |s| - 1 ==> !(s[i] == '_' && s[i + 1] == '_'))
  }

  /** Value of a run of hexadecimal digits, underscores skipped. */
  function DigitsValue(s: string, base: nat): nat
    requires forall i :: 0 <= i < |s| ==> IsHexDigit(s[i]) || s[i] == '_'
  {
    if s == [] then 0
    else if s[|s| - 1] == '_' then DigitsValue(s[..|s| - 1], base)
    else DigitsValue(s[..|s| - 1], base) * base + HexDigitValue(s[|s| - 1])
  }

  /**
   * `int(s)` for the ASCII text this program feeds it: surrounding
   * whitespace is ignored, one optional sign, then a digit run.
   * `None` stands for the `ValueError` Python raises.
   */
  function ParseInt(s: string): Option<int> {
    var t := Strip(s);
    if t != [] && (t[0] == '+' || t[0] == '-') then
      var body := t[1..];
      if ValidDigits(body) then
        var v := DigitsValue(body, 10);
        Some(if t[0] == '-' then -(v as int) else v)
      else None
    else if ValidDigits(t) then Some(DigitsValue(t, 10))
    else None
  }

  lemma {:induction false} DecimalDigits(n: nat)
    ensures ValidDigits(Decimal(n))
    ensures forall i :: 0 <= i < |Decimal(n)| ==> IsDigit(Decimal(n)[i])
    ensures DigitsValue(Decimal(n), 10) == n
    decreases n
  {
    if n >= 10 {
      DecimalDigits(n / 10);
      var p := Decimal(n / 10);
      assert Decimal(n) == p + [DigitChar(n % 10)];
      assert Decimal(n)[..|Decimal(n)| - 1] == p;
    }
  }

  /** `int(f"{n:+d}") == n`: the signed decimal format reads back. */
  lemma ParseFormatSigned(n: int)
    ensures ParseInt(FormatSigned(n)) == Some(n)
  {
    var d := if n < 0 then -n else n;
    DecimalDigits(d);
    var t := FormatSigned(n);
    var ds := Decimal(d);
    assert t == [t[0]] + ds && t[1..] == ds;
    assert t[|t| - 1] == ds[|ds| - 1];
    StripNoEdgeSpace(t);
    assert Strip(t) == t;
  }

  /** `int(str(n)) == n`. */
  lemma ParseFormatInt(n: int)
    ensures ParseInt(FormatInt(n)) == Some(n)
  {
    if n < 0 {
      assert FormatInt(n) == FormatSigned(n);
      ParseFormatSigned(n);
    } else {
      DecimalDigits(n);
      var t := Decimal(n);
      assert IsDigit(t[0]) && IsDigit(t[|t| - 1]);
      StripNoEdgeSpace(t);
      assert Strip(t) == t;
    }
  }

  lemma {:induction false} HexDigits(n: nat)
    ensures forall i :: 0 <= i < |Hex(n)| ==> IsHexDigit(Hex(n)[i])
    ensures DigitsValue(Hex(n), 16) == n
    decreases n
  {
    if n >= 16 {
      HexDigits(n / 16);
      var p := Hex(n / 16);
      assert Hex(n) == p + [DigitChar(n % 16)];
      assert Hex(n)[..|Hex(n)| - 1] == p;
    }
  }

  lemma {:induction false} LeadingZerosValue(k: nat, h: string)
    requires forall i :: 0 <= i < |h| ==> IsHexDigit(h[i])
    ensures forall i :: 0 <= i < |Zeros(k) + h| ==> IsHexDigit((Zeros(k) + h)[i])
    ensures DigitsValue(Zeros(k) + h, 16) == DigitsValue(h, 16)
    decreases |h|
  {
    var z := Zeros(k) + h;
    if h == [] {
      assert z == Zeros(k);
      ZerosValue(k);
    } else {
      assert z[..|z| - 1] == Zeros(k) + h[..|h| - 1];
      LeadingZerosValue(k, h[..|h| - 1]);
    }
  }

  lemma {:induction false} ZerosValue(k: nat)
    ensures DigitsValue(Zeros(k), 16) == 0
  {
    if k > 0 {
      assert Zeros(k)[..k - 1] == Zeros(k - 1);
      ZerosValue(k - 1);
    }
  }

  /**
   * `f"{n:08x}"` is at least eight lower-case hex digits whose value is
   * `n`: the zero padding never changes the number shown.
   */
  lemma Hex08Value(n: nat)
    ensures |Hex08(n)| >= 8
    ensures forall i :: 0 <= i < |Hex08(n)| ==> IsHexDigit(Hex08(n)[i])
    ensures DigitsValue(Hex08(n), 16) == n
  {
    HexDigits(n);
    var h := Hex(n);
    if |h| < 8 {
      LeadingZerosValue(8 - |h|, h);
    }
  }
}
