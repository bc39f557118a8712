/**
 * The parts of Rust's standard string handling that the core relies on:
 * `u8`/`usize`/`i32` parsing with `str::parse`, `{}` and `{:02}` formatting of
 * non-negative integers, `str::trim`, `str::split` on one character and
 * `str::to_lowercase` (restricted as described at `LowerChar`).
 */
module Strings {
  import opened Wrappers

  const U8_MAX: nat := 255
  const I32_MAX: nat := 0x7fff_ffff
  /** `usize` on the 64-bit targets the program is built for. */
  const USIZE_MAX: nat := 0xffff_ffff_ffff_ffff

  predicate IsAsciiDigit(c: char) { '0' <= c <= '9' }

  predicate AllDigits(s: string) {
    forall i :: 0 <= i < |s| ==> IsAsciiDigit(s[i])
  }

  function DigitValue(c: char): nat
    requires IsAsciiDigit(c)
  {
    c as int - '0' as int
  }

  function DigitChar(d: nat): (c: char)
    requires d < 10
    ensures IsAsciiDigit(c) && DigitValue(c) == d
  {
    ('0' as int + d) as char
  }

  /** The number a string of decimal digits denotes (most significant first). */
  function DigitsValue(s: string): nat
    requires AllDigits(s)
  {
    if s == [] then 0 else DigitsValue(s[..|s| - 1]) * 10 + DigitValue(s[|s| - 1])
  }

  /** `format!("{}", n)` for a non-negative integer: shortest decimal, no sign. */
  function Decimal(n: nat): (r: string)
    ensures 1 <= |r| && AllDigits(r)
    ensures DigitsValue(r) == n
    ensures r[0] == '0' ==> n == 0
  {
    if n < 10 then [DigitChar(n)]
    else
      var r := Decimal(n / 10) + [DigitChar(n % 10)];
      assert r[..|r| - 1] == Decimal(n / 10);
      r
  }

  /** `format!("{:02}", n)`: at least two characters, padded on the left with zeros. */
  function Pad2(n: nat): string {
    var d := Decimal(n);
    if |d| < 2 then "0" + d else d
  }

  lemma {:induction false} LeadingZeroValue(s: string)
    requires AllDigits(s)
    ensures AllDigits("0" + s) && DigitsValue("0" + s) == DigitsValue(s)
  {
    if s != [] {
      var t := "0" + s;
      assert t[..|t| - 1] == "0" + s[..|s| - 1];
      LeadingZeroValue(s[..|s| - 1]);
    }
  }

  /** `{:02}` keeps the value, is all digits and is never shorter than two or than `{}`. */
  lemma Pad2Digits(n: nat)
    ensures AllDigits(Pad2(n)) && DigitsValue(Pad2(n)) == n
    ensures |Pad2(n)| == if |Decimal(n)| < 2 then 2 else |Decimal(n)|
    ensures n >= 10 ==> Pad2(n) == Decimal(n)
  {
    LeadingZeroValue(Decimal(n));
    if n >= 10 {
      assert |Decimal(n / 10)| >= 1;
    }
  }

  /**
   * `str::parse` into an unsigned integer type whose largest value is `max`:
   * an optional `+`, then one or more ASCII digits whose value is at most `max`.
   * On strings of ASCII digits alone the signed `i32` parse agrees with it.
   */
  function ParseUnsigned(s: string, max: nat): (r: Option<nat>)
    ensures r.Some? ==> r.value <= max
  {
    var digits := if |s| > 0 && s[0] == '+' then s[1..] else s;
    if |digits| > 0 && AllDigits(digits) && DigitsValue(digits) <= max
    then Some(DigitsValue(digits))
    else None
  }

  /** Printing then parsing gives the number back, for every value the type holds. */
  lemma ParseDecimal(n: nat, max: nat)
    requires n <= max
    ensures ParseUnsigned(Decimal(n), max) == Some(n)
  {
    assert IsAsciiDigit(Decimal(n)[0]);
  }

  /** Parsing fails exactly on the empty string, a lone `+`, a non-digit or a value above `max`. */
  lemma ParseUnsignedCases(s: string, max: nat)
    ensures s == [] || s == "+" ==> ParseUnsigned(s, max) == None
    ensures AllDigits(s) && s != [] ==>
      ParseUnsigned(s, max) == (if DigitsValue(s) <= max then Some(DigitsValue(s)) else None)
    ensures (exists i :: 0 <= i < |s| && !IsAsciiDigit(s[i]) && !(i == 0 && s[i] == '+')) ==>
      ParseUnsigned(s, max) == None
  {
    if exists i :: 0 <= i < |s| && !IsAsciiDigit(s[i]) && !(i == 0 && s[i] == '+') {
      var i :| 0 <= i < |s| && !IsAsciiDigit(s[i]) && !(i == 0 && s[i] == '+');
      if |s| > 0 && s[0] == '+' {
        assert !IsAsciiDigit(s[1..][i - 1]);
      } else {
        assert !IsAsciiDigit(s[i]);
      }
    }
  }

  /** The characters with the Unicode White_Space property, which `str::trim` removes. */
  predicate IsWhitespace(c: char) {
    c == ' ' || ('\t' <= c <= '\r') || c == '\U{85}' || c == '\U{A0}' || c == '\U{1680}'
    || ('\U{2000}' <= c <= '\U{200A}') || c == '\U{2028}' || c == '\U{2029}'
    || c == '\U{202F}' || c == '\U{205F}' || c == '\U{3000}'
  }

  predicate AllWhitespace(s: string) {
    forall i :: 0 <= i < |s| ==> IsWhitespace(s[i])
  }

  function TrimStart(s: string): (r: string)
    ensures |r| <= |s| && r == s[|s| - |r|..]
    ensures r == [] || !IsWhitespace(r[0])
  {
    if s != [] && IsWhitespace(s[0]) then TrimStart(s[1..]) else s
  }

  function TrimEnd(s: string): (r: string)
    ensures |r| <= |s| && r == s[..|r|]
    ensures r == [] || !IsWhitespace(r[|r| - 1])
  {
    if s != [] && IsWhitespace(s[|s| - 1]) then TrimEnd(s[..|s| - 1]) else s
  }

  /** `str::trim`. */
  function Trim(s: string): string {
    TrimEnd(TrimStart(s))
  }

  /** A string that starts and ends with a non-whitespace character is its own trim. */
  lemma TrimUnpadded(s: string)
    requires s == [] || (!IsWhitespace(s[0]) && !IsWhitespace(s[|s| - 1]))
    ensures Trim(s) == s
  {
  }

  lemma {:induction false} TrimStartPadded(pre: string, s: string)
    requires AllWhitespace(pre)
    ensures TrimStart(pre + s) == TrimStart(s)
  {
    if pre != [] {
      assert IsWhitespace((pre + s)[0]);
      assert (pre + s)[1..] == pre[1..] + s;
      TrimStartPadded(pre[1..], s);
    } else {
      assert pre + s == s;
    }
  }

  lemma {:induction false} TrimEndPadded(s: string, post: string)
    requires AllWhitespace(post)
    ensures TrimEnd(s + post) == TrimEnd(s)
  {
    if post != [] {
      var p := post[..|post| - 1];
      assert IsWhitespace((s + post)[|s + post| - 1]);
      assert (s + post)[..|s + post| - 1] == s + p;
      TrimEndPadded(s, p);
    } else {
      assert s + post == s;
    }
  }

  lemma {:induction false} TrimStartAppend(s: string, post: string)
    ensures (AllWhitespace(s) && AllWhitespace(post)) ==> TrimStart(s + post) == []
    ensures !AllWhitespace(s) ==> TrimStart(s + post) == TrimStart(s) + post
  {
    if s == [] {
      if AllWhitespace(post) {
        TrimStartPadded(post, []);
        assert post + [] == post;
      }
    } else {
      var t := s[1..];
      assert (s + post)[0] == s[0] && (s + post)[1..] == t + post;
      TrimStartAppend(t, post);
      if IsWhitespace(s[0]) {
        assert AllWhitespace(s) <==> AllWhitespace(t) by {
          assert forall i :: 0 <= i < |t| ==> t[i] == s[i + 1];
        }
      } else {
        assert !AllWhitespace(s);
      }
    }
  }

  /** Whitespace around a string does not survive `str::trim`. */
  lemma TrimPadded(pre: string, s: string, post: string)
    requires AllWhitespace(pre) && AllWhitespace(post)
    ensures Trim(pre + s + post) == Trim(s)
  {
    assert pre + s + post == pre + (s + post);
    TrimStartPadded(pre, s + post);
    TrimStartAppend(s, post);
    if AllWhitespace(s) {
      TrimStartAppend(s, []);
      assert s + [] == s;
    } else {
      TrimEndPadded(TrimStart(s), post);
    }
  }

  /**
   * One character of `str::to_lowercase`: ASCII capitals and KELVIN SIGN (whose
   * lower case is ASCII `k`). Every other character is kept: Rust would map some of
   * them to other non-ASCII text, which no colour name or number can contain either.
   */
  function LowerChar(c: char): char {
    if 'A' <= c <= 'Z' then (c as int + 32) as char
    else if c == '\U{212A}' then 'k'
    else c
  }

  function Lowercase(s: string): (r: string)
    ensures |r| == |s|
    ensures forall i :: 0 <= i < |s| ==> r[i] == LowerChar(s[i])
  {
    if s == [] then [] else [LowerChar(s[0])] + Lowercase(s[1..])
  }

  lemma LowerKeepsWhitespace(c: char)
    ensures IsWhitespace(LowerChar(c)) == IsWhitespace(c)
  {
  }

  lemma {:induction false} LowerTrimStart(s: string)
    ensures Lowercase(TrimStart(s)) == TrimStart(Lowercase(s))
  {
    if s != [] {
      LowerKeepsWhitespace(s[0]);
      assert Lowercase(s)[1..] == Lowercase(s[1..]);
      LowerTrimStart(s[1..]);
    }
  }

  lemma {:induction false} LowerTrimEnd(s: string)
    ensures Lowercase(TrimEnd(s)) == TrimEnd(Lowercase(s))
  {
    if s != [] {
      LowerKeepsWhitespace(s[|s| - 1]);
      assert Lowercase(s)[..|s| - 1] == Lowercase(s[..|s| - 1]);
      LowerTrimEnd(s[..|s| - 1]);
    }
  }

  /** Trimming and lowering commute, so the order Rust applies them in does not matter. */
  lemma LowerTrim(s: string)
    ensures Lowercase(Trim(s)) == Trim(Lowercase(s))
  {
    LowerTrimStart(s);
    LowerTrimEnd(TrimStart(s));
  }

  /** `str::split(sep)`: the pieces between separators, with empty pieces kept. */
  function Split(s: string, sep: char): (parts: seq<string>)
    ensures |parts| >= 1
  {
    if s == [] then [""]
    else if s[0] == sep then [""] + Split(s[1..], sep)
    else
      var rest := Split(s[1..], sep);
      [[s[0]] + rest[0]] + rest[1..]
  }

  lemma {:induction false} SplitNoSeparator(s: string, sep: char)
    requires sep !in s
    ensures Split(s, sep) == [s]
  {
    if s != [] {
      SplitNoSeparator(s[1..], sep);
      assert [s[0]] + s[1..] == s;
    }
  }

  /** Splitting `a + sep + b` where `a` has no separator yields `a` followed by the pieces of `b`. */
  lemma {:induction false} SplitAt(a: string, sep: char, b: string)
    requires sep !in a
    ensures Split(a + [sep] + b, sep) == [a] + Split(b, sep)
  {
    if a == [] {
      assert a + [sep] + b == [sep] + b;
      assert ([sep] + b)[1..] == b;
    } else {
      var s := a + [sep] + b;
      assert s[1..] == a[1..] + [sep] + b;
      SplitAt(a[1..], sep, b);
      assert [a[0]] + a[1..] == a;
    }
  }

  /** Joining three separator-free pieces with the separator and splitting again gives the pieces. */
  lemma SplitThree(a: string, b: string, c: string, sep: char)
    requires sep !in a && sep !in b && sep !in c
    ensures Split(a + [sep] + b + [sep] + c, sep) == [a, b, c]
  {
    assert a + [sep] + b + [sep] + c == a + [sep] + (b + [sep] + c);
    SplitAt(a, sep, b + [sep] + c);
    SplitAt(b, sep, c);
    SplitNoSeparator(c, sep);
  }

  lemma SplitTwo(a: string, b: string, sep: char)
    requires sep !in a && sep !in b
    ensures Split(a + [sep] + b, sep) == [a, b]
  {
    SplitAt(a, sep, b);
    SplitNoSeparator(b, sep);
  }
}
