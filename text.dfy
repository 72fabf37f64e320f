/**
 * The few Python `str` operations the command-line script relies on:
 * `strip()`, `strip(chars)`, `split(sep, 1)`, `startswith`, `isdigit`,
 * `upper` and `str(int)`, written over `seq<char>`.
 */
module Text {
  import opened Wrappers

  /** The characters for which Python's `str.isspace()` holds; `strip()` with no argument removes these. */
  const Whitespace: set<char> := {
    '\t', '\n', '\U{0B}', '\U{0C}', '\r', '\U{1C}', '\U{1D}', '\U{1E}', '\U{1F}', ' ',
    '\U{85}', '\U{A0}', '\U{1680}',
    '\U{2000}', '\U{2001}', '\U{2002}', '\U{2003}', '\U{2004}', '\U{2005}',
    '\U{2006}', '\U{2007}', '\U{2008}', '\U{2009}', '\U{200A}',
    '\U{2028}', '\U{2029}', '\U{202F}', '\U{205F}', '\U{3000}'
  }

  /** How many characters at the front of `s` belong to `cs`. */
  function LeadingCount(s: string, cs: set<char>): (n: nat)
    ensures n <= |s|
    ensures forall k :: 0 <= k < n ==> s[k] in cs
    ensures n < |s| ==> s[n] !in cs
  {
    if |s| == 0 || s[0] !in cs then 0 else 1 + LeadingCount(s[1..], cs)
  }

  /** How many characters at the back of `s` belong to `cs`. */
  function TrailingCount(s: string, cs: set<char>): (n: nat)
    ensures n <= |s|
    ensures forall k :: |s| - n <= k < |s| ==> s[k] in cs
    ensures n < |s| ==> s[|s| - 1 - n] !in cs
  {
    if |s| == 0 || s[|s| - 1] !in cs then 0 else 1 + TrailingCount(s[..|s| - 1], cs)
  }

  /**
   * Python's `s.strip(chars)` for the character set `cs`: the longest middle
   * part of `s` that neither starts nor ends with a character of `cs`.
   */
  function Strip(s: string, cs: set<char>): (r: string)
    ensures |r| <= |s|
    ensures r != [] ==> r[0] !in cs && r[|r| - 1] !in cs
    ensures r == [] <==> forall k :: 0 <= k < |s| ==> s[k] in cs
    ensures forall c :: c in r ==> c in s
  {
    var i := LeadingCount(s, cs);
    if i == |s| then [] else s[i..|s| - TrailingCount(s, cs)]
  }

  /** `Strip` only removes characters of `cs`, and only from the two ends. */
  lemma StripBounds(s: string, cs: set<char>) returns (i: nat, j: nat)
    ensures i <= j <= |s| && Strip(s, cs) == s[i..j]
    ensures forall k :: 0 <= k < i ==> s[k] in cs
    ensures forall k :: j <= k < |s| ==> s[k] in cs
  {
    i := LeadingCount(s, cs);
    if i == |s| {
      j := i;
    } else {
      j := |s| - TrailingCount(s, cs);
    }
  }

  /** Padding a string that neither starts nor ends with a character of `cs` by such characters is undone by `Strip`. */
  lemma StripPadded(pre: string, core: string, post: string, cs: set<char>)
    requires forall k :: 0 <= k < |pre| ==> pre[k] in cs
    requires forall k :: 0 <= k < |post| ==> post[k] in cs
    requires core != [] ==> core[0] !in cs && core[|core| - 1] !in cs
    ensures Strip(pre + core + post, cs) == core
  {
    var s := pre + core + post;
    if core != [] {
      assert s[|pre|] == core[0];
      assert s[|pre| + |core| - 1] == core[|core| - 1];
      assert LeadingCount(s, cs) == |pre|;
      assert TrailingCount(s, cs) == |post|;
      assert s[|pre|..|s| - |post|] == core;
    } else {
      assert forall k :: 0 <= k < |s| ==> s[k] in cs by {
        forall k | 0 <= k < |s| ensures s[k] in cs {
          if k < |pre| { assert s[k] == pre[k]; } else { assert s[k] == post[k - |pre|]; }
        }
      }
    }
  }

  /** Stripping a second time with the same characters changes nothing. */
  lemma StripIdempotent(s: string, cs: set<char>)
    ensures Strip(Strip(s, cs), cs) == Strip(s, cs)
  {
  }

  /** Python's `s.startswith(p)`. */
  predicate StartsWith(s: string, p: string) {
    |p| <= |s| && s[..|p|] == p
  }

  /**
   * Python's `s.split(c, 1)` when `c` occurs in `s`: the text before the first
   * `c` and everything after it.
   */
  function SplitFirst(s: string, c: char): (parts: (string, string))
    requires c in s
    ensures s == parts.0 + [c] + parts.1
    ensures c !in parts.0
  {
    if s[0] == c then
      assert s == [] + [c] + s[1..];
      ([], s[1..])
    else
      var (before, after) := SplitFirst(s[1..], c);
      assert s == [s[0]] + s[1..];
      ([s[0]] + before, after)
  }

  /** Cutting at the first `c` is the only way to write `s` as `before + [c] + after` with no `c` in `before`. */
  lemma {:induction false} SplitFirstUnique(s: string, c: char, before: string, after: string)
    requires s == before + [c] + after && c !in before
    ensures c in s && SplitFirst(s, c) == (before, after)
  {
    assert s[|before|] == c;
    if before == [] {
      assert s[1..] == after;
    } else {
      assert s[0] == before[0];
      assert s[1..] == before[1..] + [c] + after;
      SplitFirstUnique(s[1..], c, before[1..], after);
      assert [s[0]] + before[1..] == before;
    }
  }

  predicate IsAsciiDigit(c: char) {
    '0' <= c <= '9'
  }

  /** Python's `s.isdigit()`, restricted to the ASCII digits: true of a non-empty string of digits. */
  predicate IsDigits(s: string) {
    |s| > 0 && forall k :: 0 <= k < |s| ==> IsAsciiDigit(s[k])
  }

  /** `isdigit()` is false of the empty string and of any sign or space, true of a bare number. */
  lemma IsDigitsExamples()
    ensures !IsDigits("")
    ensures IsDigits("9876543210")
    ensures !IsDigits("+919876543210")
    ensures !IsDigits("98765 43210")
  {
    assert "+919876543210"[0] == '+';
    assert "98765 43210"[5] == ' ';
  }

  function UpperChar(c: char): (u: char) {
    if 'a' <= c <= 'z' then (c as int - 32) as char else c
  }

  /** Python's `s.upper()` on the ASCII letters; every other character is kept. */
  function Upper(s: string): (r: string)
    ensures |r| == |s|
    ensures forall k :: 0 <= k < |s| ==> r[k] == UpperChar(s[k])
  {
    if s == [] then [] else [UpperChar(s[0])] + Upper(s[1..])
  }

  /** Exactly the strings `"L"` and `"l"` upper-case to `"L"`. */
  lemma UpperIsL(s: string)
    ensures Upper(s) == "L" <==> s == "L" || s == "l"
  {
  }

  function DigitChar(d: nat): (c: char)
    requires d < 10
    ensures IsAsciiDigit(c)
  {
    ('0' as int + d) as char
  }

  /** The decimal digits of `n`, most significant first, without leading zeros. */
  function NatDigits(n: nat): (s: string)
    ensures IsDigits(s)
    ensures s[0] == '0' ==> n == 0 && s == "0"
  {
    if n < 10 then [DigitChar(n)] else NatDigits(n / 10) + [DigitChar(n % 10)]
  }

  /**
   * Python's `str(n)` for an `int`: the canonical numeral, digits only and no
   * leading zero for a natural number, a minus sign before such digits otherwise.
   */
  function IntString(n: int): (s: string)
    ensures n >= 0 ==> IsDigits(s) && (s[0] == '0' ==> n == 0 && s == "0")
    ensures n < 0 ==> |s| >= 2 && s[0] == '-' && IsDigits(s[1..]) && s[1] != '0'
  {
    if n < 0 then "-" + NatDigits(-n) else NatDigits(n)
  }

  /** The number a string of decimal digits denotes. */
  function DigitsValue(s: string): nat
    requires forall k :: 0 <= k < |s| ==> IsAsciiDigit(s[k])
  {
    if s == [] then 0 else DigitsValue(s[..|s| - 1]) * 10 + DigitValue(s[|s| - 1])
  }

  function DigitValue(c: char): (d: nat)
    requires IsAsciiDigit(c)
    ensures d < 10
  {
    c as int - '0' as int
  }

  /** Reads back an optionally signed decimal numeral; `None` for anything else. */
  function DecimalValue(s: string): Option<int>
  {
    if |s| > 1 && s[0] == '-' && IsDigits(s[1..]) then Some(-(DigitsValue(s[1..]) as int))
    else if IsDigits(s) then Some(DigitsValue(s) as int)
    else None
  }

  lemma {:induction false} NatDigitsRoundTrip(n: nat)
    ensures DigitsValue(NatDigits(n)) == n
  {
    if n >= 10 {
      var s := NatDigits(n);
      assert s[..|s| - 1] == NatDigits(n / 10);
      NatDigitsRoundTrip(n / 10);
    }
  }

  /** `str(n)` reads back as `n`: nothing about an integer is lost when it is written out. */
  lemma IntStringRoundTrip(n: int)
    ensures DecimalValue(IntString(n)) == Some(n)
  {
    var s := IntString(n);
    if n < 0 {
      assert s[1..] == NatDigits(-n);
      NatDigitsRoundTrip(-n);
      assert DecimalValue(s) == Some(-(DigitsValue(s[1..]) as int));
    } else {
      assert s == NatDigits(n) && IsAsciiDigit(s[0]);
      NatDigitsRoundTrip(n);
      assert DecimalValue(s) == Some(DigitsValue(s) as int);
    }
  }

}
