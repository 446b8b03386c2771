/**
 * The few JavaScript string operations the core relies on: decimal rendering
 * of a non-negative integer (`n.toString()`), `padStart`, `slice`, `trim`,
 * the `\s` character class, `toUpperCase` on a single character, and the
 * `parseFloat(value) || 0` idiom.
 */
module Text {
  import opened Options

  function DigitChar(d: nat): (c: char)
    requires d < 10
    ensures '0' <= c <= '9'
  {
    ['0', '1', '2', '3', '4', '5', '6', '7', '8', '9'][d]
  }

  predicate IsDigit(c: char) { '0' <= c <= '9' }

  function DigitValue(c: char): (d: nat)
    requires IsDigit(c)
    ensures d < 10
  {
    (c as int - '0' as int) as nat
  }

  lemma DigitRoundTrip(d: nat)
    requires d < 10
    ensures DigitValue(DigitChar(d)) == d
  {
  }

  /** `n.toString()` for a non-negative integer: decimal digits, no leading zero. */
  function NatToString(n: nat): (s: string)
    ensures |s| > 0
    ensures forall k :: 0 <= k < |s| ==> IsDigit(s[k])
    decreases n
  {
    if n < 10 then [DigitChar(n)] else NatToString(n / 10) + [DigitChar(n % 10)]
  }

  /** The number a string of decimal digits denotes (leading zeros allowed). */
  function ParseDigits(s: string): (n: nat)
    requires forall k :: 0 <= k < |s| ==> IsDigit(s[k])
  {
    if |s| == 0 then 0 else 10 * ParseDigits(s[..|s| - 1]) + DigitValue(s[|s| - 1])
  }

  /** Reading the decimal rendering back gives the number. */
  lemma {:induction false} NatToStringRoundTrip(n: nat)
    ensures ParseDigits(NatToString(n)) == n
    decreases n
  {
    var s := NatToString(n);
    if n < 10 {
      DigitRoundTrip(n);
    } else {
      NatToStringRoundTrip(n / 10);
      assert s[..|s| - 1] == NatToString(n / 10);
      DigitRoundTrip(n % 10);
    }
  }

  /** The rendering is as long as the number has digits. */
  lemma {:induction false} NatToStringLength(n: nat, width: nat)
    requires width > 0
    requires n < Pow10(width)
    ensures |NatToString(n)| <= width
    ensures width > 1 && n >= Pow10(width - 1) ==> |NatToString(n)| == width
    decreases n
  {
    if n >= 10 {
      assert width > 1;
      NatToStringLength(n / 10, width - 1);
    } else if width > 1 {
      assert Pow10(width - 1) >= 10 by { Pow10AtLeast10(width - 1); }
    }
  }

  function Pow10(k: nat): (p: nat)
    ensures p >= 1
  {
    if k == 0 then 1 else 10 * Pow10(k - 1)
  }

  lemma Pow10AtLeast10(k: nat)
    requires k >= 1
    ensures Pow10(k) >= 10
  {
  }

  /** Leading zeros do not change the value a digit string denotes. */
  lemma {:induction false} ParseDigitsLeadingZeros(z: string, s: string)
    requires forall k :: 0 <= k < |z| ==> z[k] == '0'
    requires forall k :: 0 <= k < |s| ==> IsDigit(s[k])
    ensures forall k :: 0 <= k < |z + s| ==> IsDigit((z + s)[k])
    ensures ParseDigits(z + s) == ParseDigits(s)
    decreases |s|
  {
    if |s| == 0 {
      assert z + s == z;
      AllZeros(z);
    } else {
      assert (z + s)[..|z + s| - 1] == z + s[..|s| - 1];
      ParseDigitsLeadingZeros(z, s[..|s| - 1]);
    }
  }

  lemma {:induction false} AllZeros(z: string)
    requires forall k :: 0 <= k < |z| ==> z[k] == '0'
    ensures forall k :: 0 <= k < |z| ==> IsDigit(z[k])
    ensures ParseDigits(z) == 0
  {
    if |z| > 0 {
      AllZeros(z[..|z| - 1]);
    }
  }

  function Repeat(c: char, n: nat): (r: string)
    ensures |r| == n && forall k :: 0 <= k < n ==> r[k] == c
  {
    if n == 0 then [] else [c] + Repeat(c, n - 1)
  }

  /** `s.padStart(width, c)`: `s` unchanged when already that long, else `c`s in front up to `width`. */
  function PadStart(s: string, width: nat, c: char): (r: string)
    ensures |r| == if |s| >= width then |s| else width
    ensures r[|r| - |s|..] == s
    ensures forall k :: 0 <= k < |r| - |s| ==> r[k] == c
  {
    if |s| >= width then s else Repeat(c, width - |s|) + s
  }

  /** `s.slice(from)` for a non-negative start. */
  function SliceFrom(s: string, from: nat): (r: string)
    ensures |r| == if from <= |s| then |s| - from else 0
    ensures forall k :: 0 <= k < |r| ==> r[k] == s[from + k]
  {
    if from <= |s| then s[from..] else ""
  }

  /**
   * The characters `trim()` removes and `\s` matches: the ECMAScript
   * WhiteSpace and LineTerminator code points.
   */
  predicate IsWhitespace(c: char): (r: bool)
    ensures c == ' ' || c == '\t' || c == '\n' ==> r
    ensures '0' <= c <= '9' || 'A' <= c <= 'Z' || 'a' <= c <= 'z' || c == '@' || c == '.' ==> !r
  {
    c == ' ' || c == '\t' || c == '\n' || c == '\r' || c == '\U{000B}' || c == '\U{000C}' ||
    c == '\U{00A0}' || c == '\U{1680}' || ('\U{2000}' <= c <= '\U{200A}') ||
    c == '\U{2028}' || c == '\U{2029}' || c == '\U{202F}' || c == '\U{205F}' ||
    c == '\U{3000}' || c == '\U{FEFF}'
  }

  predicate AllWhitespace(s: string) {
    forall k :: 0 <= k < |s| ==> IsWhitespace(s[k])
  }

  function TrimStart(s: string): (r: string)
    ensures |r| <= |s| && r == s[|s| - |r|..]
    ensures forall k :: 0 <= k < |s| - |r| ==> IsWhitespace(s[k])
    ensures |r| > 0 ==> !IsWhitespace(r[0])
  {
    if |s| > 0 && IsWhitespace(s[0]) then
      var r := TrimStart(s[1..]);
      assert forall k :: 1 <= k < |s| ==> s[k] == s[1..][k - 1];
      r
    else s
  }

  function TrimEnd(s: string): (r: string)
    ensures |r| <= |s| && r == s[..|r|]
    ensures AllWhitespace(s[|r|..])
    ensures |r| > 0 ==> !IsWhitespace(r[|r| - 1])
  {
    if |s| > 0 && IsWhitespace(s[|s| - 1]) then
      var r := TrimEnd(s[..|s| - 1]);
      assert s[|r|..] == s[..|s| - 1][|r|..] + [s[|s| - 1]];
      r
    else s
  }

  /** `s.trim()`: `s` without its leading and trailing whitespace. */
  function Trim(s: string): (r: string)
    ensures |r| > 0 ==> !IsWhitespace(r[0]) && !IsWhitespace(r[|r| - 1])
  {
    TrimEnd(TrimStart(s))
  }

  lemma {:induction false} TrimStartBlank(s: string)
    requires AllWhitespace(s)
    ensures TrimStart(s) == ""
  {
    if |s| > 0 {
      TrimStartBlank(s[1..]);
    }
  }

  /** `trimStart` keeps every character from the first non-whitespace one on. */
  lemma {:induction false} TrimStartKeeps(s: string, k: nat)
    requires k < |s| && !IsWhitespace(s[k])
    ensures |TrimStart(s)| >= |s| - k
  {
    if IsWhitespace(s[0]) {
      assert k > 0;
      TrimStartKeeps(s[1..], k - 1);
    }
  }

  /** `trimEnd` keeps every character up to the last non-whitespace one. */
  lemma {:induction false} TrimEndKeeps(s: string, k: nat)
    requires k < |s| && !IsWhitespace(s[k])
    ensures |TrimEnd(s)| > k
  {
    if IsWhitespace(s[|s| - 1]) {
      assert k < |s| - 1;
      TrimEndKeeps(s[..|s| - 1], k);
    }
  }

  /** A string with a non-whitespace character keeps it through `trim()`. */
  lemma {:induction false} TrimKeepsNonBlank(s: string, k: nat)
    requires k < |s| && !IsWhitespace(s[k])
    ensures |Trim(s)| > 0
  {
    var t := TrimStart(s);
    TrimStartKeeps(s, k);
    var k' := k - (|s| - |t|);
    assert t[k'] == s[k];
    TrimEndKeeps(t, k');
  }

  /** `!s.trim()` holds exactly when the string is empty or only whitespace. */
  lemma {:induction false} TrimEmptyIffBlank(s: string)
    ensures Trim(s) == "" <==> AllWhitespace(s)
  {
    if AllWhitespace(s) {
      TrimStartBlank(s);
    } else {
      var k :| 0 <= k < |s| && !IsWhitespace(s[k]);
      TrimKeepsNonBlank(s, k);
    }
  }

  /** `c.toUpperCase()` on the lower-case ASCII letters; other characters are kept. */
  function UpperChar(c: char): (r: char)
    ensures 'a' <= c <= 'z' ==> 'A' <= r <= 'Z' && r as int == c as int - 32
    ensures !('a' <= c <= 'z') ==> r == c
  {
    if 'a' <= c <= 'z' then (c as int - 32) as char else c
  }

  /** `s.charAt(0).toUpperCase() + s.slice(1)`. */
  function Capitalize(s: string): (r: string)
    ensures |r| == |s|
    ensures |s| > 0 ==> r[0] == UpperChar(s[0]) && r[1..] == s[1..]
  {
    if |s| == 0 then "" else [UpperChar(s[0])] + s[1..]
  }

  /**
   * `parseFloat(value) || 0`. The number grammar is not modelled: `parsed` is
   * the number `parseFloat` reads, `None` when it yields NaN (which is falsy).
   */
  function NumberOrZero(parsed: Option<real>): (r: real)
    ensures parsed.None? ==> r == 0.0
    ensures parsed.Some? ==> r == parsed.value
  {
    if parsed.Some? then parsed.value else 0.0
  }
}
