/**
 * The Kotlin `String` / `Char` operations the core relies on:
 * `Char.isWhitespace`, `isBlank`, `trim`, `replace(" ", "_")`, `lowercase` and
 * `Int.toString`, with the parser that inverts the last one.
 */
module Text {

  /**
   * Kotlin's `Char.isWhitespace` on the JVM: `Character.isWhitespace` or
   * `Character.isSpaceChar` (the Unicode space, line and paragraph separators,
   * the ASCII control whitespace and the four information separators).
   */
  predicate IsWhitespace(c: char)
  {
    || '\U{9}' <= c <= '\U{D}'          // tab, line feed, vertical tab, form feed, carriage return
    || '\U{1C}' <= c <= ' '              // the four information separators and the space
    || c == '\U{A0}' || c == '\U{1680}'
    || '\U{2000}' <= c <= '\U{200A}'    // the typographic spaces
    || c == '\U{2028}' || c == '\U{2029}' // line and paragraph separators
    || c == '\U{202F}' || c == '\U{205F}' || c == '\U{3000}'
  }

  /** Every character of `s` satisfies `p`. */
  predicate AllBy(s: string, p: char -> bool)
  {
    forall k :: 0 <= k < |s| ==> p(s[k])
  }

  /** Kotlin's `isBlank`: empty, or only whitespace. */
  predicate IsBlank(s: string)
  {
    AllBy(s, IsWhitespace)
  }

  /** `s` without its leading characters satisfying `p` (Kotlin's `trimStart(predicate)`): a suffix not starting with one. */
  function TrimStartBy(s: string, p: char -> bool): (r: string)
    ensures |r| <= |s| && r == s[|s| - |r|..]
    ensures |r| > 0 ==> !p(r[0])
  {
    if |s| > 0 && p(s[0]) then TrimStartBy(s[1..], p) else s
  }

  /** `s` without its trailing characters satisfying `p` (Kotlin's `trimEnd(predicate)`): a prefix not ending with one. */
  function TrimEndBy(s: string, p: char -> bool): (r: string)
    ensures |r| <= |s| && r == s[..|r|]
    ensures |r| > 0 ==> !p(r[|r| - 1])
  {
    if |s| > 0 && p(s[|s| - 1]) then TrimEndBy(s[..|s| - 1], p) else s
  }

  /** What `TrimStartBy` cuts off consists of `p`-characters only. */
  lemma {:induction false} TrimStartByCutsOnly(s: string, p: char -> bool)
    ensures forall k :: 0 <= k < |s| - |TrimStartBy(s, p)| ==> p(s[k])
  {
    if |s| > 0 && p(s[0]) {
      TrimStartByCutsOnly(s[1..], p);
      forall k | 1 <= k < |s| - |TrimStartBy(s, p)| ensures p(s[k]) {
        assert s[k] == s[1..][k - 1];
      }
    }
  }

  /** What `TrimEndBy` cuts off consists of `p`-characters only. */
  lemma {:induction false} TrimEndByCutsOnly(s: string, p: char -> bool)
    ensures forall k :: |TrimEndBy(s, p)| <= k < |s| ==> p(s[k])
  {
    if |s| > 0 && p(s[|s| - 1]) {
      TrimEndByCutsOnly(s[..|s| - 1], p);
      forall k | |TrimEndBy(s, p)| <= k < |s| - 1 ensures p(s[k]) {
        assert s[k] == s[..|s| - 1][k];
      }
    }
  }

  /** `s` without its leading and trailing characters satisfying `p` (Kotlin's `trim(predicate)`). */
  function TrimBy(s: string, p: char -> bool): string
  {
    TrimEndBy(TrimStartBy(s, p), p)
  }

  /** Kotlin's `trim()`: `s` without its leading and trailing whitespace. */
  function Trim(s: string): string
  {
    TrimBy(s, IsWhitespace)
  }

  /** A prefix whose every position satisfies `p`. */
  lemma AllByPrefix(s: string, n: nat, p: char -> bool)
    requires n <= |s|
    requires forall k :: 0 <= k < n ==> p(s[k])
    ensures AllBy(s[..n], p)
  {
    forall k | 0 <= k < n ensures p(s[..n][k]) {
      assert s[..n][k] == s[k];
    }
  }

  /** The part of `s` after the first `a + m` characters, when `s[a..]` satisfies `p` from position `m` on. */
  lemma AllByShiftedSuffix(s: string, a: nat, m: nat, p: char -> bool)
    requires a + m <= |s|
    requires forall k :: m <= k < |s[a..]| ==> p(s[a..][k])
    ensures AllBy(s[a + m..], p)
  {
    var tail := s[a + m..];
    forall k | 0 <= k < |tail| ensures p(tail[k]) {
      assert tail[k] == s[a..][m + k];
    }
  }

  /** Everything trimming cuts off, on either side, satisfies `p`. */
  lemma TrimByCutsOnly(s: string, p: char -> bool)
    ensures AllBy(s[..|s| - |TrimStartBy(s, p)|], p)
    ensures AllBy(s[|s| - |TrimStartBy(s, p)| + |TrimBy(s, p)|..], p)
  {
    var t := TrimStartBy(s, p);
    var a := |s| - |t|;
    TrimStartByCutsOnly(s, p);
    AllByPrefix(s, a, p);
    TrimEndByCutsOnly(t, p);
    AllByShiftedSuffix(s, a, |TrimEndBy(t, p)|, p);
  }

  /** A non-empty trimmed string neither starts nor ends with a `p`-character. */
  lemma TrimByEnds(s: string, p: char -> bool)
    ensures var r := TrimBy(s, p); |r| > 0 ==> !p(r[0]) && !p(r[|r| - 1])
  {
    var t := TrimStartBy(s, p);
    var r := TrimBy(s, p);
    if |r| > 0 {
      assert r == t[..|r|];
      assert r[0] == t[0];
    }
  }

  /** Trimming yields the empty string exactly when every character satisfies `p`. */
  lemma TrimByEmptyIffAll(s: string, p: char -> bool)
    ensures |TrimBy(s, p)| == 0 <==> AllBy(s, p)
  {
    TrimByCutsOnly(s, p);
  }

  /** A trimmed string is blank exactly when the original is. */
  lemma TrimKeepsBlankness(s: string)
    ensures IsBlank(Trim(s)) <==> IsBlank(s)
  {
    TrimByEmptyIffAll(s, IsWhitespace);
    TrimByEnds(s, IsWhitespace);
  }

  /** Kotlin's `Char.lowercaseChar` restricted to ASCII: 'A'..'Z' map to 'a'..'z'. */
  function LowerChar(c: char): char
  {
    if 'A' <= c <= 'Z' then (c as int + 32) as char else c
  }

  /** `lowercase()`, character by character. */
  function Lowercase(s: string): (r: string)
    ensures |r| == |s|
    ensures forall k :: 0 <= k < |s| ==> r[k] == LowerChar(s[k])
  {
    if |s| == 0 then [] else [LowerChar(s[0])] + Lowercase(s[1..])
  }

  /** `replace(from, to)` with one-character arguments: every `old` becomes `new`. */
  function ReplaceChar(s: string, from: char, to: char): (r: string)
    ensures |r| == |s|
    ensures forall k :: 0 <= k < |s| ==> r[k] == (if s[k] == from then to else s[k])
  {
    if |s| == 0 then [] else [if s[0] == from then to else s[0]] + ReplaceChar(s[1..], from, to)
  }

  predicate IsDigit(c: char)
  {
    '0' <= c <= '9'
  }

  function DigitChar(d: nat): (c: char)
    requires d < 10
    ensures IsDigit(c)
  {
    ('0' as int + d) as char
  }

  function DigitValue(c: char): int
  {
    c as int - '0' as int
  }

  /** Decimal digits of `n`, most significant first, without leading zeros. */
  function NatToString(n: nat): (r: string)
    ensures |r| > 0
    ensures forall k :: 0 <= k < |r| ==> IsDigit(r[k])
    ensures r[0] == '0' ==> n == 0
  {
    if n < 10 then [DigitChar(n)] else NatToString(n / 10) + [DigitChar(n % 10)]
  }

  /** Kotlin's `Int.toString()`: a '-' sign for negative values, then the digits. */
  function IntToString(n: int): (r: string)
    ensures |r| > 0
    ensures r[0] == '-' <==> n < 0
  {
    if n < 0 then "-" + NatToString(-n) else NatToString(n)
  }

  /** Value of a string of decimal digits, most significant first. */
  function ParseNat(s: string): int
  {
    if |s| == 0 then 0 else 10 * ParseNat(s[..|s| - 1]) + DigitValue(s[|s| - 1])
  }

  /** Value of an optionally '-'-signed decimal string. */
  function ParseInt(s: string): int
  {
    if |s| > 0 && s[0] == '-' then -ParseNat(s[1..]) else ParseNat(s)
  }

  lemma {:induction false} ParseNatOfNatToString(n: nat)
    ensures ParseNat(NatToString(n)) == n
  {
    if n >= 10 {
      var t := NatToString(n / 10);
      var r := t + [DigitChar(n % 10)];
      assert r[..|r| - 1] == t;
      ParseNatOfNatToString(n / 10);
    }
  }

  /** Parsing inverts `Int.toString()`. */
  lemma ParseIntOfIntToString(n: int)
    ensures ParseInt(IntToString(n)) == n
  {
    if n < 0 {
      assert IntToString(n)[1..] == NatToString(-n);
      ParseNatOfNatToString(-n);
    } else {
      ParseNatOfNatToString(n);
    }
  }

  /** Distinct integers have distinct decimal strings. */
  lemma IntToStringInjective(a: int, b: int)
    requires IntToString(a) == IntToString(b)
    ensures a == b
  {
    ParseIntOfIntToString(a);
    ParseIntOfIntToString(b);
  }
}
