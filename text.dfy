/**
 * The string operations of Go's `strings` and `fmt` packages that the
 * gateway relies on, over Dafny strings (sequences of characters).
 */
module Text {
  import opened Wrappers

  /** `sub` occurs in `s` starting at index `i`. */
  predicate OccursAt(s: string, sub: string, i: int) {
    0 <= i && i + |sub| <= |s| && s[i..i + |sub|] == sub
  }

  /** `strings.Contains(s, sub)`. */
  predicate Contains(s: string, sub: string) {
    exists i | 0 <= i <= |s| :: OccursAt(s, sub, i)
  }

  /**
   * `strings.ReplaceAll(s, pat, repl)` (Go calls them old and new) for a non-empty `pat`: scanning from the
   * left, every occurrence of `pat` that does not overlap an earlier replaced
   * one is replaced by `repl`.
   */
  function ReplaceAll(s: string, pat: string, repl: string): string
    requires |pat| > 0
    decreases |s|
  {
    if |s| < |pat| then s
    else if s[..|pat|] == pat then repl + ReplaceAll(s[|pat|..], pat, repl)
    else [s[0]] + ReplaceAll(s[1..], pat, repl)
  }

  /** How many occurrences `ReplaceAll` replaces. */
  function ReplaceCount(s: string, pat: string): nat
    requires |pat| > 0
    decreases |s|
  {
    if |s| < |pat| then 0
    else if s[..|pat|] == pat then 1 + ReplaceCount(s[|pat|..], pat)
    else ReplaceCount(s[1..], pat)
  }

  lemma OccursInTail(s: string, sub: string, k: nat, i: int)
    requires k <= |s|
    requires OccursAt(s[k..], sub, i)
    ensures OccursAt(s, sub, i + k)
  {
    assert s[k..][i..i + |sub|] == s[i + k..i + k + |sub|];
  }

  /** A string without an occurrence of `pat` comes back unchanged. */
  lemma {:induction false} ReplaceAllAbsent(s: string, pat: string, repl: string)
    requires |pat| > 0
    requires !Contains(s, pat)
    ensures ReplaceAll(s, pat, repl) == s
    ensures ReplaceCount(s, pat) == 0
    decreases |s|
  {
    if |s| < |pat| {
    } else {
      assert s[..|pat|] != pat by {
        if s[..|pat|] == pat { assert OccursAt(s, pat, 0); }
      }
      assert !Contains(s[1..], pat) by {
        forall i | OccursAt(s[1..], pat, i) ensures false {
          OccursInTail(s, pat, 1, i);
        }
      }
      ReplaceAllAbsent(s[1..], pat, repl);
    }
  }

  /** Some occurrence of `pat` in `s` gets replaced exactly when `Contains(s, pat)`. */
  lemma {:induction false} ReplaceCountPositive(s: string, pat: string)
    requires |pat| > 0
    ensures ReplaceCount(s, pat) > 0 <==> Contains(s, pat)
    decreases |s|
  {
    if |s| < |pat| {
      forall i | 0 <= i <= |s|
        ensures !OccursAt(s, pat, i)
      {
      }
    } else if s[..|pat|] == pat {
      assert OccursAt(s, pat, 0);
    } else {
      ReplaceCountPositive(s[1..], pat);
      if ReplaceCount(s[1..], pat) > 0 {
        var i :| OccursAt(s[1..], pat, i);
        OccursInTail(s, pat, 1, i);
      }
      if Contains(s, pat) {
        var i :| 0 <= i <= |s| && OccursAt(s, pat, i);
        assert i != 0;
        assert 1 <= i && i + |pat| <= |s|;
        assert s[1..][i - 1..i - 1 + |pat|] == s[i..i + |pat|];
        assert OccursAt(s[1..], pat, i - 1);
      }
    }
  }

  /**
   * A pattern that ends the string, after a part where its first character
   * never occurs, is the only occurrence replaced.
   */
  lemma {:induction false} ReplaceAllTrailing(u: string, pat: string, repl: string)
    requires |pat| > 0 && pat[0] !in u
    ensures ReplaceAll(u + pat, pat, repl) == u + repl
    decreases |u|
  {
    var s := u + pat;
    if |u| == 0 {
      assert s == pat;
      assert s[|pat|..] == [];
      assert ReplaceAll([], pat, repl) == [];
      assert ReplaceAll(s, pat, repl) == repl + ReplaceAll(s[|pat|..], pat, repl);
    } else {
      assert |s| >= |pat|;
      assert s[..|pat|] != pat by {
        assert s[..|pat|][0] == u[0] && u[0] != pat[0];
      }
      assert ReplaceAll(s, pat, repl) == [s[0]] + ReplaceAll(s[1..], pat, repl);
      assert s[1..] == u[1..] + pat;
      assert pat[0] !in u[1..];
      ReplaceAllTrailing(u[1..], pat, repl);
      assert u == [u[0]] + u[1..];
    }
  }

  /** Each replacement changes the length by `|repl| - |pat|`. */
  lemma {:induction false} ReplaceAllLength(s: string, pat: string, repl: string)
    requires |pat| > 0
    ensures |ReplaceAll(s, pat, repl)| == |s| + ReplaceCount(s, pat) * (|repl| - |pat|)
    decreases |s|
  {
    if |s| < |pat| {
    } else if s[..|pat|] == pat {
      var rest := s[|pat|..];
      ReplaceAllLength(rest, pat, repl);
      var c := ReplaceCount(rest, pat);
      assert (1 + c) * (|repl| - |pat|) == (|repl| - |pat|) + c * (|repl| - |pat|);
    } else {
      ReplaceAllLength(s[1..], pat, repl);
    }
  }

  /**
   * The index of the first `c` in `s`, if any (the first step of
   * `strings.SplitN(s, sep, 2)` for a one-character separator).
   */
  function IndexOf(s: string, c: char): (r: Option<nat>)
    ensures r.Some? ==> r.value < |s| && s[r.value] == c && c !in s[..r.value]
    ensures r.None? <==> c !in s
  {
    if |s| == 0 then None
    else if s[0] == c then Some(0)
    else
      match IndexOf(s[1..], c)
      case None => None
      case Some(i) =>
        assert s[..i + 1] == [s[0]] + s[1..][..i];
        Some(i + 1)
  }

  /** ASCII lower-casing of one character. */
  function LowerAscii(c: char): char {
    if 'A' <= c <= 'Z' then (c as int - 'A' as int + 'a' as int) as char else c
  }

  /**
   * `strings.EqualFold(a, b)` restricted to ASCII letters: the strings have the
   * same length and agree character by character up to letter case.
   */
  predicate EqualFold(a: string, b: string) {
    |a| == |b| && forall i :: 0 <= i < |a| ==> LowerAscii(a[i]) == LowerAscii(b[i])
  }

  // ---- decimal rendering (`fmt.Sprintf("%d", n)`) and its inverse ----

  function DigitChar(d: int): char
    requires 0 <= d < 10
  {
    ('0' as int + d) as char
  }

  predicate IsDigit(c: char) {
    '0' <= c <= '9'
  }

  function DigitValue(c: char): int
    requires IsDigit(c)
  {
    c as int - '0' as int
  }

  /** The decimal digits of `n`, most significant first, with no leading zero. */
  function NatDigits(n: nat): (s: string)
    ensures |s| > 0
    ensures forall i :: 0 <= i < |s| ==> IsDigit(s[i])
    ensures |s| > 1 ==> s[0] != '0'
  {
    if n < 10 then [DigitChar(n)] else NatDigits(n / 10) + [DigitChar(n % 10)]
  }

  /** `fmt.Sprintf("%d", n)`. */
  function Itoa(n: int): (s: string)
    ensures |s| > 0
    ensures n < 0 <==> s[0] == '-'
  {
    if n < 0 then "-" + NatDigits(-n) else NatDigits(n)
  }

  /** The value of a string of decimal digits. */
  function ParseDigits(s: string): int
    requires forall i :: 0 <= i < |s| ==> IsDigit(s[i])
  {
    if |s| == 0 then 0 else 10 * ParseDigits(s[..|s| - 1]) + DigitValue(s[|s| - 1])
  }

  /** Reads back what `Itoa` renders: an optional `-` followed by digits. */
  function ParseInt(s: string): Option<int> {
    if |s| > 0 && s[0] == '-' && forall i :: 1 <= i < |s| ==> IsDigit(s[i]) then
      Some(-ParseDigits(s[1..]))
    else if forall i :: 0 <= i < |s| ==> IsDigit(s[i]) then
      Some(ParseDigits(s))
    else None
  }

  lemma {:induction false} ParseNatDigits(n: nat)
    ensures ParseDigits(NatDigits(n)) == n
  {
    if n >= 10 {
      var s := NatDigits(n);
      assert s[..|s| - 1] == NatDigits(n / 10);
      ParseNatDigits(n / 10);
    }
  }

  /** Rendering a number in decimal loses nothing: it reads back as the same number. */
  lemma ItoaRoundTrip(n: int)
    ensures ParseInt(Itoa(n)) == Some(n)
  {
    if n < 0 {
      assert Itoa(n)[1..] == NatDigits(-n);
      ParseNatDigits(-n);
    } else {
      ParseNatDigits(n);
    }
  }
}
