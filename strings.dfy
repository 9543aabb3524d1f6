/** The PHP string functions the core relies on: `strlen`, `strtolower`,
    `strpos`, `str_replace` and the decimal rendering of integers. A PHP
    string is a byte string; here it is a sequence of Unicode scalar values,
    and `strlen` counts the bytes of its UTF-8 encoding. */
module Strings {

  /** The number of bytes UTF-8 uses for `c`. */
  function Utf8Width(c: char): (w: nat)
    ensures 1 <= w <= 4
  {
    if c as int < 0x80 then 1
    else if c as int < 0x800 then 2
    else if c as int < 0x10000 then 3
    else 4
  }

  /** `strlen($s)`: the length of `s` in bytes. */
  function ByteLength(s: string): (n: nat)
    ensures |s| <= n <= 4 * |s|
  {
    if s == [] then 0 else Utf8Width(s[0]) + ByteLength(s[1..])
  }

  /** `strlen` is additive over concatenation. */
  lemma {:induction false} ByteLengthAppend(s: string, t: string)
    ensures ByteLength(s + t) == ByteLength(s) + ByteLength(t)
  {
    if s != [] {
      assert (s + t)[0] == s[0] && (s + t)[1..] == s[1..] + t;
      ByteLengthAppend(s[1..], t);
    } else {
      assert s + t == t;
    }
  }

  /** `pat` occurs in `s` starting at index `i`. */
  predicate OccursAt(s: string, pat: string, i: int) {
    0 <= i && i + |pat| <= |s| && s[i..i + |pat|] == pat
  }

  /** `strpos($s, $pat) !== false`. */
  predicate Contains(s: string, pat: string) {
    exists i | 0 <= i <= |s| - |pat| :: OccursAt(s, pat, i)
  }

  /** Moving one character into the scanned prefix. */
  lemma ContainsTail(s: string, pat: string)
    requires s != []
    ensures Contains(s, pat) <==> OccursAt(s, pat, 0) || Contains(s[1..], pat)
  {
    if Contains(s, pat) && !OccursAt(s, pat, 0) {
      var i :| 0 <= i <= |s| - |pat| && OccursAt(s, pat, i);
      assert s[1..][i - 1..i - 1 + |pat|] == s[i..i + |pat|];
      assert OccursAt(s[1..], pat, i - 1);
    }
    if Contains(s[1..], pat) {
      var i :| 0 <= i <= |s[1..]| - |pat| && OccursAt(s[1..], pat, i);
      assert s[i + 1..i + 1 + |pat|] == s[1..][i..i + |pat|];
      assert OccursAt(s, pat, i + 1);
    }
  }

  /** `str_replace($pat, $rep, $s)`: scanning left to right, every occurrence
      of `pat` is replaced by `rep` and the scan resumes after it, so the
      occurrences replaced do not overlap and the text `rep` brings in is not
      scanned again. An empty `pat` leaves `s` as it is. */
  function ReplaceAll(s: string, pat: string, rep: string): string
    decreases |s|
  {
    if pat == [] || |s| < |pat| then s
    else if s[..|pat|] == pat then rep + ReplaceAll(s[|pat|..], pat, rep)
    else [s[0]] + ReplaceAll(s[1..], pat, rep)
  }

  /** The number of occurrences `str_replace` replaces (its `$count`). */
  function Occurrences(s: string, pat: string): nat
    decreases |s|
  {
    if pat == [] || |s| < |pat| then 0
    else if s[..|pat|] == pat then 1 + Occurrences(s[|pat|..], pat)
    else Occurrences(s[1..], pat)
  }

  /** `str_replace` finds nothing exactly when `pat` does not occur. */
  lemma {:induction false} OccurrencesZero(s: string, pat: string)
    requires pat != []
    ensures Occurrences(s, pat) == 0 <==> !Contains(s, pat)
    decreases |s|
  {
    if |s| < |pat| {
      assert !Contains(s, pat);
    } else {
      ContainsTail(s, pat);
      if s[..|pat|] != pat {
        OccurrencesZero(s[1..], pat);
      } else {
        assert OccursAt(s, pat, 0);
      }
    }
  }

  /** A pattern that does not occur is not replaced. */
  lemma {:induction false} ReplaceAllAbsent(s: string, pat: string, rep: string)
    requires !Contains(s, pat)
    ensures ReplaceAll(s, pat, rep) == s
    decreases |s|
  {
    if pat != [] && |s| >= |pat| {
      ContainsTail(s, pat);
      assert s[..|pat|] != pat by {
        assert !OccursAt(s, pat, 0);
      }
      ReplaceAllAbsent(s[1..], pat, rep);
    }
  }

  /** Replacing a pattern by itself changes nothing. */
  lemma {:induction false} ReplaceAllSelf(s: string, pat: string)
    ensures ReplaceAll(s, pat, pat) == s
    decreases |s|
  {
    if pat != [] && |s| >= |pat| {
      if s[..|pat|] == pat {
        ReplaceAllSelf(s[|pat|..], pat);
        assert s == s[..|pat|] + s[|pat|..];
      } else {
        ReplaceAllSelf(s[1..], pat);
        assert s == [s[0]] + s[1..];
      }
    }
  }

  /** Each replacement changes the length by `|rep| - |pat|`. */
  lemma {:induction false} ReplaceAllLength(s: string, pat: string, rep: string)
    ensures |ReplaceAll(s, pat, rep)| == |s| + Occurrences(s, pat) * (|rep| - |pat|)
    decreases |s|
  {
    if pat != [] && |s| >= |pat| {
      if s[..|pat|] == pat {
        ReplaceAllLength(s[|pat|..], pat, rep);
        var n := Occurrences(s[|pat|..], pat);
        assert (1 + n) * (|rep| - |pat|) == n * (|rep| - |pat|) + (|rep| - |pat|);
      } else {
        ReplaceAllLength(s[1..], pat, rep);
      }
    }
  }

  /** The three parts of a concatenation can be read back at their offsets. */
  lemma Concat3(a: string, b: string, c: string)
    ensures var s := a + b + c;
      && s[..|a|] == a && s[|a|..|a| + |b|] == b && s[|a| + |b|..] == c
      && s[..|a| + |b|] == a + b
  {
    var s := a + b + c;
    assert s == a + (b + c);
  }

  /** `strtolower` on one character: PHP 8 folds ASCII letters only. */
  function LowerChar(c: char): (d: char)
    ensures !('A' <= d <= 'Z')
    ensures !('A' <= c <= 'Z') ==> d == c
    ensures 'A' <= c <= 'Z' ==> d as int == c as int + 32
  {
    if 'A' <= c <= 'Z' then (c as int + 32) as char else c
  }

  /** `strtolower($s)`. */
  function AsciiLower(s: string): (r: string)
    ensures |r| == |s|
    ensures forall i :: 0 <= i < |s| ==> r[i] == LowerChar(s[i])
  {
    seq(|s|, i requires 0 <= i < |s| => LowerChar(s[i]))
  }

  /** Lower-casing twice is lower-casing once, and leaves no ASCII capital. */
  lemma AsciiLowerIdempotent(s: string)
    ensures AsciiLower(AsciiLower(s)) == AsciiLower(s)
    ensures forall i :: 0 <= i < |s| ==> !('A' <= AsciiLower(s)[i] <= 'Z')
  {
  }

  function DigitChar(d: nat): (c: char)
    requires d < 10
    ensures '0' <= c <= '9' && c as int - '0' as int == d
  {
    ('0' as int + d) as char
  }

  predicate IsDigits(s: string) {
    forall i :: 0 <= i < |s| ==> '0' <= s[i] <= '9'
  }

  /** `"{$n}"` for a non-negative integer: its decimal digits, without
      leading zeros. */
  function Decimal(n: nat): (r: string)
    ensures r != [] && IsDigits(r)
    ensures r[0] == '0' ==> n == 0 && r == "0"
  {
    if n < 10 then [DigitChar(n)] else Decimal(n / 10) + [DigitChar(n % 10)]
  }

  /** The number a string of decimal digits denotes. */
  function DecimalValue(s: string): nat
    requires IsDigits(s)
  {
    if s == [] then 0
    else 10 * DecimalValue(s[..|s| - 1]) + (s[|s| - 1] as int - '0' as int)
  }

  /** The decimal rendering loses nothing: the number can be read back. */
  lemma {:induction false} DecimalRoundTrip(n: nat)
    ensures DecimalValue(Decimal(n)) == n
  {
    if n >= 10 {
      DecimalRoundTrip(n / 10);
      var r := Decimal(n);
      assert r[..|r| - 1] == Decimal(n / 10);
    }
  }
}
