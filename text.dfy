/** String helpers with the semantics of the JavaScript built-ins the site uses. */
module Text {

  /** `String.prototype.toLowerCase` restricted to ASCII letters. */
  function LowerChar(c: char): char
  {
    if 'A' <= c <= 'Z' then (c as int + 32) as char else c
  }

  function Lower(s: string): (r: string)
    ensures |r| == |s|
    ensures forall i :: 0 <= i < |s| ==> r[i] == LowerChar(s[i])
  {
    if s == [] then [] else [LowerChar(s[0])] + Lower(s[1..])
  }

  /** `String.prototype.toUpperCase` restricted to ASCII letters. */
  function UpperChar(c: char): char
  {
    if 'a' <= c <= 'z' then (c as int - 32) as char else c
  }

  /** Lower-casing twice is lower-casing once. */
  lemma LowerIdempotent(s: string)
    ensures Lower(Lower(s)) == Lower(s)
  {
  }

  /** `pat` occurs in `s` at position `i`. */
  predicate OccursAt(s: string, pat: string, i: int)
  {
    0 <= i && i + |pat| <= |s| && s[i..i + |pat|] == pat
  }

  /** `s.includes(sub)`. */
  predicate Contains(s: string, sub: string)
  {
    exists i | 0 <= i <= |s| - |sub| :: OccursAt(s, sub, i)
  }

  /** No occurrence of `pat` in `s` starts before position `k`. */
  predicate NoOccurrenceBefore(s: string, pat: string, k: int)
  {
    forall j | 0 <= j < k :: !OccursAt(s, pat, j)
  }

  /** `parts.join(sep)`. */
  function Join(parts: seq<string>, sep: string): string
  {
    if parts == [] then ""
    else if |parts| == 1 then parts[0]
    else parts[0] + sep + Join(parts[1..], sep)
  }

  function DigitChar(d: nat): (c: char)
    requires d < 10
    ensures '0' <= c <= '9'
  {
    "0123456789"[d]
  }

  predicate IsDigit(c: char) { '0' <= c <= '9' }

  /** Decimal rendering of a natural number, as `${n}` renders it. */
  function NatToString(n: nat): (r: string)
    ensures |r| > 0
    ensures forall i :: 0 <= i < |r| ==> IsDigit(r[i])
    ensures n < 10 <==> |r| == 1
  {
    if n < 10 then [DigitChar(n)] else NatToString(n / 10) + [DigitChar(n % 10)]
  }

  /** Different numbers are rendered differently. */
  lemma {:induction false} NatToStringInjective(a: nat, b: nat)
    requires NatToString(a) == NatToString(b)
    ensures a == b
  {
    var ra, rb := NatToString(a), NatToString(b);
    if a < 10 || b < 10 {
      assert a < 10 && b < 10;
      assert "0123456789"[a] == ra[0] == rb[0] == "0123456789"[b];
    } else {
      assert ra[|ra| - 1] == DigitChar(a % 10);
      assert rb[|rb| - 1] == DigitChar(b % 10);
      assert a % 10 == b % 10;
      assert NatToString(a / 10) == ra[..|ra| - 1] == rb[..|rb| - 1] == NatToString(b / 10);
      NatToStringInjective(a / 10, b / 10);
    }
  }

  /** `s.replace(pat, rep)` with a string pattern: only the first occurrence is replaced. */
  function ReplaceFirst(s: string, pat: string, rep: string): string
    requires |pat| > 0
    decreases |s|
  {
    if |s| < |pat| then s
    else if s[..|pat|] == pat then rep + s[|pat|..]
    else [s[0]] + ReplaceFirst(s[1..], pat, rep)
  }

  /** `s.replace(/pat/g, rep)` for a pattern without regex metacharacters:
      every occurrence, scanning left to right without overlap. */
  function ReplaceAll(s: string, pat: string, rep: string): string
    requires |pat| > 0
    decreases |s|
  {
    if |s| < |pat| then s
    else if s[..|pat|] == pat then rep + ReplaceAll(s[|pat|..], pat, rep)
    else [s[0]] + ReplaceAll(s[1..], pat, rep)
  }

  lemma NoOccurrenceShift(c: char, s: string, pat: string, k: int)
    requires NoOccurrenceBefore([c] + s, pat, k + 1)
    ensures NoOccurrenceBefore(s, pat, k)
  {
    forall j | 0 <= j < k ensures !OccursAt(s, pat, j) {
      assert !OccursAt([c] + s, pat, j + 1);
      if j + |pat| <= |s| {
        assert ([c] + s)[j + 1..j + 1 + |pat|] == s[j..j + |pat|];
      }
    }
  }

  /** Replacing the first occurrence, found at position |a|, leaves the rest untouched. */
  lemma {:induction false} ReplaceFirstAt(a: string, pat: string, rep: string, b: string)
    requires |pat| > 0
    requires NoOccurrenceBefore(a + pat + b, pat, |a|)
    ensures ReplaceFirst(a + pat + b, pat, rep) == a + rep + b
    decreases |a|
  {
    var s := a + pat + b;
    if a == [] {
      assert s[..|pat|] == pat;
      assert s[|pat|..] == b;
    } else {
      assert !OccursAt(s, pat, 0);
      assert s[..|pat|] != pat;
      assert s[1..] == a[1..] + pat + b;
      assert s == [a[0]] + s[1..];
      NoOccurrenceShift(a[0], s[1..], pat, |a| - 1);
      ReplaceFirstAt(a[1..], pat, rep, b);
    }
  }

  /** A string without the pattern is left as it is by a single replacement. */
  lemma {:induction false} ReplaceFirstAbsent(s: string, pat: string, rep: string)
    requires |pat| > 0
    requires NoOccurrenceBefore(s, pat, |s|)
    ensures ReplaceFirst(s, pat, rep) == s
    decreases |s|
  {
    if |s| >= |pat| {
      assert !OccursAt(s, pat, 0);
      assert s == [s[0]] + s[1..];
      NoOccurrenceShift(s[0], s[1..], pat, |s| - 1);
      ReplaceFirstAbsent(s[1..], pat, rep);
    }
  }

  /** Replacing every occurrence: the first one, at |a|, is replaced, and the
      replacement carries on in the remainder `b`. */
  lemma {:induction false} ReplaceAllAt(a: string, pat: string, rep: string, b: string)
    requires |pat| > 0
    requires NoOccurrenceBefore(a + pat + b, pat, |a|)
    ensures ReplaceAll(a + pat + b, pat, rep) == a + rep + ReplaceAll(b, pat, rep)
    decreases |a|
  {
    var s := a + pat + b;
    if a == [] {
      assert s[..|pat|] == pat;
      assert s[|pat|..] == b;
    } else {
      assert !OccursAt(s, pat, 0);
      assert s[..|pat|] != pat;
      assert s[1..] == a[1..] + pat + b;
      assert s == [a[0]] + s[1..];
      NoOccurrenceShift(a[0], s[1..], pat, |a| - 1);
      ReplaceAllAt(a[1..], pat, rep, b);
    }
  }

  /** A string without the pattern is left as it is by a global replacement. */
  lemma {:induction false} ReplaceAllAbsent(s: string, pat: string, rep: string)
    requires |pat| > 0
    requires NoOccurrenceBefore(s, pat, |s|)
    ensures ReplaceAll(s, pat, rep) == s
    decreases |s|
  {
    if |s| >= |pat| {
      assert !OccursAt(s, pat, 0);
      assert s == [s[0]] + s[1..];
      NoOccurrenceShift(s[0], s[1..], pat, |s| - 1);
      ReplaceAllAbsent(s[1..], pat, rep);
    }
  }

  /** Global replacement of a single character by a text free of that character
      removes it completely. */
  lemma {:induction false} ReplaceAllCharRemoves(s: string, c: char, rep: string)
    requires c !in rep
    ensures c !in ReplaceAll(s, [c], rep)
    decreases |s|
  {
    if |s| >= 1 {
      ReplaceAllCharRemoves(s[1..], c, rep);
      assert s[..1] == [s[0]];
    }
  }

  /** A pattern cannot start inside a prefix that lacks its first character. */
  lemma FirstCharAbsent(a: string, rest: string, pat: string)
    requires |pat| > 0 && pat[0] !in a
    ensures NoOccurrenceBefore(a + rest, pat, |a|)
  {
    forall j | 0 <= j < |a| ensures !OccursAt(a + rest, pat, j) {
      if j + |pat| <= |a + rest| {
        assert (a + rest)[j..j + |pat|][0] == a[j] != pat[0];
      }
    }
  }

  /** The text after the last `c` in `s`: the last element of `s.split(c)`. */
  function AfterLast(s: string, c: char): (r: string)
    ensures c !in r
    ensures |r| <= |s|
  {
    if s == [] then []
    else if s[|s| - 1] == c then []
    else AfterLast(s[..|s| - 1], c) + [s[|s| - 1]]
  }

  /** What follows the last separator is the final segment. */
  lemma {:induction false} AfterLastSegment(p: string, c: char, d: string)
    requires c !in d
    ensures AfterLast(p + [c] + d, c) == d
    decreases |d|
  {
    if d == [] {
      assert p + [c] + d == p + [c];
    } else {
      var s := p + [c] + d;
      assert s[..|s| - 1] == p + [c] + d[..|d| - 1];
      AfterLastSegment(p, c, d[..|d| - 1]);
    }
  }

  /** Without the separator the whole text is one segment. */
  lemma {:induction false} AfterLastNone(s: string, c: char)
    requires c !in s
    ensures AfterLast(s, c) == s
    decreases |s|
  {
    if s != [] {
      AfterLastNone(s[..|s| - 1], c);
    }
  }
}
