// Python string operations the agent relies on: `in`, `startswith`, `strip`,
// `replace`, `split`, `join` and `str(int)`, over `seq<char>`.
module Strings {

  /** The characters for which Python's `str.isspace()` holds: those that
      `str.strip()` removes and the regex class `\s` matches. */
  predicate IsSpace(c: char) {
    var n := c as int;
    (9 <= n <= 13) || (28 <= n <= 32) || n == 0x85 || n == 0xA0 || n == 0x1680
    || (0x2000 <= n <= 0x200A) || n == 0x2028 || n == 0x2029 || n == 0x202F
    || n == 0x205F || n == 0x3000
  }

  /** Python's `str.lower()` on the ASCII and Latin-1 letters. */
  function LowerChar(c: char): char {
    var n := c as int;
    if 'A' <= c <= 'Z' || (0xC0 <= n <= 0xDE && n != 0xD7) then (n + 32) as char else c
  }

  function Lower(s: string): (r: string)
    ensures |r| == |s|
    ensures forall i | 0 <= i < |s| :: r[i] == LowerChar(s[i])
  {
    if |s| == 0 then "" else [LowerChar(s[0])] + Lower(s[1..])
  }

  predicate StartsWith(s: string, p: string) {
    |p| <= |s| && s[..|p|] == p
  }

  predicate EndsWith(s: string, p: string) {
    |p| <= |s| && s[|s| - |p|..] == p
  }

  /** `p` occurs in `s` starting at index `i`. */
  predicate OccursAt(s: string, p: string, i: int) {
    0 <= i <= |s| - |p| && s[i..i + |p|] == p
  }

  /** `p in s` for Python strings. */
  predicate Contains(s: string, p: string) {
    exists i | 0 <= i <= |s| - |p| :: OccursAt(s, p, i)
  }

  lemma ContainsInfix(a: string, p: string, b: string)
    ensures Contains(a + p + b, p)
  {
    assert OccursAt(a + p + b, p, |a|);
  }

  /** What a string contains, it still contains with more text after it. */
  lemma ContainsMore(s: string, p: string, t: string)
    requires Contains(s, p)
    ensures Contains(s + t, p)
  {
    var i :| 0 <= i <= |s| - |p| && OccursAt(s, p, i);
    assert (s + t)[i..i + |p|] == s[i..i + |p|];
    assert OccursAt(s + t, p, i);
  }

  /** A string ends with, and so contains, its last two parts together. */
  lemma ContainsTail(a: string, b: string, c: string)
    ensures Contains(a + b + c, b + c)
  {
    assert (a + b + c)[|a|..|a| + |b + c|] == b + c;
    assert OccursAt(a + b + c, b + c, |a|);
  }

  /** A string contains its last part. */
  lemma ContainsEnd(a: string, p: string)
    ensures Contains(a + p, p)
  {
    assert (a + p)[|a|..|a| + |p|] == p;
    assert OccursAt(a + p, p, |a|);
  }

  /** A string ends with its last part. */
  lemma EndsWithTail(a: string, b: string)
    ensures EndsWith(a + b, b)
  {
    assert (a + b)[|a|..] == b;
  }

  /** The same with the contained part made of three. */
  lemma ContainsTail3(a: string, b: string, c: string, d: string)
    ensures Contains(a + b + c + d, b + c + d)
  {
    assert a + b + c + d == a + (b + c) + d;
    ContainsTail(a, b + c, d);
  }

  /** A string starts with its first part. */
  lemma StartsWithHead(a: string, b: string)
    ensures StartsWith(a + b, a)
  {
    assert (a + b)[..|a|] == a;
  }

  /** What a string starts with, it still starts with with more text after it. */
  lemma StartsWithMore(s: string, p: string, t: string)
    requires StartsWith(s, p)
    ensures StartsWith(s + t, p)
  {
    assert (s + t)[..|p|] == s[..|p|];
  }

  lemma ContainsOfStartsWith(s: string, p: string)
    requires StartsWith(s, p)
    ensures Contains(s, p)
  {
    assert OccursAt(s, p, 0);
  }

  /** A character in neither part is not in their concatenation. */
  lemma NotInConcat(c: char, a: string, b: string)
    requires c !in a && c !in b
    ensures c !in a + b
  {
  }

  /** A string that lacks one of the characters of `p` cannot contain `p`. */
  lemma NotContainsMissingChar(s: string, p: string, c: char)
    requires c in p && c !in s
    ensures !Contains(s, p)
  {
    var k :| 0 <= k < |p| && p[k] == c;
    forall i | 0 <= i <= |s| - |p|
      ensures !OccursAt(s, p, i)
    {
      assert s[i..i + |p|][k] == s[i + k] != c;
    }
  }

  /** An occurrence of `p` in `x + [c] + y` that is in neither part must cover the
      separator `c`, which is impossible when `p` does not contain `c`. */
  lemma ContainsSplitOnChar(x: string, c: char, y: string, p: string)
    requires c !in p
    requires Contains(x + [c] + y, p)
    ensures Contains(x, p) || Contains(y, p)
  {
    var s := x + [c] + y;
    var i :| 0 <= i <= |s| - |p| && OccursAt(s, p, i);
    assert s[|x|] == c;
    assert forall k | 0 <= k < |p| :: p[k] != c;
    assert forall j | i <= j < i + |p| :: s[j] == p[j - i];
    if i + |p| <= |x| {
      assert x[i..i + |p|] == s[i..i + |p|];
      assert OccursAt(x, p, i);
    } else if i > |x| {
      var j := i - |x| - 1;
      assert y[j..j + |p|] == s[i..i + |p|];
      assert OccursAt(y, p, j);
    } else {
      assert false;
    }
  }

  /** No two consecutive `{` characters. */
  predicate NoDoubleOpen(s: string) {
    forall i | 0 <= i < |s| - 1 :: !(s[i] == '{' && s[i + 1] == '{')
  }

  lemma NoDoubleOpenConcat(a: string, b: string)
    requires NoDoubleOpen(a) && NoDoubleOpen(b)
    requires !(|a| > 0 && |b| > 0 && a[|a| - 1] == '{' && b[0] == '{')
    ensures NoDoubleOpen(a + b)
  {
    var s := a + b;
    forall i | 0 <= i < |s| - 1
      ensures !(s[i] == '{' && s[i + 1] == '{')
    {
      if i + 1 < |a| {
        assert s[i] == a[i] && s[i + 1] == a[i + 1];
      } else if i >= |a| {
        assert s[i] == b[i - |a|] && s[i + 1] == b[i - |a| + 1];
      } else {
        assert s[i] == a[|a| - 1] && s[i + 1] == b[0];
      }
    }
  }

  /** Without two consecutive `{`, no pattern that starts with `{{` occurs. */
  lemma NoDoubleOpenExcludes(s: string, p: string)
    requires NoDoubleOpen(s) && StartsWith(p, "{{")
    ensures !Contains(s, p)
  {
    assert p[0] == '{' && p[1] == '{';
    forall i | 0 <= i <= |s| - |p|
      ensures !OccursAt(s, p, i)
    {
      assert s[i..i + |p|][0] == s[i] && s[i..i + |p|][1] == s[i + 1];
    }
  }

  // ---- strip ----

  function StripStart(s: string): (r: string)
    ensures |r| <= |s|
    ensures r == [] || !IsSpace(r[0])
  {
    if |s| > 0 && IsSpace(s[0]) then StripStart(s[1..]) else s
  }

  /** `StripStart` keeps a suffix. */
  lemma {:induction false} StripStartSuffix(s: string)
    ensures StripStart(s) == s[|s| - |StripStart(s)|..]
  {
    if |s| > 0 && IsSpace(s[0]) {
      StripStartSuffix(s[1..]);
    }
  }

  /** What `StripStart` drops is white space. */
  lemma {:induction false} LeadingSpaces(s: string)
    ensures forall i | 0 <= i < |s| - |StripStart(s)| :: IsSpace(s[i])
  {
    if |s| > 0 && IsSpace(s[0]) {
      LeadingSpaces(s[1..]);
      assert forall i | 1 <= i < |s| :: s[i] == s[1..][i - 1];
    }
  }

  function StripEnd(s: string): (r: string)
    ensures |r| <= |s|
    ensures r == [] || !IsSpace(r[|r| - 1])
  {
    if |s| > 0 && IsSpace(s[|s| - 1]) then StripEnd(s[..|s| - 1]) else s
  }

  /** `StripEnd` keeps a prefix. */
  lemma {:induction false} StripEndPrefix(s: string)
    ensures StripEnd(s) == s[..|StripEnd(s)|]
  {
    if |s| > 0 && IsSpace(s[|s| - 1]) {
      StripEndPrefix(s[..|s| - 1]);
    }
  }

  /** What `StripEnd` drops is white space. */
  lemma {:induction false} TrailingSpaces(s: string)
    ensures forall i | |StripEnd(s)| <= i < |s| :: IsSpace(s[i])
  {
    if |s| > 0 && IsSpace(s[|s| - 1]) {
      TrailingSpaces(s[..|s| - 1]);
    }
  }

  /** `r` is `s` with the white space at `s[..lo]` and `s[lo + |r|..]` removed. */
  predicate StripWindow(s: string, r: string, lo: int) {
    0 <= lo <= |s| - |r| && r == s[lo..lo + |r|]
    && (forall i | 0 <= i < lo :: IsSpace(s[i]))
    && (forall i | lo + |r| <= i < |s| :: IsSpace(s[i]))
  }

  /** Python's `str.strip()`: the infix left once all leading and trailing white
      space is removed; it neither starts nor ends with white space. */
  function Strip(s: string): (r: string)
    ensures |r| <= |s|
  {
    StripEnd(StripStart(s))
  }

  /** What `Strip` keeps neither starts nor ends with white space. */
  lemma StripEnds(s: string)
    ensures Strip(s) == [] || (!IsSpace(Strip(s)[0]) && !IsSpace(Strip(s)[|Strip(s)| - 1]))
  {
    StripEndPrefix(StripStart(s));
  }

  /** What `Strip` keeps is the window of `s` between its leading and its
      trailing white space. */
  lemma StripIsWindow(s: string)
    ensures StripWindow(s, Strip(s), |s| - |StripStart(s)|)
  {
    StripIsInfix(s);
    LeadingSpaces(s);
    StripTrailing(s);
  }

  lemma StripIsInfix(s: string)
    ensures var lo := |s| - |StripStart(s)|;
      var r := StripEnd(StripStart(s));
      0 <= lo <= |s| - |r| && r == s[lo..lo + |r|]
  {
    var t := StripStart(s);
    var r := StripEnd(t);
    var lo := |s| - |t|;
    StripStartSuffix(s);
    StripEndPrefix(t);
    assert t == s[lo..];
    assert r == t[..|r|];
  }

  lemma StripTrailing(s: string)
    ensures forall i | |s| - |StripStart(s)| + |StripEnd(StripStart(s))| <= i < |s| :: IsSpace(s[i])
  {
    var t := StripStart(s);
    var lo := |s| - |t|;
    var r := StripEnd(t);
    StripStartSuffix(s);
    TrailingSpaces(t);
    forall i | lo + |r| <= i < |s|
      ensures IsSpace(s[i])
    {
      assert s[i] == t[i - lo];
    }
  }

  // ---- replace ----

  /** Python's `s.replace(pat, rep)`: left to right, non-overlapping. */
  function ReplaceAll(s: string, pat: string, rep: string): string
    requires |pat| > 0
    decreases |s|
  {
    if |s| < |pat| then s
    else if s[..|pat|] == pat then rep + ReplaceAll(s[|pat|..], pat, rep)
    else [s[0]] + ReplaceAll(s[1..], pat, rep)
  }

  /** Replacing a pattern that does not occur leaves the string unchanged. */
  lemma {:induction false} ReplaceAbsent(s: string, pat: string, rep: string)
    requires |pat| > 0 && !Contains(s, pat)
    ensures ReplaceAll(s, pat, rep) == s
    decreases |s|
  {
    if |s| >= |pat| {
      assert !OccursAt(s, pat, 0);
      forall i | 0 <= i <= |s[1..]| - |pat|
        ensures !OccursAt(s[1..], pat, i)
      {
        assert !OccursAt(s, pat, i + 1);
        assert s[1..][i..i + |pat|] == s[i + 1..i + 1 + |pat|];
      }
      ReplaceAbsent(s[1..], pat, rep);
      assert [s[0]] + s[1..] == s;
    }
  }

  /** A prefix in which no occurrence of the pattern starts is copied through. */
  lemma {:induction false} ReplacePassesPrefix(pre: string, rest: string, pat: string, rep: string)
    requires |pat| > 0
    requires forall i | 0 <= i < |pre| :: !OccursAt(pre + rest, pat, i)
    ensures ReplaceAll(pre + rest, pat, rep) == pre + ReplaceAll(rest, pat, rep)
    decreases |pre|
  {
    var s := pre + rest;
    if |pre| == 0 {
      assert s == rest;
    } else if |s| < |pat| {
      assert ReplaceAll(rest, pat, rep) == rest;
    } else {
      var t := pre[1..] + rest;
      assert s[1..] == t;
      forall i | 0 <= i < |pre[1..]|
        ensures !OccursAt(t, pat, i)
      {
        assert !OccursAt(s, pat, i + 1);
        if i <= |t| - |pat| {
          assert t[i..i + |pat|] == s[i + 1..i + 1 + |pat|];
        }
      }
      ReplacePassesPrefix(pre[1..], rest, pat, rep);
      assert !OccursAt(s, pat, 0);
      assert ReplaceAll(s, pat, rep) == [s[0]] + ReplaceAll(t, pat, rep);
      assert [pre[0]] + pre[1..] == pre;
    }
  }

  /** The placeholder is substituted where it first occurs. */
  lemma ReplaceFirstOccurrence(pre: string, pat: string, post: string, rep: string)
    requires |pat| > 0
    requires forall i | 0 <= i < |pre| :: !OccursAt(pre + pat + post, pat, i)
    ensures ReplaceAll(pre + pat + post, pat, rep) == pre + rep + ReplaceAll(post, pat, rep)
  {
    assert pre + pat + post == pre + (pat + post);
    ReplacePassesPrefix(pre, pat + post, pat, rep);
    assert (pat + post)[..|pat|] == pat && (pat + post)[|pat|..] == post;
  }

  // ---- split and join ----

  /** Python's `s.split(c)` for a one-character separator. */
  function Split(s: string, c: char): (r: seq<string>)
    ensures |r| >= 1
    decreases |s|
  {
    if c !in s then [s]
    else
      var i := FirstIndex(s, c);
      [s[..i]] + Split(s[i + 1..], c)
  }

  function FirstIndex(s: string, c: char): (i: nat)
    requires c in s
    ensures i < |s| && s[i] == c && c !in s[..i]
    ensures forall p | 0 <= p < i :: s[p] != c
  {
    if s[0] == c then 0 else 1 + FirstIndex(s[1..], c)
  }

  /** The first occurrence is the index before which `c` does not occur. */
  lemma {:induction false} FirstIndexUnique(s: string, c: char, j: nat)
    requires j < |s| && s[j] == c && c !in s[..j]
    ensures FirstIndex(s, c) == j
  {
    if j > 0 {
      assert s[0] == s[..j][0];
      assert s[1..][..j - 1] == s[..j][1..];
      FirstIndexUnique(s[1..], c, j - 1);
    }
  }

  lemma SplitCons(a: string, c: char, b: string)
    requires c !in a
    ensures Split(a + [c] + b, c) == [a] + Split(b, c)
  {
    var s := a + [c] + b;
    assert s[..|a|] == a;
    FirstIndexUnique(s, c, |a|);
    assert s[|a| + 1..] == b;
  }

  function Join(sep: string, xs: seq<string>): string {
    if |xs| == 0 then ""
    else if |xs| == 1 then xs[0]
    else xs[0] + sep + Join(sep, xs[1..])
  }

  /** Joining one-line texts with a newline and splitting the result on the
      newline gives the texts back. */
  lemma {:induction false} SplitJoin(xs: seq<string>, c: char)
    requires |xs| >= 1
    requires forall i | 0 <= i < |xs| :: c !in xs[i]
    ensures Split(Join([c], xs), c) == xs
  {
    if |xs| == 1 {
      assert c !in xs[0];
    } else {
      var rest := xs[1..];
      assert forall i | 0 <= i < |rest| :: rest[i] == xs[i + 1];
      SplitJoin(rest, c);
      assert c !in xs[0];
      assert Join([c], xs) == xs[0] + [c] + Join([c], rest);
      SplitCons(xs[0], c, Join([c], rest));
      assert [xs[0]] + rest == xs;
    }
  }

  lemma JoinCons(sep: string, x: string, xs: seq<string>)
    requires |xs| >= 1
    ensures Join(sep, [x] + xs) == x + sep + Join(sep, xs)
  {
    assert ([x] + xs)[1..] == xs;
  }

  // ---- integers ----

  function DigitChar(d: nat): (c: char)
    requires d < 10
    ensures '0' <= c <= '9'
  {
    "0123456789"[d]
  }

  /** Python's `str(n)` for an int. */
  function IntToString(n: int): string {
    if n < 0 then "-" + NatToString(-n) else NatToString(n)
  }

  function NatToString(n: nat): string
    decreases n
  {
    if n < 10 then [DigitChar(n)] else NatToString(n / 10) + [DigitChar(n % 10)]
  }

  /** `str(n)` is made of digits, after a minus sign for a negative number. */
  lemma IntToStringDigits(n: int)
    ensures forall i | 0 <= i < |IntToString(n)| :: IntToString(n)[i] == '-' || '0' <= IntToString(n)[i] <= '9'
  {
    if n < 0 {
      NatToStringDigits(-n);
    } else {
      NatToStringDigits(n);
    }
  }

  lemma {:induction false} NatToStringDigits(n: nat)
    ensures forall i | 0 <= i < |NatToString(n)| :: '0' <= NatToString(n)[i] <= '9'
    decreases n
  {
    if n >= 10 {
      NatToStringDigits(n / 10);
    }
  }

  /** Python's `a < b` on strings: the first differing code point decides,
      and a proper prefix comes first. */
  predicate Less(a: string, b: string)
    decreases |a|
  {
    if |a| == 0 then |b| > 0
    else if |b| == 0 then false
    else if a[0] != b[0] then a[0] < b[0]
    else Less(a[1..], b[1..])
  }

  lemma {:induction false} LessIrreflexive(a: string)
    ensures !Less(a, a)
    decreases |a|
  {
    if |a| > 0 {
      LessIrreflexive(a[1..]);
    }
  }

  lemma {:induction false} LessTransitive(a: string, b: string, c: string)
    requires Less(a, b) && Less(b, c)
    ensures Less(a, c)
    decreases |a|
  {
    if |a| > 0 && a[0] == b[0] && b[0] == c[0] {
      LessTransitive(a[1..], b[1..], c[1..]);
    }
  }

  /** Any two strings are ordered one way or the other, or equal. */
  lemma {:induction false} LessTotal(a: string, b: string)
    ensures Less(a, b) || Less(b, a) || a == b
    decreases |a|
  {
    if |a| > 0 && |b| > 0 && a[0] == b[0] {
      LessTotal(a[1..], b[1..]);
      if a[1..] == b[1..] {
        assert a == [a[0]] + a[1..] && b == [b[0]] + b[1..];
      }
    }
  }

  /** Python's `s[:n]`. */
  function Take(s: string, n: nat): (r: string)
    ensures |r| == if |s| <= n then |s| else n
    ensures r == s[..|r|]
  {
    if |s| <= n then s else s[..n]
  }
}
