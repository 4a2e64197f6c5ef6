/**
 * String primitives of the .NET base library that the template engine relies on,
 * stated on `string` (a sequence of UTF-16 code units).
 */
module Text {

  /** char.IsWhiteSpace: the Unicode space separators, line and paragraph separators,
      U+0009..U+000D, U+0085 and U+00A0. */
  predicate IsWhiteSpace(c: char) {
    ('\U{0009}' <= c <= '\U{000D}') || c == '\U{0020}' || c == '\U{0085}' || c == '\U{00A0}' ||
    c == '\U{1680}' || ('\U{2000}' <= c <= '\U{200A}') || c == '\U{2028}' || c == '\U{2029}' ||
    c == '\U{202F}' || c == '\U{205F}' || c == '\U{3000}'
  }

  predicate IsAsciiDigit(c: char) { '0' <= c <= '9' }

  /** char.IsLetterOrDigit, restricted to ASCII letters and digits. */
  predicate IsLetterOrDigit(c: char) {
    IsAsciiDigit(c) || ('a' <= c <= 'z') || ('A' <= c <= 'Z')
  }

  function ToUpperChar(c: char): char {
    if 'a' <= c <= 'z' then (c as int - 32) as char else c
  }

  function ToLowerChar(c: char): char {
    if 'A' <= c <= 'Z' then (c as int + 32) as char else c
  }

  /** String.ToUpper / ToLower on the ASCII letters. */
  function ToUpper(s: string): (r: string)
    ensures |r| == |s| && forall i :: 0 <= i < |s| ==> r[i] == ToUpperChar(s[i])
  {
    seq(|s|, i requires 0 <= i < |s| => ToUpperChar(s[i]))
  }

  function ToLower(s: string): (r: string)
    ensures |r| == |s| && forall i :: 0 <= i < |s| ==> r[i] == ToLowerChar(s[i])
  {
    seq(|s|, i requires 0 <= i < |s| => ToLowerChar(s[i]))
  }

  /** OrdinalIgnoreCase keys: two names denote the same key iff their folds are equal. */
  function Fold(s: string): string { ToUpper(s) }

  predicate StartsWith(s: string, prefix: string) { prefix <= s }

  predicate EndsWith(s: string, suffix: string) {
    |suffix| <= |s| && s[|s| - |suffix|..] == suffix
  }

  predicate OccursAt(s: string, pat: string, k: int) {
    0 <= k && k + |pat| <= |s| && s[k..k + |pat|] == pat
  }

  /** String.IndexOf(pat, from) with ordinal comparison: the first occurrence at or after
      `from`, or -1. */
  function IndexOf(s: string, pat: string, from: nat): (r: int)
    requires |pat| > 0
    ensures r == -1 || (from <= r && OccursAt(s, pat, r))
    decreases |s| - from
  {
    if from + |pat| > |s| then -1
    else if s[from..from + |pat|] == pat then from
    else IndexOf(s, pat, from + 1)
  }

  /** IndexOf finds the first occurrence: none lies between `from` and the result. */
  lemma {:induction false} IndexOfIsFirst(s: string, pat: string, from: nat)
    requires |pat| > 0
    ensures IndexOf(s, pat, from) == -1 ==> forall k :: from <= k ==> !OccursAt(s, pat, k)
    ensures IndexOf(s, pat, from) >= 0 ==> forall k :: from <= k < IndexOf(s, pat, from) ==> !OccursAt(s, pat, k)
    decreases |s| - from
  {
    if from + |pat| <= |s| && s[from..from + |pat|] != pat {
      IndexOfIsFirst(s, pat, from + 1);
    }
  }

  /** Index of the first non-white-space character at or after `from`, or |s|. */
  function SkipSpaces(s: string, from: nat): (r: nat)
    requires from <= |s|
    ensures from <= r <= |s|
    ensures r < |s| ==> !IsWhiteSpace(s[r])
    decreases |s| - from
  {
    if from == |s| || !IsWhiteSpace(s[from]) then from else SkipSpaces(s, from + 1)
  }

  /** Everything SkipSpaces steps over is white space. */
  lemma {:induction false} SkipSpacesSkipsOnlySpaces(s: string, from: nat)
    requires from <= |s|
    ensures forall k :: from <= k < SkipSpaces(s, from) ==> IsWhiteSpace(s[k])
    decreases |s| - from
  {
    if from < |s| && IsWhiteSpace(s[from]) {
      SkipSpacesSkipsOnlySpaces(s, from + 1);
    }
  }

  /** Index just after the last non-white-space character, or 0. */
  function TrimEndIndex(s: string): (r: nat)
    ensures r <= |s|
    ensures forall k :: r <= k < |s| ==> IsWhiteSpace(s[k])
    ensures r > 0 ==> !IsWhiteSpace(s[r - 1])
  {
    if |s| == 0 || !IsWhiteSpace(s[|s| - 1]) then |s| else TrimEndIndex(s[..|s| - 1])
  }

  /** String.Trim(): white space removed from both ends. */
  function Trim(s: string): (r: string)
    ensures exists i, j :: 0 <= i <= j <= |s| && r == s[i..j]
    ensures r == [] || (!IsWhiteSpace(r[0]) && !IsWhiteSpace(r[|r| - 1]))
  {
    var i := SkipSpaces(s, 0);
    var j := TrimEndIndex(s);
    if j <= i then assert s[0..0] == []; [] else s[i..j]
  }

  /** The bounds Trim cuts at, named: its result is the slice of `s` between them. */
  lemma TrimBounds(s: string) returns (i: nat, j: nat)
    ensures i <= j <= |s| && Trim(s) == s[i..j]
  {
    i := SkipSpaces(s, 0);
    j := TrimEndIndex(s);
    if j <= i {
      i, j := 0, 0;
    }
  }

  /** String.TrimEnd(c): every trailing occurrence of `c` removed. */
  function TrimEndChar(s: string, c: char): (r: string)
    ensures r <= s
    ensures r == [] || r[|r| - 1] != c
    ensures forall k :: |r| <= k < |s| ==> s[k] == c
  {
    if |s| == 0 || s[|s| - 1] != c then s else TrimEndChar(s[..|s| - 1], c)
  }

  /** String.Replace(pat, rep), ordinal: every non-overlapping occurrence, scanned left to right. */
  function Replace(s: string, pat: string, rep: string): (r: string)
    requires |pat| > 0
    decreases |s|
  {
    if |s| < |pat| then s
    else if s[..|pat|] == pat then rep + Replace(s[|pat|..], pat, rep)
    else [s[0]] + Replace(s[1..], pat, rep)
  }

  /** String.Replace(char, char). */
  function ReplaceChar(s: string, a: char, b: char): (r: string)
    ensures |r| == |s|
    ensures forall i :: 0 <= i < |s| ==> r[i] == (if s[i] == a then b else s[i])
  {
    seq(|s|, i requires 0 <= i < |s| => if s[i] == a then b else s[i])
  }

  function DigitChar(d: nat): char
    requires d < 10
  {
    ('0' as int + d) as char
  }

  /** Decimal text of a natural number, as `name + i` produces it. */
  function NatToString(n: nat): (r: string)
    ensures |r| > 0 && forall k :: 0 <= k < |r| ==> IsAsciiDigit(r[k])
    decreases n
  {
    if n < 10 then [DigitChar(n)] else NatToString(n / 10) + [DigitChar(n % 10)]
  }

  /** Distinct numbers are written differently. */
  lemma {:induction false} NatToStringInjective(m: nat, n: nat)
    ensures NatToString(m) == NatToString(n) ==> m == n
    decreases m
  {
    if NatToString(m) == NatToString(n) && m >= 10 && n >= 10 {
      var a, b := NatToString(m), NatToString(n);
      assert a[..|a| - 1] == NatToString(m / 10);
      assert b[..|b| - 1] == NatToString(n / 10);
      NatToStringInjective(m / 10, n / 10);
      assert a[|a| - 1] == DigitChar(m % 10);
    }
  }
  /** The single-character Replace distributes over concatenation. */
  lemma {:induction false} ReplaceCharPatternAppend(a: string, b: string, c: char, rep: string)
    ensures Replace(a + b, [c], rep) == Replace(a, [c], rep) + Replace(b, [c], rep)
    decreases |a|
  {
    if |a| > 0 {
      assert (a + b)[1..] == a[1..] + b;
      assert (a + b)[..1] == a[..1];
      ReplaceCharPatternAppend(a[1..], b, c, rep);
    } else {
      assert a + b == b;
    }
  }

  /** Text without the character is left as it is. */
  lemma {:induction false} ReplaceAbsentChar(s: string, c: char, rep: string)
    requires c !in s
    ensures Replace(s, [c], rep) == s
    decreases |s|
  {
    if |s| > 0 {
      assert s[..1] == [s[0]];
      ReplaceAbsentChar(s[1..], c, rep);
      assert [s[0]] + s[1..] == s;
    }
  }

  /** Replacing the one marker in `pre + [c] + post`. */
  lemma ReplaceSingleMarker(pre: string, post: string, c: char, rep: string)
    requires c !in pre && c !in post
    ensures Replace(pre + [c] + post, [c], rep) == pre + rep + post
  {
    ReplaceCharPatternAppend(pre, [c] + post, c, rep);
    ReplaceCharPatternAppend([c], post, c, rep);
    ReplaceAbsentChar(pre, c, rep);
    ReplaceAbsentChar(post, c, rep);
    assert pre + [c] + post == pre + ([c] + post);
    assert Replace([], [c], rep) == [];
    assert Replace([c], [c], rep) == rep + Replace([], [c], rep);
  }

  /** String.Split(c): the pieces between the separators, at least one. */
  function Split(s: string, c: char): (r: seq<string>)
    ensures |r| > 0
    decreases |s|
  {
    if |s| == 0 then [""]
    else
      var r := Split(s[..|s| - 1], c);
      if s[|s| - 1] == c then r + [""] else r[..|r| - 1] + [r[|r| - 1] + [s[|s| - 1]]]
  }

  /** String.Join(c, parts). */
  function JoinWith(parts: seq<string>, c: char): string
    requires |parts| > 0
  {
    if |parts| == 1 then parts[0] else JoinWith(parts[..|parts| - 1], c) + [c] + parts[|parts| - 1]
  }

  /** Split takes the text apart at every separator and nowhere else: joining the pieces
      gives the text back, and no piece holds the separator. */
  lemma {:induction false} SplitJoin(s: string, c: char)
    ensures JoinWith(Split(s, c), c) == s
    ensures forall k :: 0 <= k < |Split(s, c)| ==> c !in Split(s, c)[k]
    decreases |s|
  {
    if |s| > 0 {
      var t := s[..|s| - 1];
      var x := s[|s| - 1];
      assert s == t + [x];
      var r := Split(t, c);
      SplitJoin(t, c);
      if x != c {
        var last := r[|r| - 1] + [x];
        var q := r[..|r| - 1] + [last];
        assert Split(s, c) == q;
        if |r| == 1 {
          assert q == [last];
          assert JoinWith(q, c) == r[0] + [x];
        } else {
          var init := r[..|r| - 1];
          assert q[..|q| - 1] == init;
          calc {
            JoinWith(q, c);
            JoinWith(init, c) + [c] + last;
            (JoinWith(init, c) + [c] + r[|r| - 1]) + [x];
            JoinWith(r, c) + [x];
          }
        }
        assert forall k :: 0 <= k < |q| ==> c !in q[k] by {
          forall k | 0 <= k < |q| ensures c !in q[k] {
            if k < |q| - 1 { assert q[k] == r[k]; }
          }
        }
      } else {
        var q := r + [""];
        assert Split(s, c) == q;
        assert q[..|q| - 1] == r;
        assert JoinWith(q, c) == JoinWith(r, c) + [c] + "";
      }
    }
  }
}
