/** Option, string and sequence helpers shared by the Floreboard model. */
module Prelude {

  /** Swift's optional values. */
  datatype Option<+T> = None | Some(value: T) {
    /** `x ?? default` */
    function GetOr(default: T): T {
      match this
      case Some(v) => v
      case None => default
    }
  }

  // ---------------------------------------------------------------------------
  // Case folding and substring tests (the model of Foundation's case-insensitive
  // comparisons: an ASCII case fold followed by a plain comparison)
  // ---------------------------------------------------------------------------

  function FoldChar(c: char): char {
    if 'A' <= c <= 'Z' then (c as int + 32) as char else c
  }

  /** `lowercased()` */
  function Fold(s: string): (r: string)
    ensures |r| == |s|
    ensures forall i :: 0 <= i < |s| ==> r[i] == FoldChar(s[i])
  {
    seq(|s|, i requires 0 <= i < |s| => FoldChar(s[i]))
  }

  /** Folding twice is folding once. */
  lemma FoldTwice(s: string)
    ensures Fold(Fold(s)) == Fold(s)
  {
  }

  predicate IsPrefix(p: string, s: string) {
    |p| <= |s| && s[..|p|] == p
  }

  /** A prefix of `s` stays a prefix when more is appended to `s`. */
  lemma PrefixGrows(p: string, s: string, t: string)
    requires IsPrefix(p, s)
    ensures IsPrefix(p, s + t)
  {
    assert (s + t)[..|p|] == s[..|p|];
  }

  /** Strings whose first characters differ are not prefixes of each other. */
  lemma FirstCharDiffers(p: string, s: string)
    requires |p| > 0 && |s| > 0 && p[0] != s[0]
    ensures !IsPrefix(p, s)
  {
    if |p| <= |s| {
      assert s[..|p|][0] == s[0];
    }
  }

  /** Growing a prefix by one element. */
  lemma TakeSnoc<T>(s: seq<T>, i: nat)
    requires i < |s|
    ensures s[..i] + [s[i]] == s[..i + 1]
  {
  }

  /** `s.contains(p)`: some position of `s` starts an occurrence of `p`. */
  predicate Contains(s: string, p: string) {
    exists k :: 0 <= k <= |s| && IsPrefix(p, s[k..])
  }

  /** `a.localizedCaseInsensitiveCompare(b) == .orderedSame` */
  predicate CIEquals(a: string, b: string) {
    Fold(a) == Fold(b)
  }

  /** `s.localizedCaseInsensitiveContains(p)`: Foundation reports that no string contains the empty one. */
  predicate CIContains(s: string, p: string) {
    |p| > 0 && Contains(Fold(s), Fold(p))
  }

  /** The empty string contains nothing, and nothing contains the empty string. */
  lemma CIContainsEmpty(s: string)
    ensures !CIContains(s, "") && !CIContains("", s)
  {
    if |s| > 0 {
      assert forall k :: 0 <= k <= 0 ==> !IsPrefix(Fold(s), ""[k..]);
    }
  }

  /** Every string contains itself, and the empty string is contained in every string. */
  lemma ContainsSelf(s: string)
    ensures Contains(s, s) && Contains(s, "")
  {
    assert s[0..] == s;
    assert IsPrefix(s, s[0..]) && IsPrefix("", s[0..]);
  }

  lemma ContainsAffix(a: string, p: string, b: string)
    ensures Contains(a + p + b, p)
  {
    var s := a + p + b;
    assert s[|a|..] == p + b;
    assert (p + b)[..|p|] == p;
    assert IsPrefix(p, s[|a|..]);
  }

  /** A string in which the first character of `p` never occurs does not contain `p`. */
  lemma NotContainsWithoutHead(s: string, p: string)
    requires |p| > 0 && forall i :: 0 <= i < |s| ==> s[i] != p[0]
    ensures !Contains(s, p)
  {
    forall k | 0 <= k <= |s|
      ensures !IsPrefix(p, s[k..])
    {
      if k < |s| {
        assert s[k..][0] == s[k];
        if |p| <= |s[k..]| {
          assert s[k..][..|p|][0] == s[k];
        }
      }
    }
  }

  /** Every character of a contained string occurs in the containing one. */
  lemma ContainsHasChar(s: string, p: string, i: nat)
    requires Contains(s, p) && i < |p|
    ensures p[i] in s
  {
    var k :| 0 <= k <= |s| && IsPrefix(p, s[k..]);
    assert s[k..][..|p|][i] == s[k + i];
  }

  /** A string without upper-case ASCII letters folds to itself. */
  lemma FoldUnchanged(s: string)
    requires forall i :: 0 <= i < |s| ==> !('A' <= s[i] <= 'Z')
    ensures Fold(s) == s
  {
  }

  /** Containment survives dropping a first character that does not start an occurrence. */
  lemma NotContainsTail(s: string, p: string)
    requires |s| > 0 && !Contains(s, p)
    ensures !IsPrefix(p, s) && !Contains(s[1..], p)
  {
    assert s[0..] == s;
    forall k | 0 <= k <= |s| - 1
      ensures !IsPrefix(p, s[1..][k..])
    {
      assert s[1..][k..] == s[k + 1..];
    }
  }

  // ---------------------------------------------------------------------------
  // Replacement, trimming, splitting
  // ---------------------------------------------------------------------------

  /** `s.replacingOccurrences(of: pat, with: rep)`: leftmost, non-overlapping occurrences, scanning left to right. */
  function ReplaceAll(s: string, pat: string, rep: string): string
    requires |pat| > 0
    decreases |s|
  {
    if |s| < |pat| then s
    else if IsPrefix(pat, s) then rep + ReplaceAll(s[|pat|..], pat, rep)
    else [s[0]] + ReplaceAll(s[1..], pat, rep)
  }

  /** Replacing a pattern that does not occur leaves the string unchanged. */
  lemma {:induction false} ReplaceAbsent(s: string, pat: string, rep: string)
    requires |pat| > 0 && !Contains(s, pat)
    ensures ReplaceAll(s, pat, rep) == s
    decreases |s|
  {
    if |s| >= |pat| {
      NotContainsTail(s, pat);
      ReplaceAbsent(s[1..], pat, rep);
      assert s == [s[0]] + s[1..];
    }
  }

  /**
   * A prefix `a` that holds no character equal to the pattern's first one is kept as it is, and the
   * occurrence that follows it is the one replaced.
   */
  lemma {:induction false} ReplaceAfterPlainPrefix(a: string, pat: string, rep: string, b: string)
    requires |pat| > 0 && forall i :: 0 <= i < |a| ==> a[i] != pat[0]
    ensures ReplaceAll(a + pat + b, pat, rep) == a + rep + ReplaceAll(b, pat, rep)
    decreases |a|
  {
    var s := a + pat + b;
    if |a| == 0 {
      assert s == pat + b;
      assert s[..|pat|] == pat;
      assert s[|pat|..] == b;
    } else {
      assert s[..|pat|][0] == a[0];
      assert !IsPrefix(pat, s);
      assert s[1..] == a[1..] + pat + b;
      ReplaceAfterPlainPrefix(a[1..], pat, rep, b);
      calc {
        ReplaceAll(s, pat, rep);
        [a[0]] + ReplaceAll(a[1..] + pat + b, pat, rep);
        [a[0]] + (a[1..] + rep + ReplaceAll(b, pat, rep));
        { assert a == [a[0]] + a[1..]; }
        a + rep + ReplaceAll(b, pat, rep);
      }
    }
  }

  /**
   * `CharacterSet.whitespacesAndNewlines`: the Unicode separators (general category Z), the controls
   * U+0009 to U+000D, and U+0085.
   */
  predicate IsWhitespace(c: char) {
    ('\U{0009}' <= c <= '\U{000D}') || c == ' ' || c == '\U{0085}' || c == '\U{00A0}' || c == '\U{1680}'
    || ('\U{2000}' <= c <= '\U{200A}') || c == '\U{2028}' || c == '\U{2029}' || c == '\U{202F}' || c == '\U{205F}'
    || c == '\U{3000}'
  }

  function TrimLeading(s: string): (r: string)
    ensures |r| <= |s| && r == s[|s| - |r|..]
    ensures |r| > 0 ==> !IsWhitespace(r[0])
    decreases |s|
  {
    if |s| > 0 && IsWhitespace(s[0]) then TrimLeading(s[1..]) else s
  }

  function TrimTrailing(s: string): (r: string)
    ensures |r| <= |s| && r == s[..|r|]
    ensures |r| > 0 ==> !IsWhitespace(r[|r| - 1])
    decreases |s|
  {
    if |s| > 0 && IsWhitespace(s[|s| - 1]) then TrimTrailing(s[..|s| - 1]) else s
  }

  /** `trimmingCharacters(in: .whitespacesAndNewlines)` */
  function Trim(s: string): string {
    TrimTrailing(TrimLeading(s))
  }

  /** `s.components(separatedBy: String(sep)).last`: the text after the last `sep`, or all of `s`. */
  function LastComponent(s: string, sep: char): (r: string)
    ensures |r| <= |s| && r == s[|s| - |r|..]
    ensures forall i :: 0 <= i < |r| ==> r[i] != sep
    ensures |r| < |s| ==> s[|s| - |r| - 1] == sep
    decreases |s|
  {
    if |s| == 0 then s
    else if s[|s| - 1] == sep then []
    else
      assert s == s[..|s| - 1] + [s[|s| - 1]];
      LastComponent(s[..|s| - 1], sep) + [s[|s| - 1]]
  }

  /** `lines.joined(separator: sep)` */
  function Join(lines: seq<string>, sep: string): string {
    if |lines| == 0 then ""
    else if |lines| == 1 then lines[0]
    else lines[0] + sep + Join(lines[1..], sep)
  }

  /** What a string's tail contains, the whole string contains. */
  lemma ContainsInTail(a: string, b: string, p: string)
    requires Contains(b, p)
    ensures Contains(a + b, p)
  {
    var k :| 0 <= k <= |b| && IsPrefix(p, b[k..]);
    assert (a + b)[|a| + k..] == b[k..];
  }

  /** The joined string opens with the first line and contains every line. */
  lemma {:induction false} JoinContainsLines(lines: seq<string>, sep: string)
    ensures |lines| == 0 ==> Join(lines, sep) == ""
    ensures |lines| > 0 ==> IsPrefix(lines[0], Join(lines, sep))
    ensures forall i :: 0 <= i < |lines| ==> Contains(Join(lines, sep), lines[i])
    decreases |lines|
  {
    if |lines| > 0 {
      var j := Join(lines, sep);
      ContainsSelf(lines[0]);
      if |lines| == 1 {
        assert j == lines[0];
        assert j[..|lines[0]|] == lines[0];
      } else {
        var rest := Join(lines[1..], sep);
        JoinContainsLines(lines[1..], sep);
        assert j == lines[0] + (sep + rest);
        assert j[..|lines[0]|] == lines[0];
        ContainsAffix("", lines[0], sep + rest);
        assert "" + lines[0] + (sep + rest) == j;
        forall i | 1 <= i < |lines|
          ensures Contains(j, lines[i])
        {
          assert lines[i] == lines[1..][i - 1];
          ContainsInTail(lines[0] + sep, rest, lines[i]);
          assert lines[0] + sep + rest == j;
        }
      }
    }
  }

  /** `String(describing: n)` for an `Int`. */
  function IntToString(n: int): string
    decreases if n < 0 then 1 - n else n
  {
    if n < 0 then "-" + IntToString(-n)
    else if n < 10 then [DigitChar(n)]
    else IntToString(n / 10) + [DigitChar(n % 10)]
  }

  function DigitChar(d: int): char
    requires 0 <= d < 10
  {
    "0123456789"[d]
  }

  // ---------------------------------------------------------------------------
  // Sequences
  // ---------------------------------------------------------------------------

  /** `s.filter(keep)` */
  function Filter<T(!new)>(s: seq<T>, keep: T -> bool): (r: seq<T>)
    ensures |r| <= |s|
    ensures forall x :: x in r <==> x in s && keep(x)
    decreases |s|
  {
    if |s| == 0 then []
    else if keep(s[0]) then [s[0]] + Filter(s[1..], keep)
    else Filter(s[1..], keep)
  }

  /** `sub` is `s` with some elements dropped, the rest kept in order. */
  predicate IsSubsequence<T(==)>(sub: seq<T>, s: seq<T>)
    decreases |s|
  {
    if |sub| == 0 then true
    else if |s| == 0 then false
    else if sub[0] == s[0] then IsSubsequence(sub[1..], s[1..])
    else IsSubsequence(sub, s[1..])
  }

  lemma {:induction false} FilterIsSubsequence<T(!new)>(s: seq<T>, keep: T -> bool)
    ensures IsSubsequence(Filter(s, keep), s)
    decreases |s|
  {
    if |s| > 0 {
      FilterIsSubsequence(s[1..], keep);
      if keep(s[0]) {
        var r := Filter(s, keep);
        assert r[0] == s[0] && r[1..] == Filter(s[1..], keep);
      } else {
        var r := Filter(s, keep);
        if |r| > 0 {
          assert r[0] in r;
          assert r[0] in Filter(s[1..], keep);
          SubsequenceSkip(r, s);
        }
      }
    }
  }

  lemma {:induction false} SubsequenceSkip<T>(sub: seq<T>, s: seq<T>)
    requires |s| > 0 && IsSubsequence(sub, s[1..])
    ensures IsSubsequence(sub, s)
    decreases |s|, 0
  {
    if |sub| > 0 && sub[0] == s[0] {
      SubsequenceTail(sub, s[1..]);
    }
  }

  lemma {:induction false} SubsequenceTail<T>(sub: seq<T>, s: seq<T>)
    requires |sub| > 0 && IsSubsequence(sub, s)
    ensures IsSubsequence(sub[1..], s)
    decreases |s|, 1
  {
    if |s| > 0 {
      if sub[0] == s[0] {
        SubsequenceSkip(sub[1..], s);
      } else {
        SubsequenceTail(sub, s[1..]);
        SubsequenceSkip(sub[1..], s);
      }
    }
  }

  /** Filters by rules that agree on every element give the same result. */
  lemma {:induction false} FilterSameRule<T(!new)>(s: seq<T>, keep: T -> bool, keep': T -> bool)
    requires forall x :: x in s ==> keep(x) == keep'(x)
    ensures Filter(s, keep) == Filter(s, keep')
    decreases |s|
  {
    if |s| > 0 {
      assert s[0] in s;
      assert forall x :: x in s[1..] ==> x in s;
      FilterSameRule(s[1..], keep, keep');
    }
  }

  /** A filter that keeps everything is the identity. */
  lemma {:induction false} FilterAll<T(!new)>(s: seq<T>, keep: T -> bool)
    requires forall x :: x in s ==> keep(x)
    ensures Filter(s, keep) == s
    decreases |s|
  {
    if |s| > 0 {
      assert s[0] in s;
      assert forall x :: x in s[1..] ==> x in s;
      FilterAll(s[1..], keep);
      assert s == [s[0]] + s[1..];
    }
  }

  /** A filter that keeps nothing gives the empty sequence. */
  lemma {:induction false} FilterNone<T(!new)>(s: seq<T>, keep: T -> bool)
    requires forall x :: x in s ==> !keep(x)
    ensures Filter(s, keep) == []
    decreases |s|
  {
    if |s| > 0 {
      assert s[0] in s;
      assert forall x :: x in s[1..] ==> x in s;
      FilterNone(s[1..], keep);
    }
  }

  /** `firstIndex(where: { key($0) == k })`: the earliest position whose key is `k`, if any. */
  function FirstIndexOf<T>(s: seq<T>, key: T -> string, k: string): (r: Option<nat>)
    ensures r.Some? ==> r.value < |s| && key(s[r.value]) == k && forall j :: 0 <= j < r.value ==> key(s[j]) != k
    ensures r.None? <==> forall j :: 0 <= j < |s| ==> key(s[j]) != k
    decreases |s|
  {
    if |s| == 0 then None
    else if key(s[0]) == k then Some(0)
    else match FirstIndexOf(s[1..], key, k)
      case None => None
      case Some(i) => Some(i + 1)
  }
}
