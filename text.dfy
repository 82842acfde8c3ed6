/** Character classes and the few `System.String` operations the library relies on. */
module Text {
  import opened Wrappers

  /** The regex class `[0-9]`. */
  predicate IsDigit(c: char) { '0' <= c <= '9' }

  /** The regex class `\s` of .NET, which is also the set `char.IsWhiteSpace` accepts:
      tab to carriage return, space, NEL, no-break space and the Unicode space separators. */
  predicate IsWhite(c: char) {
    || c == ' '
    || '\t' <= c <= '\r'
    || c == '\U{0085}' || c == '\U{00A0}' || c == '\U{1680}'
    || '\U{2000}' <= c <= '\U{200A}'
    || c == '\U{2028}' || c == '\U{2029}' || c == '\U{202F}' || c == '\U{205F}' || c == '\U{3000}'
  }

  /** `string.IsNullOrWhiteSpace`. */
  predicate IsNullOrWhiteSpace(s: Option<string>) {
    s.None? || forall i :: 0 <= i < |s.value| ==> IsWhite(s.value[i])
  }

  /** `lit` occurs in `s` at index `i`. */
  predicate StartsAt(s: string, i: nat, lit: string) {
    i + |lit| <= |s| && s[i..i + |lit|] == lit
  }

  /** `s.Contains(lit)`. */
  predicate Contains(s: string, lit: string) {
    exists i: nat :: i <= |s| && StartsAt(s, i, lit)
  }

  /** The end of the longest run of characters satisfying `p` that starts at `i`
      (how a greedy `[...]*` advances). */
  function Span(s: string, i: nat, p: char -> bool): (j: nat)
    requires i <= |s|
    ensures i <= j <= |s|
    ensures forall k :: i <= k < j ==> p(s[k])
    ensures j < |s| ==> !p(s[j])
    decreases |s| - i
  {
    if i < |s| && p(s[i]) then Span(s, i + 1, p) else i
  }

  /** `s.IndexOf(c, start)`: the first index at or after `start` holding `c`, or -1. */
  function IndexOf(s: string, c: char, start: nat): (r: int)
    requires start <= |s|
    ensures r == -1 || (start <= r < |s| && s[r] == c)
    ensures forall k :: start <= k < |s| && (r == -1 || k < r) ==> s[k] != c
    decreases |s| - start
  {
    if start == |s| then -1 else if s[start] == c then start else IndexOf(s, c, start + 1)
  }

  /** A run ends where its facts say: every character from `i` up to `j` satisfies `p`, and
      the one at `j`, if any, does not. */
  lemma SpanEnd(s: string, i: nat, j: nat, p: char -> bool)
    requires i <= j <= |s|
    requires forall k :: i <= k < j ==> p(s[k])
    requires j < |s| ==> !p(s[j])
    ensures Span(s, i, p) == j
  {
  }

  /** The search finds `r` when `s[r]` is `c` and no `c` lies between `start` and `r`. */
  lemma IndexOfAt(s: string, c: char, start: nat, r: nat)
    requires start <= r < |s| && s[r] == c
    requires forall k :: start <= k < r ==> s[k] != c
    ensures IndexOf(s, c, start) == r
  {
  }

  /** A run spelt out by a literal: `r` at `i`, every character of it satisfying `p`, and the
      one after it, if any, not. */
  lemma RunAt(s: string, i: nat, r: string, p: char -> bool)
    requires StartsAt(s, i, r)
    requires forall k :: 0 <= k < |r| ==> p(r[k])
    requires i + |r| < |s| ==> !p(s[i + |r|])
    ensures Span(s, i, p) == i + |r|
  {
    assert forall k :: i <= k < i + |r| ==> s[k] == s[i..i + |r|][k - i];
    SpanEnd(s, i, i + |r|, p);
  }

  /** Three literals back to back spell their concatenation. */
  lemma StartsAt2(s: string, i: nat, a: string, b: string)
    requires StartsAt(s, i, a) && StartsAt(s, i + |a|, b)
    ensures StartsAt(s, i, a + b)
  {
    assert s[i..i + |a| + |b|] == s[i..i + |a|] + s[i + |a|..i + |a| + |b|];
  }

  lemma StartsAt3(s: string, i: nat, a: string, b: string, c: string)
    requires StartsAt(s, i, a) && StartsAt(s, i + |a|, b) && StartsAt(s, i + |a| + |b|, c)
    ensures StartsAt(s, i, a + b + c)
  {
    StartsAt2(s, i, a, b);
    StartsAt2(s, i, a + b, c);
  }


  /** A text that starts with `p + b` starts with `p`, and `b` occurs right after it. */
  lemma PrefixPart(p: string, b: string, s: string)
    requires p + b <= s
    ensures p <= s && StartsAt(s, |p|, b)
  {
    assert s[|p|..|p| + |b|] == (p + b)[|p|..];
  }

  /** `s.Replace(a, b)` for characters. */
  function ReplaceChar(s: string, a: char, b: char): (r: string)
    ensures |r| == |s|
    ensures forall i :: 0 <= i < |s| ==> r[i] == if s[i] == a then b else s[i]
  {
    seq(|s|, i requires 0 <= i < |s| => if s[i] == a then b else s[i])
  }

  /** Replacing `a` by `b` leaves no `a`, and when `b` did not occur the replacement is undone
      by replacing `b` by `a`. */
  lemma ReplaceCharInverse(s: string, a: char, b: char)
    ensures a != b ==> a !in ReplaceChar(s, a, b)
    ensures b !in s ==> ReplaceChar(ReplaceChar(s, a, b), b, a) == s
  {
    var r := ReplaceChar(s, a, b);
    if b !in s {
      var t := ReplaceChar(r, b, a);
      assert forall i :: 0 <= i < |s| ==> t[i] == s[i] by {
        forall i | 0 <= i < |s| ensures t[i] == s[i] {
          assert s[i] != b;
        }
      }
    }
  }

  /** `s.Replace(pat, rep)` for strings: one left-to-right pass, occurrences do not overlap. */
  function ReplaceAll(s: string, pat: string, rep: string): string
    requires |pat| > 0
    decreases |s|
  {
    if |s| < |pat| then s
    else if s[..|pat|] == pat then rep + ReplaceAll(s[|pat|..], pat, rep)
    else [s[0]] + ReplaceAll(s[1..], pat, rep)
  }

  /** `ToLowerInvariant` on the ASCII letters that appear in enum member names. */
  function ToLower(s: string): (r: string)
    ensures |r| == |s|
    ensures forall i :: 0 <= i < |s| ==> r[i] == if 'A' <= s[i] <= 'Z' then s[i] - 'A' + 'a' else s[i]
  {
    seq(|s|, i requires 0 <= i < |s| => if 'A' <= s[i] <= 'Z' then s[i] - 'A' + 'a' else s[i])
  }

  /** Lower-casing leaves no capital letter, so a second pass changes nothing, and it keeps
      every character that is not a capital. */
  lemma ToLowerIdempotent(s: string)
    ensures forall i :: 0 <= i < |s| ==> !('A' <= ToLower(s)[i] <= 'Z')
    ensures forall i :: 0 <= i < |s| && !('A' <= s[i] <= 'Z') ==> ToLower(s)[i] == s[i]
    ensures ToLower(ToLower(s)) == ToLower(s)
  {
    var r := ToLower(s);
    assert forall i :: 0 <= i < |s| ==> ToLower(r)[i] == r[i] by {
      forall i | 0 <= i < |s| ensures ToLower(r)[i] == r[i] {
        assert !('A' <= r[i] <= 'Z');
      }
    }
  }

  /** The concatenation of a list of strings (`string.Join(string.Empty, parts)`). */
  function Concat(parts: seq<string>): string {
    if parts == [] then "" else parts[0] + Concat(parts[1..])
  }

  lemma {:induction false} ConcatAppend(a: seq<string>, b: seq<string>)
    ensures Concat(a + b) == Concat(a) + Concat(b)
  {
    if a == [] {
      assert a + b == b;
    } else {
      assert (a + b)[1..] == a[1..] + b;
      ConcatAppend(a[1..], b);
    }
  }

  lemma ContainsAt(s: string, i: nat, lit: string)
    requires StartsAt(s, i, lit)
    ensures Contains(s, lit)
  {
  }
}
