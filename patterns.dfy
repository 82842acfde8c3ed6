/** The pattern table of `RegexEngine` (`_index`, one entry per `Find` value), each pattern
    written as an explicit scanner. `MatchAt(p, s, i)` is the match the pattern has when it
    is tried at position `i` of `s`, with the backtracking of the regex worked out by hand;
    `Find(p, s)` is `Regex.Match`: the match at the leftmost position where one exists. */
module Patterns {
  import opened Text

  datatype Pattern =
    | BitRate                   // ([0-9]*)\s*kb/s
    | DurationLine              // Duration: ([^,]*),
    | ConvertProgressFrame      // frame=\s*([0-9]*)
    | ConvertProgressFps        // fps=\s*([0-9]*\.?[0-9]*?)
    | ConvertProgressSize       // size=\s*([0-9]*)kB
    | ConvertProgressFinished   // Lsize=\s*([0-9]*)kB
    | ConvertProgressTime       // time=\s*([^ ]*)
    | ConvertProgressBitrate    // bitrate=\s*([0-9]*\.?[0-9]*?)kbits/s
    | MetaAudio                 // (Stream\s*#[0-9]*:[0-9]*\(?[^\)]*?\)?: Audio:.*)
    | AudioFormatHzChannel      // Audio:\s*([^,]*),\s([^,]*),\s([^,]*)
    | MetaVideo                 // (Stream\s*#[0-9]*:[0-9]*\(?[^\)]*?\)?: Video:.*)
    | VideoFormatColorSize      // Video:\s*([^,]*),\s*([^,]*,?[^,]*?),?\s*(?=[0-9]*x[0-9]*)([0-9]*x[0-9]*)
    | VideoFps                  // ([0-9\.]*)\s*tbr

  /** A `Match`: failed, or successful with the values of groups 1, 2, ... */
  datatype Match = NoMatch | Matched(groups: seq<string>) {
    predicate Success() { Matched? }

    /** `Groups[i].Value`: the empty string for a failed match or a group that does not exist. */
    function Group(i: nat): string {
      if Matched? && 1 <= i <= |groups| then groups[i - 1] else ""
    }
  }

  predicate IsDigitOrDot(c: char) { IsDigit(c) || c == '.' }

  /** The end of the white space (`\s*`) starting at `i`. */
  function Ws(s: string, i: nat): (j: nat)
    requires i <= |s|
    ensures i <= j <= |s|
  {
    Span(s, i, IsWhite)
  }

  /** The end of the digits (`[0-9]*`) starting at `i`. */
  function Digits(s: string, i: nat): (j: nat)
    requires i <= |s|
    ensures i <= j <= |s|
    ensures forall k :: i <= k < j ==> IsDigit(s[k])
    ensures j < |s| ==> !IsDigit(s[j])
  {
    Span(s, i, IsDigit)
  }

  /** Where a greedy `[^c]*` starting at `i` stops: the next `c`, or the end. */
  function NextOrEnd(s: string, c: char, i: nat): (j: nat)
    requires i <= |s|
    ensures i <= j <= |s|
    ensures j < |s| ==> s[j] == c
    ensures forall k :: i <= k < j ==> s[k] != c
  {
    var r := IndexOf(s, c, i);
    if r < 0 then |s| else r
  }

  // ---------------------------------------------------------------------------------------
  // One scanner per pattern. Each starts by checking the leading literal at `i`.

  /** `([0-9]*)\s*kb/s`: backtracking into the digits or the white space cannot help,
      since `k` is neither, so the match exists exactly when `kb/s` follows the longest runs. */
  function BitRateAt(s: string, i: nat): Match
    requires i <= |s|
  {
    var d := Digits(s, i);
    var w := Ws(s, d);
    if StartsAt(s, w, "kb/s") then Matched([s[i..d]]) else NoMatch
  }

  /** `Duration: ([^,]*), `: the group runs to the first comma, which must start `, `. */
  function DurationAt(s: string, i: nat): Match
    requires i <= |s|
  {
    if !StartsAt(s, i, "Duration: ") then NoMatch
    else
      var f := NextOrEnd(s, ',', i + 10);
      if StartsAt(s, f, ", ") then Matched([s[i + 10..f]]) else NoMatch
  }

  /** `frame=\s*([0-9]*)`: always matches after the literal, possibly with an empty group. */
  function FrameAt(s: string, i: nat): Match
    requires i <= |s|
  {
    if !StartsAt(s, i, "frame=") then NoMatch
    else
      var j := Ws(s, i + 6);
      Matched([s[j..Digits(s, j)]])
  }

  /** `fps=\s*([0-9]*\.?[0-9]*?)`: the lazy tail has nothing after it and so takes nothing;
      the group is the digits and at most one following dot. */
  function FpsAt(s: string, i: nat): Match
    requires i <= |s|
  {
    if !StartsAt(s, i, "fps=") then NoMatch
    else
      var j := Ws(s, i + 4);
      var d := Digits(s, j);
      var e := if d < |s| && s[d] == '.' then d + 1 else d;
      Matched([s[j..e]])
  }

  /** `<lit>\s*([0-9]*)kB`, shared by `size=` and `Lsize=`. */
  function KiloBytesAt(s: string, i: nat, lit: string): Match
    requires i <= |s|
  {
    if !StartsAt(s, i, lit) then NoMatch
    else
      var j := Ws(s, i + |lit|);
      var d := Digits(s, j);
      if StartsAt(s, d, "kB") then Matched([s[j..d]]) else NoMatch
  }

  /** `time=\s*([^ ]*)`: always matches after the literal; the group runs to the next space. */
  function TimeAt(s: string, i: nat): Match
    requires i <= |s|
  {
    if !StartsAt(s, i, "time=") then NoMatch
    else
      var j := Ws(s, i + 5);
      Matched([s[j..NextOrEnd(s, ' ', j)]])
  }

  /** `bitrate=\s*([0-9]*\.?[0-9]*?)kbits/s`: the lazy digits grow until `kbits/s` can follow,
      so the group is digits, optionally a dot and digits, directly before `kbits/s`. */
  function BitrateAt(s: string, i: nat): Match
    requires i <= |s|
  {
    if !StartsAt(s, i, "bitrate=") then NoMatch
    else
      var j := Ws(s, i + 8);
      var d := Digits(s, j);
      var e := if d < |s| && s[d] == '.' then Digits(s, d + 1) else d;
      if StartsAt(s, e, "kbits/s") then Matched([s[j..e]]) else NoMatch
  }

  /** The first position in [x, f) where `marker` starts, or -1. */
  function MarkerIn(s: string, x: nat, f: nat, marker: string): (q: int)
    requires x <= f <= |s|
    ensures q == -1 || (x <= q < f && StartsAt(s, q, marker))
    ensures forall k :: x <= k < f && (q == -1 || k < q) ==> !StartsAt(s, k, marker)
    decreases f - x
  {
    if x == f then -1 else if StartsAt(s, x, marker) then x else MarkerIn(s, x + 1, f, marker)
  }

  /** `(Stream\s*#[0-9]*:[0-9]*\(?[^\)]*?\)?<marker>.*)`. After the stream number the prefix
      `[0-9]*\(?[^\)]*?\)?` can end anywhere up to the first `)` (call it f), or just after
      it; the lazy part tries the nearer ends first, so the marker is the first one before f,
      else the one right after f. The group is the whole match, to the end of the line. */
  function DescriptorAt(s: string, i: nat, marker: string): Match
    requires i <= |s| && |marker| > 0
  {
    if !StartsAt(s, i, "Stream") then NoMatch
    else
      var a := Ws(s, i + 6);
      if a == |s| || s[a] != '#' then NoMatch
      else
        var b := Digits(s, a + 1);
        if b == |s| || s[b] != ':' then NoMatch
        else
          var f := NextOrEnd(s, ')', b + 1);
          var m := MarkerIn(s, b + 1, f, marker);
          var q := if m >= 0 then m else if f < |s| && StartsAt(s, f + 1, marker) then f + 1 else -1;
          if q < 0 then NoMatch
          else Matched([s[i..NextOrEnd(s, '\n', q + |marker|)]])
  }

  /** `Audio:\s*([^,]*),\s([^,]*),\s([^,]*)`: three comma-separated fields, each of the
      first two commas followed by exactly one white-space character that no group takes. */
  function AudioFieldsAt(s: string, i: nat): Match
    requires i <= |s|
  {
    if !StartsAt(s, i, "Audio:") then NoMatch
    else
      var a := Ws(s, i + 6);
      var c1 := NextOrEnd(s, ',', a);
      if c1 + 1 >= |s| || !IsWhite(s[c1 + 1]) then NoMatch
      else
        var c2 := NextOrEnd(s, ',', c1 + 2);
        if c2 + 1 >= |s| || !IsWhite(s[c2 + 1]) then NoMatch
        else
          var c3 := NextOrEnd(s, ',', c2 + 2);
          Matched([s[a..c1], s[c1 + 2..c2], s[c2 + 2..c3]])
  }

  /** Where the frame size starts if the colour group ends at `g`: after an optional comma
      and white space. */
  function SizeStart(s: string, g: nat): (h: nat)
    requires g <= |s|
    ensures g <= h <= |s|
  {
    Ws(s, if g < |s| && s[g] == ',' then g + 1 else g)
  }

  /** The tail `,?\s*(?=[0-9]*x[0-9]*)([0-9]*x[0-9]*)` succeeds after `g`: digits, then `x`. */
  predicate SizeFollows(s: string, g: nat)
    requires g <= |s|
  {
    var m := Digits(s, SizeStart(s, g));
    m < |s| && s[m] == 'x'
  }

  /** The frame-size group once the colour group ends at `g`. */
  function SizeText(s: string, g: nat): string
    requires g <= |s| && SizeFollows(s, g)
  {
    var h := SizeStart(s, g);
    s[h..Digits(s, Digits(s, h) + 1)]
  }

  /** The first `g` in [lo, hi] where the tail succeeds, or -1 (the lazy `[^,]*?` after the
      optional comma: nearer ends first). */
  function FirstSizeEnd(s: string, lo: nat, hi: nat): (g: int)
    requires lo <= hi + 1 && hi <= |s|
    ensures g == -1 || (lo <= g <= hi && SizeFollows(s, g))
    ensures forall k :: lo <= k <= hi && (g == -1 || k < g) ==> !SizeFollows(s, k)
    decreases hi + 1 - lo
  {
    if lo > hi then -1 else if SizeFollows(s, lo) then lo else FirstSizeEnd(s, lo + 1, hi)
  }

  /** The last `g` in [lo, hi] where the tail succeeds, or -1 (the greedy `[^,]*` giving
      characters back one at a time: farther ends first). */
  function LastSizeEnd(s: string, lo: nat, hi: nat): (g: int)
    requires lo <= hi + 1 && hi <= |s|
    ensures g == -1 || (lo <= g <= hi && SizeFollows(s, g))
    ensures forall k :: lo <= k <= hi && g < k ==> !SizeFollows(s, k)
    decreases hi + 1 - lo
  {
    if lo > hi then -1 else if SizeFollows(s, hi) then hi
    else if hi == lo then -1 else LastSizeEnd(s, lo, hi - 1)
  }

  /** Where the colour group that starts at `v` ends, `c2` being the next comma or the end:
      first the lazy tries after that comma, then the greedy ends from `c2` down to `v`; -1
      when no frame size follows anywhere. */
  function ColourEnd(s: string, v: nat, c2: nat): (g: int)
    requires v <= c2 <= |s|
    ensures g == -1 || (v <= g <= |s| && SizeFollows(s, g))
  {
    var up := if c2 < |s| then FirstSizeEnd(s, c2 + 1, NextOrEnd(s, ',', c2 + 1)) else -1;
    if up >= 0 then up else LastSizeEnd(s, v, c2)
  }

  /** `Video:\s*([^,]*),\s*([^,]*,?[^,]*?),?\s*(?=[0-9]*x[0-9]*)([0-9]*x[0-9]*)`. The format
      group runs to the first comma c1. The colour group starts after the white space v that
      follows c1 and first tries to take the next comma c2 and grow lazily up to the comma
      c3 after it; failing that it ends at c2, c2-1, ... down to v. Its end `g` is the first
      of those where a frame size `NNNxNNN` follows. */
  function VideoFieldsAt(s: string, i: nat): Match
    requires i <= |s|
  {
    if !StartsAt(s, i, "Video:") then NoMatch
    else
      var a := Ws(s, i + 6);
      var c1 := NextOrEnd(s, ',', a);
      if c1 == |s| then NoMatch
      else
        var v := Ws(s, c1 + 1);
        var g := ColourEnd(s, v, NextOrEnd(s, ',', v));
        if g < 0 then NoMatch
        else Matched([s[a..c1], s[v..g], SizeText(s, g)])
  }

  /** `([0-9\.]*)\s*tbr`. */
  function VideoFpsAt(s: string, i: nat): Match
    requires i <= |s|
  {
    var d := Span(s, i, IsDigitOrDot);
    var w := Ws(s, d);
    if StartsAt(s, w, "tbr") then Matched([s[i..d]]) else NoMatch
  }

  function MatchAt(p: Pattern, s: string, i: nat): Match
    requires i <= |s|
  {
    match p
    case BitRate => BitRateAt(s, i)
    case DurationLine => DurationAt(s, i)
    case ConvertProgressFrame => FrameAt(s, i)
    case ConvertProgressFps => FpsAt(s, i)
    case ConvertProgressSize => KiloBytesAt(s, i, "size=")
    case ConvertProgressFinished => KiloBytesAt(s, i, "Lsize=")
    case ConvertProgressTime => TimeAt(s, i)
    case ConvertProgressBitrate => BitrateAt(s, i)
    case MetaAudio => DescriptorAt(s, i, ": Audio:")
    case AudioFormatHzChannel => AudioFieldsAt(s, i)
    case MetaVideo => DescriptorAt(s, i, ": Video:")
    case VideoFormatColorSize => VideoFieldsAt(s, i)
    case VideoFps => VideoFpsAt(s, i)
  }

  /** The leftmost position at or after `i` where `p` matches, or |s| + 1 when there is none. */
  function FirstAt(p: Pattern, s: string, i: nat): (q: nat)
    requires i <= |s|
    ensures i <= q <= |s| + 1
    ensures q <= |s| ==> MatchAt(p, s, q).Matched?
    ensures forall k :: i <= k <= |s| && k < q ==> MatchAt(p, s, k).NoMatch?
    decreases |s| - i
  {
    if MatchAt(p, s, i).Matched? then i
    else if i == |s| then |s| + 1
    else FirstAt(p, s, i + 1)
  }

  /** `Regex.Match(s)`. */
  function Find(p: Pattern, s: string): Match {
    var q := FirstAt(p, s, 0);
    if q <= |s| then MatchAt(p, s, q) else NoMatch
  }

  // ---------------------------------------------------------------------------------------
  // Properties of the scanners

  /** `Find` succeeds exactly when the pattern matches at some position, and then it is the
      match at the leftmost such position. */
  lemma FindLeftmost(p: Pattern, s: string)
    ensures Find(p, s).Matched? <==> exists k :: 0 <= k <= |s| && MatchAt(p, s, k).Matched?
    ensures Find(p, s).Matched? ==>
      exists k :: (0 <= k <= |s| && Find(p, s) == MatchAt(p, s, k)
                   && forall j :: 0 <= j < k ==> MatchAt(p, s, j).NoMatch?)
  {
    var q := FirstAt(p, s, 0);
    if q <= |s| {
      assert Find(p, s) == MatchAt(p, s, q);
    }
  }

  /** `Regex.Match` finds the match at `q` when the pattern matches there and at no earlier
      position. */
  lemma FindAt(p: Pattern, s: string, q: nat)
    requires q <= |s| && MatchAt(p, s, q).Matched?
    requires forall k :: 0 <= k < q ==> MatchAt(p, s, k).NoMatch?
    ensures Find(p, s) == MatchAt(p, s, q)
  {
    var f := FirstAt(p, s, 0);
    assert !(f < q) && !(q < f);
  }

  /** `([0-9]*)\s*kb/s` fails at `k` when a character `e` that is neither a digit nor white
      space ends the runs before any `k`. */
  lemma BitRateMiss(s: string, k: nat, e: nat)
    requires k <= e < |s| && !IsDigit(s[e]) && !IsWhite(s[e])
    requires forall j :: k <= j <= e ==> s[j] != 'k'
    ensures MatchAt(BitRate, s, k).NoMatch?
  {
    var d := Digits(s, k);
    assert d <= e;
    var w := Ws(s, d);
    assert w <= e;
  }

  /** `([0-9\.]*)\s*tbr` fails at `k` when a character `e` that is neither a digit, a dot nor
      white space ends the runs before any `tbr`. */
  lemma VideoFpsMiss(s: string, k: nat, e: nat)
    requires k <= e < |s| && !IsDigitOrDot(s[e]) && !IsWhite(s[e])
    requires forall j :: k <= j <= e ==> !StartsAt(s, j, "tbr")
    ensures MatchAt(VideoFps, s, k).NoMatch?
  {
    var d := Span(s, k, IsDigitOrDot);
    assert d <= e;
    var w := Ws(s, d);
    assert w <= e;
  }

  /** One white-space character and then something else: `\s*` takes exactly it. */
  lemma OneSpace(s: string, i: nat)
    requires i < |s| && s[i] == ' ' && (i + 1 < |s| ==> !IsWhite(s[i + 1]))
    ensures Ws(s, i) == i + 1
  {
    SpanEnd(s, i, i + 1, IsWhite);
  }

  /** Digits spelt out by a literal: `[0-9]*` takes exactly them. */
  lemma DigitRun(s: string, i: nat, r: string)
    requires StartsAt(s, i, r) && (forall k :: 0 <= k < |r| ==> IsDigit(r[k]))
    requires i + |r| < |s| ==> !IsDigit(s[i + |r|])
    ensures Digits(s, i) == i + |r|
  {
    RunAt(s, i, r, IsDigit);
  }

  /** A comma-free field `f` at `a` followed by `, ` and a non-blank: `[^,]*` stops at the
      comma, and the `\s*` after it takes the one space. */
  lemma FieldAt(s: string, a: nat, f: string)
    requires StartsAt(s, a, f) && ',' !in f
    requires StartsAt(s, a + |f|, ", ") && a + |f| + 2 < |s| && !IsWhite(s[a + |f| + 2])
    ensures NextOrEnd(s, ',', a) == a + |f| && Ws(s, a + |f| + 1) == a + |f| + 2
  {
    var c := a + |f|;
    assert s[c] == ',' && s[c + 1] == ' ';
    assert forall k :: a <= k < c ==> s[k] == s[a..c][k - a];
    IndexOfAt(s, ',', a, c);
    OneSpace(s, c + 1);
  }

  /** The size tail read off positions: white space from `g` to `t`, digits to `xs`, the
      `x`, digits to `n`. */
  lemma SizeTail(s: string, g: nat, t: nat, xs: nat, n: nat)
    requires g < t <= xs < n <= |s| && s[g] != ','
    requires Ws(s, g) == t && Digits(s, t) == xs && s[xs] == 'x' && Digits(s, xs + 1) == n
    ensures SizeFollows(s, g) && SizeText(s, g) == s[t..n]
    ensures forall hi :: g <= hi <= |s| ==> FirstSizeEnd(s, g, hi) == g
  {
  }

  /** A pattern that needs a leading literal matches only where that literal occurs. */
  lemma FindNeedsLiteral(p: Pattern, s: string, lit: string)
    requires p == ConvertProgressTime ==> lit == "time="
    requires p == ConvertProgressSize ==> lit == "size="
    requires p == ConvertProgressBitrate ==> lit == "bitrate="
    requires p in {ConvertProgressTime, ConvertProgressSize, ConvertProgressBitrate}
    ensures Find(p, s).Matched? ==> Contains(s, lit)
  {
    FindLeftmost(p, s);
  }

  /** The time pattern matches exactly the lines that contain `time=`, because its group
      may be empty. */
  lemma TimeMatchesIffLiteral(s: string)
    ensures Find(ConvertProgressTime, s).Matched? <==> Contains(s, "time=")
  {
    FindLeftmost(ConvertProgressTime, s);
    if Contains(s, "time=") {
      var k: nat :| k <= |s| && StartsAt(s, k, "time=");
      assert MatchAt(ConvertProgressTime, s, k).Matched?;
    }
  }

  /** The frame group is a run of digits. */
  lemma FrameGroupDigits(s: string)
    ensures forall k :: 0 <= k < |Find(ConvertProgressFrame, s).Group(1)| ==> IsDigit(Find(ConvertProgressFrame, s).Group(1)[k])
  {
  }

  /** The fps group is digits with at most a trailing dot: no fractional digit is ever
      captured. */
  lemma FpsGroupShape(s: string)
    ensures var g := Find(ConvertProgressFps, s).Group(1);
      (forall k :: 0 <= k < |g| - 1 ==> IsDigit(g[k]))
      && (|g| > 0 ==> IsDigit(g[|g| - 1]) || g[|g| - 1] == '.')
  {
    var q := FirstAt(ConvertProgressFps, s, 0);
    if q <= |s| {
      assert Find(ConvertProgressFps, s) == FpsAt(s, q);
      FpsAtShape(s, q);
    }
  }

  lemma FpsAtShape(s: string, i: nat)
    requires i <= |s|
    ensures var g := FpsAt(s, i).Group(1);
      (forall k :: 0 <= k < |g| - 1 ==> IsDigit(g[k]))
      && (|g| > 0 ==> IsDigit(g[|g| - 1]) || g[|g| - 1] == '.')
  {
    if StartsAt(s, i, "fps=") {
      var j := Ws(s, i + 4);
      var d := Digits(s, j);
      var e := if d < |s| && s[d] == '.' then d + 1 else d;
      assert FpsAt(s, i).Group(1) == s[j..e];
      DigitsThenDot(s, j, d, e);
    }
  }

  /** A run of digits, optionally followed by one dot, has that shape as a slice. */
  lemma DigitsThenDot(s: string, j: nat, d: nat, e: nat)
    requires j <= d <= |s| && forall k :: j <= k < d ==> IsDigit(s[k])
    requires e == d || (e == d + 1 && d < |s| && s[d] == '.')
    ensures var g := s[j..e];
      (forall k :: 0 <= k < |g| - 1 ==> IsDigit(g[k]))
      && (|g| > 0 ==> IsDigit(g[|g| - 1]) || g[|g| - 1] == '.')
  {
    var g := s[j..e];
    forall k | 0 <= k < |g| - 1
      ensures IsDigit(g[k])
    {
      assert g[k] == s[j + k];
    }
    if 0 < |g| {
      assert g[|g| - 1] == s[e - 1];
    }
  }
}
