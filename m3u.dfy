/** `src/FFmpeg.NET/Services/M3uPlaylistCreator.cs`: an extended-M3U text, `#EXTM3U` and then
    an `#EXTINF` line and a location line per entry, every line ended by `AppendLine`. */
module M3u {
  import opened Wrappers
  import opened Text
  import opened Numbers
  import opened Media
  import opened PlaylistPaths

  const Header: string := "#EXTM3U"

  /** `(int) meta.Duration.TotalSeconds`: whole seconds, truncated toward zero, clamped to
      the 32-bit range. */
  function WholeSeconds(duration: int): (r: int)
    ensures Int32Min <= r <= Int32Max
    ensures 0 <= duration <= Int32Max * 1000 ==> 0 <= r && r * 1000 <= duration < (r + 1) * 1000
    ensures duration < 0 && Int32Min * 1000 <= duration ==> r <= 0 && (r - 1) * 1000 < duration <= r * 1000
  {
    SaturateInt32(TruncDiv(duration, 1000))
  }

  /** `Create`, line 19. */
  function ExtInf(duration: int, f: FileInfo): string {
    "#EXTINF:" + IntToString(WholeSeconds(duration)) + "," + f.name
  }

  /** `Create`, lines 19-20: the two lines of one entry. */
  function EntryPair(meta: MetaData, p: Platform): seq<string>
    requires meta.fileInfo.Some?
  {
    [ExtInf(meta.duration, meta.fileInfo.value), FileLocation(meta.fileInfo.value, p)]
  }

  function EntryLines(entries: seq<MetaData>, p: Platform): seq<string>
    requires AllFiles(entries)
    decreases |entries|
  {
    if entries == [] then []
    else EntryLines(entries[..|entries| - 1], p) + EntryPair(entries[|entries| - 1], p)
  }

  /** `Create`, lines 16-21: the lines written, in order. */
  function Lines(entries: seq<MetaData>, p: Platform): seq<string>
    requires AllFiles(entries)
  {
    [Header] + EntryLines(entries, p)
  }

  /** The text of `AppendLine` calls: each line followed by the terminator. */
  function Terminated(lines: seq<string>, nl: string): string {
    if lines == [] then "" else lines[0] + nl + Terminated(lines[1..], nl)
  }

  /** `Create`, lines 10-23: a null list throws `ArgumentException`, an entry without a file throws
      `NullReferenceException`, anything else gives the terminated lines. */
  function CreateText(metaData: Option<seq<MetaData>>, p: Platform): Result<string, Fault> {
    if metaData.None? then Failure(ArgumentError)
    else if !AllFiles(metaData.value) then Failure(NullReference)
    else Success(Terminated(Lines(metaData.value, p), p.newLine))
  }

  /** `Create`, lines 10-23, appending to a builder entry by entry. */
  method Create(metaData: Option<seq<MetaData>>, p: Platform) returns (r: Result<string, Fault>)
    ensures r == CreateText(metaData, p)
  {
    if metaData.None? {
      return Failure(ArgumentError);
    }
    var entries := metaData.value;
    var sb := Header + p.newLine;
    HeaderOnly(entries, p);
    var i := 0;
    while i < |entries|
      invariant 0 <= i <= |entries|
      invariant AllFiles(entries[..i])
      invariant sb == Terminated(Lines(entries[..i], p), p.newLine)
    {
      var meta := entries[i];
      if meta.fileInfo.None? {
        assert !AllFiles(entries) by {
          assert entries[i].fileInfo.None?;
        }
        return Failure(NullReference);
      }
      var f := meta.fileInfo.value;
      ghost var before := sb;
      sb := sb + (ExtInf(meta.duration, f) + p.newLine);
      sb := sb + (FileLocation(f, p) + p.newLine);
      AppendEntry(entries, i, p, before);
      i := i + 1;
    }
    assert entries[..i] == entries;
    return Success(sb);
  }

  lemma HeaderOnly(entries: seq<MetaData>, p: Platform)
    ensures AllFiles(entries[..0])
    ensures Terminated(Lines(entries[..0], p), p.newLine) == Header + p.newLine
  {
    assert entries[..0] == [];
    assert Lines([], p) == [Header];
    assert [Header][1..] == [];
    assert Terminated([], p.newLine) == "";
  }

  /** One pass of the loop keeps the builder equal to the text of the lines so far. */
  lemma AppendEntry(entries: seq<MetaData>, i: nat, p: Platform, before: string)
    requires i < |entries| && AllFiles(entries[..i]) && entries[i].fileInfo.Some?
    requires before == Terminated(Lines(entries[..i], p), p.newLine)
    ensures AllFiles(entries[..i + 1])
    ensures Terminated(Lines(entries[..i + 1], p), p.newLine)
      == before + (ExtInf(entries[i].duration, entries[i].fileInfo.value) + p.newLine)
         + (FileLocation(entries[i].fileInfo.value, p) + p.newLine)
  {
    PrefixFiles(entries, i);
    LinesSnoc(entries, i, p);
    var pair := EntryPair(entries[i], p);
    TerminatedSnoc(Lines(entries[..i], p), pair[0], pair[1], p.newLine);
    assert [pair[0], pair[1]] == pair;
  }

  lemma PrefixFiles(entries: seq<MetaData>, i: nat)
    requires i < |entries| && AllFiles(entries[..i]) && entries[i].fileInfo.Some?
    ensures AllFiles(entries[..i + 1])
  {
    var prefix := entries[..i + 1];
    forall k | 0 <= k < |prefix|
      ensures prefix[k].fileInfo.Some?
    {
      if k < i {
        assert prefix[k] == entries[..i][k];
      }
    }
  }

  lemma LinesSnoc(entries: seq<MetaData>, i: nat, p: Platform)
    requires i < |entries| && AllFiles(entries[..i + 1])
    ensures AllFiles(entries[..i])
    ensures Lines(entries[..i + 1], p) == Lines(entries[..i], p) + EntryPair(entries[i], p)
  {
    var prefix := entries[..i + 1];
    assert prefix[..|prefix| - 1] == entries[..i] && prefix[|prefix| - 1] == entries[i];
    var entry := EntryLines(entries[..i], p);
    var pair := EntryPair(entries[i], p);
    assert EntryLines(prefix, p) == entry + pair;
    assert [Header] + (entry + pair) == ([Header] + entry) + pair;
  }

  lemma TerminatedSnoc(done: seq<string>, a: string, b: string, nl: string)
    ensures Terminated(done + [a, b], nl) == Terminated(done, nl) + (a + nl) + (b + nl)
  {
    TerminatedAppend(done, [a, b], nl);
    PairText(a, b, nl);
  }

  lemma PairText(a: string, b: string, nl: string)
    ensures Terminated([a, b], nl) == (a + nl) + (b + nl)
  {
    assert [a, b][1..] == [b];
    assert [b][1..] == [];
    assert Terminated([], nl) == "";
    assert Terminated([b], nl) == b + nl;
  }

  lemma {:induction false} TerminatedAppend(a: seq<string>, b: seq<string>, nl: string)
    ensures Terminated(a + b, nl) == Terminated(a, nl) + Terminated(b, nl)
  {
    if a == [] {
      assert a + b == b;
    } else {
      assert (a + b)[1..] == a[1..] + b;
      TerminatedAppend(a[1..], b, nl);
    }
  }

  // ---------------------------------------------------------------------------------------
  // Properties

  /** Per entry, in input order, its `#EXTINF` line and then its location line. */
  lemma {:induction false} EntryShape(entries: seq<MetaData>, p: Platform)
    requires AllFiles(entries)
    ensures |EntryLines(entries, p)| == 2 * |entries|
    ensures forall k :: 0 <= k < |entries| ==>
      EntryLines(entries, p)[2 * k] == ExtInf(entries[k].duration, entries[k].fileInfo.value)
      && EntryLines(entries, p)[2 * k + 1] == FileLocation(entries[k].fileInfo.value, p)
    decreases |entries|
  {
    if entries != [] {
      var n := |entries|;
      var init := entries[..n - 1];
      var done := EntryLines(init, p);
      var pair := EntryPair(entries[n - 1], p);
      EntryShape(init, p);
      assert EntryLines(entries, p) == done + pair;
      forall k | 0 <= k < n
        ensures (done + pair)[2 * k] == ExtInf(entries[k].duration, entries[k].fileInfo.value)
        ensures (done + pair)[2 * k + 1] == FileLocation(entries[k].fileInfo.value, p)
      {
        if k < n - 1 {
          assert init[k] == entries[k];
        }
      }
    }
  }

  /** n entries give 1 + 2n lines: the header, then the lines of each entry in input order. */
  lemma LinesShape(entries: seq<MetaData>, p: Platform)
    requires AllFiles(entries)
    ensures |Lines(entries, p)| == 1 + 2 * |entries|
    ensures Lines(entries, p)[0] == Header
    ensures forall k :: 0 <= k < |entries| ==>
      Lines(entries, p)[1 + 2 * k] == ExtInf(entries[k].duration, entries[k].fileInfo.value)
      && Lines(entries, p)[2 + 2 * k] == FileLocation(entries[k].fileInfo.value, p)
  {
    EntryShape(entries, p);
    var e := EntryLines(entries, p);
    assert Lines(entries, p) == [Header] + e;
    ConsAt(Header, e);
  }

  /** Putting one line in front shifts every index by one. */
  lemma ConsAt(h: string, e: seq<string>)
    ensures |[h] + e| == 1 + |e| && ([h] + e)[0] == h
    ensures forall j :: 0 <= j < |e| ==> ([h] + e)[j + 1] == e[j]
  {
  }

  /** The value of `#EXTINF` is the whole seconds of the duration (5 for any duration from
      5 s up to, not including, 6 s). */
  lemma ExtInfSeconds(duration: int, f: FileInfo, s: nat)
    requires s <= Int32Max && s * 1000 <= duration < (s + 1) * 1000
    ensures ExtInf(duration, f) == "#EXTINF:" + NatToString(s) + "," + f.name
  {
    assert WholeSeconds(duration) == s;
  }

  lemma ExtInfFive(duration: int, f: FileInfo)
    requires 5000 <= duration < 6000
    ensures ExtInf(duration, f) == "#EXTINF:" + "5" + "," + f.name
  {
    ExtInfSeconds(duration, f, 5);
  }

  lemma ExtInfTwentySeven(duration: int, f: FileInfo)
    requires 27000 <= duration < 28000
    ensures ExtInf(duration, f) == "#EXTINF:" + "27" + "," + f.name
  {
    ExtInfSeconds(duration, f, 27);
    assert NatToString(27) == NatToString(2) + [DigitChar(7)];
  }

  /** The first index at or after `j` where `sep` starts in `s`, or `|s|` when there is none. */
  function FirstAt(s: string, sep: string, j: nat): (k: nat)
    requires |sep| > 0 && j <= |s|
    ensures j <= k <= |s|
    ensures k < |s| ==> StartsAt(s, k, sep)
    ensures forall m :: j <= m < k ==> !StartsAt(s, m, sep)
    decreases |s| - j
  {
    if j + |sep| > |s| then |s| else if StartsAt(s, j, sep) then j else FirstAt(s, sep, j + 1)
  }

  /** Text cut into the lines that each end with `sep`; an unterminated tail is one more line. */
  function SplitLines(s: string, sep: string): seq<string>
    requires |sep| > 0
    decreases |s|
  {
    if s == [] then []
    else
      var k := FirstAt(s, sep, 0);
      if k == |s| then [s] else [s[..k]] + SplitLines(s[k + |sep|..], sep)
  }

  /** No terminator starts inside `line`, even one running into the terminator after it. */
  predicate Unbroken(line: string, sep: string) {
    forall m :: 0 <= m < |line| ==> !StartsAt(line + sep, m, sep)
  }

  /** A line without the terminator's first character is unbroken (`\r\n` and `\n` after a
      line free of `\r` and `\n`). */
  lemma PlainUnbroken(line: string, sep: string)
    requires |sep| > 0 && forall i :: 0 <= i < |line| ==> line[i] != sep[0]
    ensures Unbroken(line, sep)
  {
    forall m | 0 <= m < |line|
      ensures !StartsAt(line + sep, m, sep)
    {
      assert (line + sep)[m] == line[m];
    }
  }

  /** Reading the lines back: cutting terminated text at its terminators gives the lines. */
  lemma {:induction false} SplitTerminated(lines: seq<string>, sep: string)
    requires |sep| > 0
    requires forall i :: 0 <= i < |lines| ==> Unbroken(lines[i], sep)
    ensures SplitLines(Terminated(lines, sep), sep) == lines
    decreases |lines|
  {
    if lines != [] {
      var t := Terminated(lines, sep);
      var l := lines[0];
      var rest := Terminated(lines[1..], sep);
      assert t == l + sep + rest;
      assert StartsAt(t, |l|, sep) by {
        assert t[|l|..|l| + |sep|] == sep;
      }
      forall m | 0 <= m < |l|
        ensures !StartsAt(t, m, sep)
      {
        assert Unbroken(lines[0], sep);
        if StartsAt(t, m, sep) {
          assert (l + sep)[m..m + |sep|] == t[m..m + |sep|];
          assert StartsAt(l + sep, m, sep);
        }
      }
      assert FirstAt(t, sep, 0) == |l|;
      assert t[..|l|] == l;
      assert t[|l| + |sep|..] == rest;
      SplitTerminated(lines[1..], sep);
      assert [l] + lines[1..] == lines;
    }
  }

  /** The text `Create` returns splits back into exactly the header and the entry lines
      (when no line holds the terminator), so it has 1 + 2n lines, each ended by a newline. */
  lemma CreateRoundTrip(entries: seq<MetaData>, p: Platform)
    requires AllFiles(entries) && |p.newLine| > 0
    requires forall i :: 0 <= i < |Lines(entries, p)| ==> Unbroken(Lines(entries, p)[i], p.newLine)
    ensures CreateText(Some(entries), p).Success?
    ensures SplitLines(CreateText(Some(entries), p).value, p.newLine) == Lines(entries, p)
    ensures |SplitLines(CreateText(Some(entries), p).value, p.newLine)| == 1 + 2 * |entries|
  {
    SplitTerminated(Lines(entries, p), p.newLine);
    LinesShape(entries, p);
  }

  /** The outcomes: `ArgumentException` exactly for a null list, `NullReferenceException`
      exactly when an entry has no file, text otherwise; an empty list gives the header line. */
  lemma CreateOutcome(metaData: Option<seq<MetaData>>, p: Platform)
    ensures CreateText(metaData, p) == Failure(ArgumentError) <==> metaData.None?
    ensures CreateText(metaData, p) == Failure(NullReference) <==>
      metaData.Some? && exists i :: 0 <= i < |metaData.value| && metaData.value[i].fileInfo.None?
    ensures metaData == Some([]) ==> CreateText(metaData, p) == Success(Header + p.newLine + "")
  {
    if metaData == Some([]) {
      assert Lines([], p) == [Header];
      assert [Header][1..] == [];
      assert Terminated([], p.newLine) == "";
    }
  }
}
