/** The video descriptor of the metadata tests (`tests/FFmpeg.NET.Tests/MetadataTests.cs`)
    read by `RegexEngine.VideoInfoOf`: the scanners of `Patterns` worked through on one line,
    position by position. The lemmas take any text laid out like the sample (the `StartsAt`
    facts at fixed offsets that `Layout` proves of the sample itself), so that each proof
    reasons about a handful of offsets instead of one long literal. */
module VideoSample {
  import opened Wrappers
  import opened Text
  import opened Numbers
  import opened Media
  import opened Patterns
  import opened RegexEngine

  const Stream: string := "Stream #0:0: "
  const Format: string := "h264 (Main) (avc1 / 0x31637661)"
  const Colour: string := "yuv420p"
  const Width: string := "1280"
  const Height: string := "720"
  const Aspect: string := " [SAR 1:1 DAR 16:9]"
  const Kbs: string := "1205"
  const Fps: string := "25"

  /** `Stream #0:0: Video: h264 (Main) (avc1 / 0x31637661), yuv420p, 1280x720 [SAR 1:1
      DAR 16:9], 1205 kb/s, 25 fps, 25 tbr`, 116 characters. */
  const Descriptor: string := Joined(Parts, |Parts|)

  /** The descriptor cut into the pieces the scanners look at, so that `Layout` can place
      each one. */
  const Parts: seq<string> :=
    [Stream, "Video:", " ", Format, ", ", Colour, ", ", Width, "x", Height,
     Aspect, ", ", Kbs, " ", "kb/s", ", ", Fps, " fps", ", ", Fps, " ", "tbr"]

  /** The first `k` of the parts `ps`, concatenated. */
  function Joined(ps: seq<string>, k: nat): string
    requires k <= |ps|
  {
    if k == 0 then "" else Joined(ps, k - 1) + ps[k - 1]
  }

  lemma {:induction false} JoinedPrefix(ps: seq<string>, j: nat, k: nat)
    requires j <= k <= |ps|
    ensures Joined(ps, j) <= Joined(ps, k)
  {
    if j < k {
      JoinedPrefix(ps, j, k - 1);
    }
  }

  /** Part `k` starts where the first `k` parts end. */
  lemma JoinedAt(ps: seq<string>, k: nat)
    requires k < |ps|
    ensures StartsAt(Joined(ps, |ps|), |Joined(ps, k)|, ps[k])
  {
    JoinedPrefix(ps, k + 1, |ps|);
    PrefixPart(Joined(ps, k), ps[k], Joined(ps, |ps|));
  }

  /** Where parts 0 to 3 start. */
  lemma Offsets0()
    ensures |Joined(Parts, 1)| == 13
    ensures |Joined(Parts, 2)| == 19
    ensures |Joined(Parts, 3)| == 20
  {
    assert |Joined(Parts, 1)| == 13;
    assert |Joined(Parts, 2)| == 19;
    assert |Joined(Parts, 3)| == 20;
  }

  /** Where parts 4 to 7 start. */
  lemma Offsets1()
    ensures |Joined(Parts, 4)| == 51
    ensures |Joined(Parts, 5)| == 53
    ensures |Joined(Parts, 6)| == 60
    ensures |Joined(Parts, 7)| == 62
  {
    Offsets0();
    assert |Joined(Parts, 4)| == 51;
    assert |Joined(Parts, 5)| == 53;
    assert |Joined(Parts, 6)| == 60;
    assert |Joined(Parts, 7)| == 62;
  }

  /** Where parts 8 to 11 start. */
  lemma Offsets2()
    ensures |Joined(Parts, 8)| == 66
    ensures |Joined(Parts, 9)| == 67
    ensures |Joined(Parts, 10)| == 70
    ensures |Joined(Parts, 11)| == 89
  {
    Offsets1();
    assert |Joined(Parts, 8)| == 66;
    assert |Joined(Parts, 9)| == 67;
    assert |Joined(Parts, 10)| == 70;
    assert |Joined(Parts, 11)| == 89;
  }

  /** Where parts 12 to 15 start. */
  lemma Offsets3()
    ensures |Joined(Parts, 12)| == 91
    ensures |Joined(Parts, 13)| == 95
    ensures |Joined(Parts, 14)| == 96
    ensures |Joined(Parts, 15)| == 100
  {
    Offsets2();
    assert |Joined(Parts, 12)| == 91;
    assert |Joined(Parts, 13)| == 95;
    assert |Joined(Parts, 14)| == 96;
    assert |Joined(Parts, 15)| == 100;
  }

  /** Where parts 16 to 19 start. */
  lemma Offsets4()
    ensures |Joined(Parts, 16)| == 102
    ensures |Joined(Parts, 17)| == 104
    ensures |Joined(Parts, 18)| == 108
    ensures |Joined(Parts, 19)| == 110
  {
    Offsets3();
    assert |Joined(Parts, 16)| == 102;
    assert |Joined(Parts, 17)| == 104;
    assert |Joined(Parts, 18)| == 108;
    assert |Joined(Parts, 19)| == 110;
  }

  /** Where parts 20 to 21 start, and the length of the whole. */
  lemma Offsets5()
    ensures |Joined(Parts, 20)| == 112
    ensures |Joined(Parts, 21)| == 113
    ensures |Joined(Parts, 22)| == 116
  {
    Offsets4();
    assert |Joined(Parts, 20)| == 112;
    assert |Joined(Parts, 21)| == 113;
    assert |Joined(Parts, 22)| == 116;
  }

  lemma Layout0()
    ensures StartsAt(Descriptor, 0, Stream)
    ensures StartsAt(Descriptor, 13, "Video:")
    ensures StartsAt(Descriptor, 19, " ")
    ensures StartsAt(Descriptor, 20, Format)
  {
    Offsets0();
    JoinedAt(Parts, 0);
    JoinedAt(Parts, 1);
    JoinedAt(Parts, 2);
    JoinedAt(Parts, 3);
  }

  lemma Layout1()
    ensures StartsAt(Descriptor, 51, ", ")
    ensures StartsAt(Descriptor, 53, Colour)
    ensures StartsAt(Descriptor, 60, ", ")
    ensures StartsAt(Descriptor, 62, Width)
  {
    Offsets1();
    JoinedAt(Parts, 4);
    JoinedAt(Parts, 5);
    JoinedAt(Parts, 6);
    JoinedAt(Parts, 7);
  }

  lemma Layout2()
    ensures StartsAt(Descriptor, 66, "x")
    ensures StartsAt(Descriptor, 67, Height)
    ensures StartsAt(Descriptor, 70, Aspect)
    ensures StartsAt(Descriptor, 89, ", ")
  {
    Offsets2();
    JoinedAt(Parts, 8);
    JoinedAt(Parts, 9);
    JoinedAt(Parts, 10);
    JoinedAt(Parts, 11);
  }

  lemma Layout3()
    ensures StartsAt(Descriptor, 91, Kbs)
    ensures StartsAt(Descriptor, 95, " ")
    ensures StartsAt(Descriptor, 96, "kb/s")
    ensures StartsAt(Descriptor, 100, ", ")
  {
    Offsets3();
    JoinedAt(Parts, 12);
    JoinedAt(Parts, 13);
    JoinedAt(Parts, 14);
    JoinedAt(Parts, 15);
  }

  lemma Layout4()
    ensures StartsAt(Descriptor, 102, Fps)
    ensures StartsAt(Descriptor, 104, " fps")
    ensures StartsAt(Descriptor, 108, ", ")
    ensures StartsAt(Descriptor, 110, Fps)
  {
    Offsets4();
    JoinedAt(Parts, 16);
    JoinedAt(Parts, 17);
    JoinedAt(Parts, 18);
    JoinedAt(Parts, 19);
  }

  lemma Layout5()
    ensures StartsAt(Descriptor, 112, " ")
    ensures StartsAt(Descriptor, 113, "tbr")
  {
    Offsets5();
    JoinedAt(Parts, 20);
    JoinedAt(Parts, 21);
  }

  /** Where each part of the descriptor starts. */
  lemma Layout()
    ensures |Descriptor| == 116
    ensures StartsAt(Descriptor, 0, Stream)
    ensures StartsAt(Descriptor, 13, "Video:")
    ensures StartsAt(Descriptor, 19, " ")
    ensures StartsAt(Descriptor, 20, Format)
    ensures StartsAt(Descriptor, 51, ", ")
    ensures StartsAt(Descriptor, 53, Colour)
    ensures StartsAt(Descriptor, 60, ", ")
    ensures StartsAt(Descriptor, 62, Width)
    ensures StartsAt(Descriptor, 66, "x")
    ensures StartsAt(Descriptor, 67, Height)
    ensures StartsAt(Descriptor, 70, Aspect)
    ensures StartsAt(Descriptor, 89, ", ")
    ensures StartsAt(Descriptor, 91, Kbs)
    ensures StartsAt(Descriptor, 95, " ")
    ensures StartsAt(Descriptor, 96, "kb/s")
    ensures StartsAt(Descriptor, 100, ", ")
    ensures StartsAt(Descriptor, 102, Fps)
    ensures StartsAt(Descriptor, 104, " fps")
    ensures StartsAt(Descriptor, 108, ", ")
    ensures StartsAt(Descriptor, 110, Fps)
    ensures StartsAt(Descriptor, 112, " ")
    ensures StartsAt(Descriptor, 113, "tbr")
  {
    Offsets5();
    Layout0();
    Layout1();
    Layout2();
    Layout3();
    Layout4();
    Layout5();
  }

  lemma StreamFacts()
    ensures 'V' !in Stream && 'b' !in Stream && 'k' !in Stream && Stream[12] == ' '
  {
  }

  lemma FormatFacts()
    ensures ',' !in Format && 'k' !in Format && 't' !in Format && Format[0] == 'h'
  {
    FormatNoComma();
    FormatNoK();
    FormatNoT();
  }

  lemma FormatNoComma()
    ensures ',' !in Format
  {
  }

  lemma FormatNoK()
    ensures 'k' !in Format
  {
  }

  lemma FormatNoT()
    ensures 't' !in Format
  {
  }

  lemma ColourFacts()
    ensures ',' !in Colour && 'k' !in Colour && 't' !in Colour && Colour[0] == 'y'
  {
  }

  lemma AspectFacts()
    ensures 'k' !in Aspect && 't' !in Aspect && ',' !in Aspect && Aspect[0] == ' '
  {
  }

  lemma DigitFacts()
    ensures AllDigits(Width) && AllDigits(Height) && AllDigits(Kbs) && AllDigits(Fps)
    ensures Width[0] == '1' && Kbs[0] == '1' && Fps[0] == '2'
  {
  }

  /** The format group runs from after `Video: ` to the first comma. */
  lemma FormatPositions(s: string)
    requires |s| == 116
    requires StartsAt(s, 19, " ") && StartsAt(s, 20, Format) && StartsAt(s, 51, ", ")
    requires StartsAt(s, 53, Colour)
    ensures Ws(s, 19) == 20 && NextOrEnd(s, ',', 20) == 51 && Ws(s, 52) == 53
  {
    FormatFacts();
    ColourFacts();
    assert s[19] == ' ' && s[20] == Format[0] && s[53] == Colour[0];
    OneSpace(s, 19);
    FieldAt(s, 20, Format);
  }

  /** The colour runs to the next comma, and the frame size follows at once. */
  lemma ColourPositions(s: string)
    requires |s| == 116
    requires StartsAt(s, 53, Colour) && StartsAt(s, 60, ", ") && StartsAt(s, 62, Width)
    requires StartsAt(s, 66, "x") && StartsAt(s, 67, Height) && StartsAt(s, 70, Aspect)
    ensures NextOrEnd(s, ',', 53) == 60 && ColourEnd(s, 53, 60) == 61
    ensures SizeText(s, 61) == Width + "x" + Height
  {
    ColourFacts();
    DigitFacts();
    FieldAt(s, 53, Colour);
    SizePositions(s);
  }

  /** The size tail at the space after the colour's comma. */
  lemma SizePositions(s: string)
    requires |s| == 116
    requires StartsAt(s, 60, ", ") && StartsAt(s, 62, Width)
    requires StartsAt(s, 66, "x") && StartsAt(s, 67, Height) && StartsAt(s, 70, Aspect)
    ensures SizeFollows(s, 61) && SizeText(s, 61) == Width + "x" + Height
    ensures forall hi :: 61 <= hi <= |s| ==> FirstSizeEnd(s, 61, hi) == 61
  {
    AspectFacts();
    DigitFacts();
    assert s[61] == ' ' && s[62] == Width[0] && s[66] == 'x' && s[70] == Aspect[0];
    OneSpace(s, 61);
    DigitRun(s, 62, Width);
    DigitRun(s, 67, Height);
    SizeTail(s, 61, 62, 66, 70);
    StartsAt3(s, 62, Width, "x", Height);
  }

  /** The fields pattern at `Video:`: the format up to the first comma, the colour with the
      comma after it, and the frame size. */
  lemma FieldsAt(s: string)
    requires |s| == 116
    requires StartsAt(s, 13, "Video:") && StartsAt(s, 19, " ") && StartsAt(s, 20, Format)
    requires StartsAt(s, 51, ", ") && StartsAt(s, 53, Colour) && StartsAt(s, 60, ", ")
    requires StartsAt(s, 62, Width) && StartsAt(s, 66, "x") && StartsAt(s, 67, Height)
    requires StartsAt(s, 70, Aspect)
    ensures VideoFieldsAt(s, 13) == Matched([Format, Colour + ",", Width + "x" + Height])
  {
    FormatPositions(s);
    ColourPositions(s);
    assert VideoFieldsAt(s, 13) == Matched([s[20..51], s[53..61], SizeText(s, 61)]);
    assert s[20..51] == Format;
    assert s[60] == ',' && s[60..61] == ",";
    assert s[53..61] == s[53..60] + s[60..61];
  }

  /** The fields pattern first matches at `Video:`: the stream header holds no `V`. */
  lemma FieldsFind(s: string)
    requires |s| == 116 && StartsAt(s, 0, Stream)
    requires StartsAt(s, 13, "Video:") && StartsAt(s, 19, " ") && StartsAt(s, 20, Format)
    requires StartsAt(s, 51, ", ") && StartsAt(s, 53, Colour) && StartsAt(s, 60, ", ")
    requires StartsAt(s, 62, Width) && StartsAt(s, 66, "x") && StartsAt(s, 67, Height)
    requires StartsAt(s, 70, Aspect)
    ensures Find(VideoFormatColorSize, s) == Matched([Format, Colour + ",", Width + "x" + Height])
  {
    FieldsAt(s);
    NoVideoBefore(s);
    FindAt(VideoFormatColorSize, s, 13);
  }

  /** The fields pattern needs `Video:`, and the stream header holds no `V`. */
  lemma NoVideoBefore(s: string)
    requires |s| == 116 && StartsAt(s, 0, Stream)
    ensures forall k :: 0 <= k < 13 ==> MatchAt(VideoFormatColorSize, s, k).NoMatch?
  {
    StreamFacts();
    forall k | 0 <= k < 13
      ensures MatchAt(VideoFormatColorSize, s, k).NoMatch?
    {
      assert s[k] == s[0..13][k];
      assert !StartsAt(s, k, "Video:");
    }
  }

  /** No `k` before the comma in front of the bitrate. */
  lemma NoKBefore(s: string)
    requires |s| == 116 && StartsAt(s, 0, Stream)
    requires StartsAt(s, 13, "Video:") && StartsAt(s, 19, " ") && StartsAt(s, 20, Format)
    requires StartsAt(s, 51, ", ") && StartsAt(s, 53, Colour) && StartsAt(s, 60, ", ")
    requires StartsAt(s, 62, Width) && StartsAt(s, 66, "x") && StartsAt(s, 67, Height)
    requires StartsAt(s, 70, Aspect) && StartsAt(s, 89, ", ")
    ensures forall j :: 0 <= j <= 89 ==> s[j] != 'k'
  {
    StreamFacts();
    FormatFacts();
    ColourFacts();
    AspectFacts();
    DigitFacts();
    forall j | 0 <= j <= 89
      ensures s[j] != 'k'
    {
      if j < 13 { assert s[j] == s[0..13][j]; }
      else if j < 19 { assert s[j] == s[13..19][j - 13]; }
      else if j < 20 { assert s[j] == ' '; }
      else if j < 51 { assert s[j] == s[20..51][j - 20]; }
      else if j < 53 { assert s[j] == s[51..53][j - 51]; }
      else if j < 60 { assert s[j] == s[53..60][j - 53]; }
      else if j < 62 { assert s[j] == s[60..62][j - 60]; }
      else if j < 66 { assert s[j] == s[62..66][j - 62]; }
      else if j < 67 { assert s[j] == 'x'; }
      else if j < 70 { assert s[j] == s[67..70][j - 67]; }
      else if j < 89 { assert s[j] == s[70..89][j - 70]; }
      else { assert s[j] == ','; }
    }
  }

  /** `([0-9]*)\s*kb/s` first matches at the bitrate digits. */
  lemma BitRateFind(s: string)
    requires |s| == 116 && StartsAt(s, 0, Stream)
    requires StartsAt(s, 13, "Video:") && StartsAt(s, 19, " ") && StartsAt(s, 20, Format)
    requires StartsAt(s, 51, ", ") && StartsAt(s, 53, Colour) && StartsAt(s, 60, ", ")
    requires StartsAt(s, 62, Width) && StartsAt(s, 66, "x") && StartsAt(s, 67, Height)
    requires StartsAt(s, 70, Aspect) && StartsAt(s, 89, ", ") && StartsAt(s, 91, Kbs)
    requires StartsAt(s, 95, " ") && StartsAt(s, 96, "kb/s")
    ensures Find(BitRate, s) == Matched([Kbs])
  {
    NoKBefore(s);
    DigitFacts();
    assert s[89] == ',' && s[90] == ' ' && s[91] == Kbs[0] && s[95] == ' ' && s[96] == 'k';
    forall k | 0 <= k < 91
      ensures MatchAt(BitRate, s, k).NoMatch?
    {
      if k <= 89 {
        BitRateMiss(s, k, 89);
      } else {
        OneSpace(s, 90);
        SpanEnd(s, 90, 90, IsDigit);
      }
    }
    DigitRun(s, 91, Kbs);
    OneSpace(s, 95);
    FindAt(BitRate, s, 91);
  }

  lemma TbrHead(s: string, j: nat)
    ensures StartsAt(s, j, "tbr") ==> s[j] == 't' && s[j + 1] == 'b'
  {
    if StartsAt(s, j, "tbr") {
      assert s[j] == s[j..j + 3][0] && s[j + 1] == s[j..j + 3][1];
    }
  }

  /** No `tb` before the comma in front of the `tbr` count: the only `t` there is the one in
      `Stream`, followed by `r`. */
  lemma NoTbrBefore(s: string)
    requires |s| == 116 && StartsAt(s, 0, Stream)
    requires StartsAt(s, 13, "Video:") && StartsAt(s, 19, " ") && StartsAt(s, 20, Format)
    requires StartsAt(s, 51, ", ") && StartsAt(s, 53, Colour) && StartsAt(s, 60, ", ")
    requires StartsAt(s, 62, Width) && StartsAt(s, 66, "x") && StartsAt(s, 67, Height)
    requires StartsAt(s, 70, Aspect) && StartsAt(s, 89, ", ") && StartsAt(s, 91, Kbs)
    requires StartsAt(s, 95, " ") && StartsAt(s, 96, "kb/s") && StartsAt(s, 100, ", ")
    requires StartsAt(s, 102, Fps) && StartsAt(s, 104, " fps") && StartsAt(s, 108, ", ")
    ensures forall j :: 0 <= j <= 108 ==> !StartsAt(s, j, "tbr")
  {
    StreamFacts();
    FormatFacts();
    ColourFacts();
    AspectFacts();
    DigitFacts();
    forall j | 0 <= j <= 108
      ensures s[j] != 't' || s[j + 1] != 'b'
    {
      if j < 12 { assert s[j + 1] == s[0..13][j + 1]; }
      else if j < 13 { assert s[j] == s[0..13][j]; }
      else if j < 19 { assert s[j] == s[13..19][j - 13]; }
      else if j < 20 { assert s[j] == ' '; }
      else if j < 51 { assert s[j] == s[20..51][j - 20]; }
      else if j < 53 { assert s[j] == s[51..53][j - 51]; }
      else if j < 60 { assert s[j] == s[53..60][j - 53]; }
      else if j < 62 { assert s[j] == s[60..62][j - 60]; }
      else if j < 66 { assert s[j] == s[62..66][j - 62]; }
      else if j < 67 { assert s[j] == 'x'; }
      else if j < 70 { assert s[j] == s[67..70][j - 67]; }
      else if j < 89 { assert s[j] == s[70..89][j - 70]; }
      else if j < 91 { assert s[j] == s[89..91][j - 89]; }
      else if j < 95 { assert s[j] == s[91..95][j - 91]; }
      else if j < 96 { assert s[j] == ' '; }
      else if j < 100 { assert s[j] == s[96..100][j - 96]; }
      else if j < 102 { assert s[j] == s[100..102][j - 100]; }
      else if j < 104 { assert s[j] == s[102..104][j - 102]; }
      else if j < 108 { assert s[j] == s[104..108][j - 104]; }
      else { assert s[j] == ','; }
    }
    forall j | 0 <= j <= 108
      ensures !StartsAt(s, j, "tbr")
    {
      TbrHead(s, j);
    }
  }


  /** No match of `([0-9\.]*)\s*tbr` starts before the `tbr` count. */
  lemma NoFpsBefore(s: string)
    requires |s| == 116 && s[108] == ',' && s[109] == ' ' && s[110] == '2'
    requires forall j :: 0 <= j <= 108 ==> !StartsAt(s, j, "tbr")
    ensures forall k :: 0 <= k < 110 ==> MatchAt(VideoFps, s, k).NoMatch?
  {
    forall k | 0 <= k < 110
      ensures MatchAt(VideoFps, s, k).NoMatch?
    {
      if k <= 108 {
        VideoFpsMiss(s, k, 108);
      } else {
        SpanEnd(s, 109, 109, IsDigitOrDot);
        OneSpace(s, 109);
      }
    }
  }

  /** `([0-9\.]*)\s*tbr` first matches at the `tbr` count. */
  lemma FpsFind(s: string)
    requires |s| == 116 && StartsAt(s, 0, Stream)
    requires StartsAt(s, 13, "Video:") && StartsAt(s, 19, " ") && StartsAt(s, 20, Format)
    requires StartsAt(s, 51, ", ") && StartsAt(s, 53, Colour) && StartsAt(s, 60, ", ")
    requires StartsAt(s, 62, Width) && StartsAt(s, 66, "x") && StartsAt(s, 67, Height)
    requires StartsAt(s, 70, Aspect) && StartsAt(s, 89, ", ") && StartsAt(s, 91, Kbs)
    requires StartsAt(s, 95, " ") && StartsAt(s, 96, "kb/s") && StartsAt(s, 100, ", ")
    requires StartsAt(s, 102, Fps) && StartsAt(s, 104, " fps") && StartsAt(s, 108, ", ")
    requires StartsAt(s, 110, Fps) && StartsAt(s, 112, " ") && StartsAt(s, 113, "tbr")
    ensures Find(VideoFps, s) == Matched([Fps])
  {
    NoTbrBefore(s);
    DigitFacts();
    assert s[108] == ',' && s[109] == ' ' && s[110] == Fps[0] && s[112] == ' ' && s[113] == 't';
    NoFpsBefore(s);
    RunAt(s, 110, Fps, IsDigitOrDot);
    OneSpace(s, 112);
    FindAt(VideoFps, s, 110);
  }

  /** The bitrate and fps captures convert to 1205 and 25. */
  lemma SampleNumbers()
    ensures ConvertToInt32(Kbs) == Success(1205) && ConvertToDouble(Fps) == Success(25.0)
  {
    DigitFacts();
    TrimDigits(Kbs);
    TrimDigits(Fps);
    SpanEnd(Fps, 0, 2, IsDigit);
    assert Kbs[..3] == "120" && "120"[..2] == "12" && "12"[..1] == "1" && "1"[..0] == "";
    assert DigitsValue(Kbs) == 1205;
    assert Fps[..1] == "2" && "2"[..0] == "";
    assert DigitsValue(Fps) == 25;
  }

  /** What the three scanners find in the sample. */
  lemma SampleFinds()
    ensures Find(VideoFormatColorSize, Descriptor) == Matched([Format, Colour + ",", Width + "x" + Height])
    ensures Find(BitRate, Descriptor) == Matched([Kbs])
    ensures Find(VideoFps, Descriptor) == Matched([Fps])
  {
    Layout();
    FieldsFind(Descriptor);
    BitRateFind(Descriptor);
    FpsFind(Descriptor);
  }

  lemma SampleStrings()
    ensures Colour + "," == "yuv420p," && Width + "x" + Height == "1280x720"
  {
  }

  /** The record built from any descriptor on which the scanners find what they find in the
      sample. */
  lemma InfoFromFinds(s: string)
    requires Find(VideoFormatColorSize, s) == Matched([Format, Colour + ",", Width + "x" + Height])
    requires Find(BitRate, s) == Matched([Kbs])
    requires Find(VideoFps, s) == Matched([Fps])
    ensures VideoInfoOf(s) == Success(VideoInfo(Format, Colour + ",", Width + "x" + Height, Some(1205), 25.0))
  {
    SampleNumbers();
  }

  /** `MetaData.Video` of the sample: the format, the colour with its trailing comma, the
      frame size, 1205 kb/s and 25 fps, as the metadata test expects. */
  lemma SampleVideo()
    ensures VideoInfoOf(Descriptor)
            == Success(VideoInfo("h264 (Main) (avc1 / 0x31637661)", "yuv420p,", "1280x720", Some(1205), 25.0))
  {
    SampleFinds();
    InfoFromFinds(Descriptor);
    SampleStrings();
  }
}
