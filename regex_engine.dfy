/** The telemetry classifier of `src/FFmpeg.NET/RegexEngine.cs`: whether a stderr line is a
    progress line and what it carries, and the first-match-wins update of an input's
    stream metadata from a stream-descriptor line. */
module RegexEngine {
  import opened Wrappers
  import opened Text
  import opened Numbers
  import opened Media
  import opened Patterns
  import opened TimeSpans

  // ---------------------------------------------------------------------------------------
  // Conversions

  /** `long.TryParse(group 1)` with `NumberStyles.Any`; the groups it is given are digit runs,
      on which that style and `NumberStyles.Integer` agree. */
  function GetLongValue(m: Match): Option<int> {
    TryParseInteger(m.Group(1), Int64Min, Int64Max)
  }

  /** `double.TryParse(group 1)` with `NumberStyles.Any` on digits with at most one dot. */
  function GetDoubleValue(m: Match): Option<real> {
    TryParseDecimal(m.Group(1))
  }

  /** `int.TryParse(group 1)` with `NumberStyles.Any`. */
  function GetIntValue(m: Match): Option<int> {
    TryParseInteger(m.Group(1), Int32Min, Int32Max)
  }

  /** `Convert.ToInt32(string)`: a format error for text that is not an integer, an overflow
      for one outside the 32-bit range. */
  function ConvertToInt32(t: string): (r: Result<int, Fault>)
    ensures r.Success? ==> Int32Min <= r.value <= Int32Max
    ensures r.Failure? ==> r.error in {FormatError, OverflowError}
  {
    match SignedDigits(TrimNumberWhite(t))
    case None => Failure(FormatError)
    case Some(v) => if Int32Min <= v <= Int32Max then Success(v) else Failure(OverflowError)
  }

  /** `Convert.ToDouble(string, en-US)` on decimal text. */
  function ConvertToDouble(t: string): (r: Result<real, Fault>)
    ensures r.Failure? ==> r.error == FormatError
  {
    match TryParseDecimal(t)
    case None => Failure(FormatError)
    case Some(v) => Success(v)
  }

  // ---------------------------------------------------------------------------------------
  // Progress lines

  /** `IsProgressData`: no progress without a `time=` match; otherwise a snapshot whose
      processed duration is the large-span parse of the time text (zero when it fails; the
      parse may also throw) and whose total duration is zero. */
  function IsProgressData(data: string): Result<Option<ProgressData>, Fault> {
    var matchFrame := Find(ConvertProgressFrame, data);
    var matchFps := Find(ConvertProgressFps, data);
    var matchSize := Find(ConvertProgressSize, data);
    var matchTime := Find(ConvertProgressTime, data);
    var matchBitrate := Find(ConvertProgressBitrate, data);
    if !matchTime.Success() then Success(None)
    else
      var parsed := TimeSpanLargeTryParse(matchTime.Group(1));
      if parsed.Thrown? then Failure(parsed.fault)
      else
        Success(Some(ProgressData(parsed.Value(), 0, GetLongValue(matchFrame), GetDoubleValue(matchFps),
                                  GetIntValue(matchSize), GetDoubleValue(matchBitrate))))
  }

  /** The large-span parse of the time text of a line. */
  function TimeText(data: string): string {
    Find(ConvertProgressTime, data).Group(1)
  }

  /** A line is a progress line exactly when it contains `time=`; frame, fps, size and
      bitrate never decide it. The only other outcome is the exception of an out-of-range
      time text. */
  lemma {:induction false} ProgressIffTime(data: string)
    ensures IsProgressData(data) == Success(None) <==> !Contains(data, "time=")
    ensures IsProgressData(data).Success? && IsProgressData(data).value.Some? <==>
            Contains(data, "time=") && !TimeSpanLargeTryParse(TimeText(data)).Thrown?
    ensures IsProgressData(data).Failure? ==> IsProgressData(data).error == ArgumentOutOfRange
  {
    TimeMatchesIffLiteral(data);
  }

  /** The snapshot of an accepted line: the processed duration is the parsed time text, or 0
      when that text does not parse; the total duration starts at 0. */
  lemma ProgressDurations(data: string)
    requires IsProgressData(data).Success? && IsProgressData(data).value.Some?
    ensures var pd := IsProgressData(data).value.value;
      pd.total == 0
      && (TimeSpanLargeTryParse(TimeText(data)).Rejected? ==> pd.processed == 0)
      && (TimeSpanLargeTryParse(TimeText(data)).Parsed? ==> pd.processed == TimeSpanLargeTryParse(TimeText(data)).ms)
  {
  }

  /** On a digit run, the integer helpers give its value when it fits and null when the run is
      empty (a missing match included) or too large. */
  lemma DigitCapture(m: Match, lo: int, hi: int)
    requires AllDigits(m.Group(1)) && lo <= 0
    ensures TryParseInteger(m.Group(1), lo, hi) ==
            if m.Group(1) == "" || DigitsValue(m.Group(1)) > hi then None else Some(DigitsValue(m.Group(1)) as int)
  {
    if m.Group(1) != "" {
      TryParseDigits(m.Group(1), lo, hi);
    }
  }

  /** The fps text is digits with at most one trailing dot, so the fps field is null exactly
      for an empty or lone-dot capture and is otherwise a whole number. */
  lemma {:induction false} FpsWhole(data: string)
    ensures var g := Find(ConvertProgressFps, data).Group(1);
      (GetDoubleValue(Find(ConvertProgressFps, data)).None? <==> g == "" || g == ".")
      && (GetDoubleValue(Find(ConvertProgressFps, data)).Some? ==>
            GetDoubleValue(Find(ConvertProgressFps, data)).value == GetDoubleValue(Find(ConvertProgressFps, data)).value.Floor as real)
  {
    FpsGroupShape(data);
    var g := Find(ConvertProgressFps, data).Group(1);
    WholeDecimal(g);
  }

  lemma WholeDecimal(g: string)
    requires forall k :: 0 <= k < |g| - 1 ==> IsDigit(g[k])
    requires |g| > 0 ==> IsDigit(g[|g| - 1]) || g[|g| - 1] == '.'
    ensures (TryParseDecimal(g).None? <==> g == "" || g == ".")
    ensures TryParseDecimal(g).Some? ==> TryParseDecimal(g).value == TryParseDecimal(g).value.Floor as real
  {
    if g != "" {
      assert IsDigit(g[0]) || g[0] == '.';
      assert IsDigit(g[|g| - 1]) || g[|g| - 1] == '.';
      assert TrimNumberWhite(g) == g;
      var d := Span(g, 0, IsDigit);
      if d < |g| {
        assert d == |g| - 1;
        assert g[d + 1..] == "";
        assert DecimalValue(g[..d], "") == DigitsValue(g[..d]) as real;
      }
    }
  }

  // ---------------------------------------------------------------------------------------
  // Stream descriptors

  /** The `MetaData.Video` built from a video descriptor, evaluating its initialiser in
      order: the fps conversion, then the bitrate conversion, either of which may throw. */
  function VideoInfoOf(fullMetadata: string): Result<VideoInfo, Fault> {
    var groups := Find(VideoFormatColorSize, fullMetadata);
    var fps := Find(VideoFps, fullMetadata);
    var bitRate := Find(BitRate, fullMetadata);
    var fpsValue := if fps.Success() && fps.Group(1) != "" then ConvertToDouble(fps.Group(1)) else Success(0.0);
    if fpsValue.Failure? then Failure(fpsValue.error)
    else
      var kbs := if bitRate.Success() then ConvertToInt32(bitRate.Group(1)) else Success(0);
      if kbs.Failure? then Failure(kbs.error)
      else
        Success(VideoInfo(groups.Group(1), groups.Group(2), groups.Group(3),
                          if bitRate.Success() then Some(kbs.value) else None, fpsValue.value))
  }

  /** The `MetaData.Audio` built from an audio descriptor; a blank bitrate capture gives 0. */
  function AudioInfoOf(fullMetadata: string): Result<AudioInfo, Fault> {
    var groups := Find(AudioFormatHzChannel, fullMetadata);
    var bitRate := Find(BitRate, fullMetadata).Group(1);
    var kbs := if !IsNullOrWhiteSpace(Some(bitRate)) then ConvertToInt32(bitRate) else Success(0);
    if kbs.Failure? then Failure(kbs.error)
    else Success(AudioInfo(groups.Group(1), groups.Group(2), groups.Group(3), kbs.value))
  }

  /** The input's metadata after a descriptor test, and the exception it threw, if any. */
  datatype Update = Update(metaData: Option<MetaData>, fault: Option<Fault>)

  /** `TestVideo` on values: nothing without a video descriptor; otherwise the metadata is
      created when absent, and `VideoData` is set only while it is still null. An exception
      in the initialiser leaves the created metadata without video data. */
  function VideoUpdate(data: string, md: Option<MetaData>): Update {
    var descriptor := Find(MetaVideo, data);
    if !descriptor.Success() then Update(md, None)
    else
      var base := if md.None? then NewMetaData(None) else md.value;
      if base.video.Some? then Update(Some(base), None)
      else
        match VideoInfoOf(descriptor.Group(1))
        case Success(v) => Update(Some(base.(video := Some(v))), None)
        case Failure(e) => Update(Some(base), Some(e))
  }

  /** `TestAudio` on values, with the same first-match-wins rule. */
  function AudioUpdate(data: string, md: Option<MetaData>): Update {
    var descriptor := Find(MetaAudio, data);
    if !descriptor.Success() then Update(md, None)
    else
      var base := if md.None? then NewMetaData(None) else md.value;
      if base.audio.Some? then Update(Some(base), None)
      else
        match AudioInfoOf(descriptor.Group(1))
        case Success(a) => Update(Some(base.(audio := Some(a))), None)
        case Failure(e) => Update(Some(base), Some(e))
  }

  /** `TestVideo(data, parameters)`: updates the input's metadata in place and returns the
      exception the update raised, if any. */
  method TestVideo(data: string, input: InputRef) returns (fault: Option<Fault>)
    modifies input
    ensures Update(input.metaData, fault) == VideoUpdate(data, old(input.metaData))
  {
    var matchMetaVideo := Find(MetaVideo, data);
    if !matchMetaVideo.Success() {
      return None;
    }
    var fullMetadata := matchMetaVideo.Group(1);
    var groups := Find(VideoFormatColorSize, fullMetadata);
    var matchFps := Find(VideoFps, fullMetadata);
    var matchBitRate := Find(BitRate, fullMetadata);
    if input.metaData.None? {
      input.metaData := Some(NewMetaData(None));
    }
    if input.metaData.value.video.None? {
      var fps := 0.0;
      if matchFps.Success() && matchFps.Group(1) != "" {
        var converted := ConvertToDouble(matchFps.Group(1));
        if converted.Failure? {
          return Some(converted.error);
        }
        fps := converted.value;
      }
      var kbs: Option<int> := None;
      if matchBitRate.Success() {
        var converted := ConvertToInt32(matchBitRate.Group(1));
        if converted.Failure? {
          return Some(converted.error);
        }
        kbs := Some(converted.value);
      }
      var video := VideoInfo(groups.Group(1), groups.Group(2), groups.Group(3), kbs, fps);
      input.metaData := Some(input.metaData.value.(video := Some(video)));
    }
    return None;
  }

  /** `TestAudio(data, parameters)`. */
  method TestAudio(data: string, input: InputRef) returns (fault: Option<Fault>)
    modifies input
    ensures Update(input.metaData, fault) == AudioUpdate(data, old(input.metaData))
  {
    var matchMetaAudio := Find(MetaAudio, data);
    if !matchMetaAudio.Success() {
      return None;
    }
    var fullMetadata := matchMetaAudio.Group(1);
    var groups := Find(AudioFormatHzChannel, fullMetadata);
    var bitRate := Find(BitRate, fullMetadata).Group(1);
    if input.metaData.None? {
      input.metaData := Some(NewMetaData(None));
    }
    if input.metaData.value.audio.None? {
      var kbs := 0;
      if !IsNullOrWhiteSpace(Some(bitRate)) {
        var converted := ConvertToInt32(bitRate);
        if converted.Failure? {
          return Some(converted.error);
        }
        kbs := converted.value;
      }
      var audio := AudioInfo(groups.Group(1), groups.Group(2), groups.Group(3), kbs);
      input.metaData := Some(input.metaData.value.(audio := Some(audio)));
    }
    return None;
  }

  // ---------------------------------------------------------------------------------------
  // Properties of the descriptor updates

  /** A line without a video descriptor changes nothing; with one, metadata exists afterwards,
      stream data already recorded is kept (the first descriptor wins), and the duration,
      the audio data and the file identity are never touched. */
  lemma VideoFirstMatchWins(data: string, md: Option<MetaData>)
    ensures var u := VideoUpdate(data, md);
      (!Find(MetaVideo, data).Success() ==> u == Update(md, None))
      && (Find(MetaVideo, data).Success() ==> u.metaData.Some?)
      && (md.Some? && md.value.video.Some? ==> u == Update(md, None))
      && (md.Some? ==> u.metaData.Some? && u.metaData.value.(video := md.value.video) == md.value)
      && (md.None? && u.metaData.Some? ==> u.metaData.value.duration == 0 && u.metaData.value.fileInfo.None?)
  {
  }

  /** The same rule for audio. */
  lemma AudioFirstMatchWins(data: string, md: Option<MetaData>)
    ensures var u := AudioUpdate(data, md);
      (!Find(MetaAudio, data).Success() ==> u == Update(md, None))
      && (Find(MetaAudio, data).Success() ==> u.metaData.Some?)
      && (md.Some? && md.value.audio.Some? ==> u == Update(md, None))
      && (md.Some? ==> u.metaData.Some? && u.metaData.value.(audio := md.value.audio) == md.value)
      && (md.None? && u.metaData.Some? ==> u.metaData.value.duration == 0 && u.metaData.value.fileInfo.None?)
  {
  }

  /** Fallbacks of the video record: fps 0 without a `tbr` capture, no bitrate without a
      `kb/s` match, and a format exception for a `kb/s` with no digits before it. */
  lemma VideoFallbacks(fullMetadata: string)
    ensures var r := VideoInfoOf(fullMetadata);
      (Find(VideoFps, fullMetadata).Group(1) == "" ==> (r.Success? ==> r.value.fps == 0.0))
      && (!Find(BitRate, fullMetadata).Success() ==> (r.Success? ==> r.value.bitRateKbs.None?))
      && (Find(VideoFps, fullMetadata).Group(1) == "" && !Find(BitRate, fullMetadata).Success() ==>
         r.Success? && r.value.fps == 0.0 && r.value.bitRateKbs.None?)
      && (Find(BitRate, fullMetadata).Success() && Find(BitRate, fullMetadata).Group(1) == "" ==> r.Failure? && r.error == FormatError)
      && (r.Success? ==> r.value.format == Find(VideoFormatColorSize, fullMetadata).Group(1)
                         && r.value.frameSize == Find(VideoFormatColorSize, fullMetadata).Group(3))
  {
    var fps := Find(VideoFps, fullMetadata);
    if fps.Success() && fps.Group(1) != "" {
      assert ConvertToDouble(fps.Group(1)).Failure? ==> VideoInfoOf(fullMetadata).error == FormatError;
    }
    assert SignedDigits(TrimNumberWhite("")) == None;
  }

  /** Fallback of the audio record: a blank bitrate capture (no `kb/s` at all included) gives 0. */
  lemma AudioFallback(fullMetadata: string)
    ensures Find(BitRate, fullMetadata).Group(1) == "" ==>
      AudioInfoOf(fullMetadata).Success? && AudioInfoOf(fullMetadata).value.bitRateKbs == 0
  {
  }
}
