/** The older classifier, `FFmpeg.NET/Engine/RegexEngine.cs`. Its pattern table, its `Get*`
    helpers and its `TestVideo`/`TestAudio` are the same text as the current ones and are
    modelled by the members of `RegexEngine`; what differs is the progress rule. */
module LegacyRegexEngine {
  import opened Wrappers
  import opened Text
  import opened Media
  import opened Patterns
  import RegexEngine
  import TimeSpans

  /** `IsProgressData`: a progress line needs a `size=…kB`, a `time=` and a
      `bitrate=…kbits/s` match. The processed duration comes from `TimeSpan.TryParse`,
      given here as `standardParse` (milliseconds, or None when it returns false); its
      result is ignored, so a failed parse leaves 0. */
  function IsProgressData(data: string, standardParse: string -> Option<int>): Option<ProgressData> {
    var matchFrame := Find(ConvertProgressFrame, data);
    var matchFps := Find(ConvertProgressFps, data);
    var matchSize := Find(ConvertProgressSize, data);
    var matchTime := Find(ConvertProgressTime, data);
    var matchBitrate := Find(ConvertProgressBitrate, data);
    if !matchSize.Success() || !matchTime.Success() || !matchBitrate.Success() then None
    else
      Some(ProgressData(standardParse(matchTime.Group(1)).GetOr(0), 0,
                        RegexEngine.GetLongValue(matchFrame), RegexEngine.GetDoubleValue(matchFps),
                        RegexEngine.GetIntValue(matchSize), RegexEngine.GetDoubleValue(matchBitrate)))
  }

  /** The old rule accepts exactly the lines on which all three patterns match, which needs
      `size=`, `time=` and `bitrate=` in the line; the processed duration is 0 when the
      standard parse fails. */
  lemma {:induction false} LegacyAcceptance(data: string, standardParse: string -> Option<int>)
    ensures IsProgressData(data, standardParse).Some? <==>
      Find(ConvertProgressSize, data).Success() && Find(ConvertProgressTime, data).Success()
      && Find(ConvertProgressBitrate, data).Success()
    ensures IsProgressData(data, standardParse).Some? ==>
      Contains(data, "size=") && Contains(data, "time=") && Contains(data, "bitrate=")
    ensures IsProgressData(data, standardParse).Some? && standardParse(RegexEngine.TimeText(data)).None? ==>
      IsProgressData(data, standardParse).value.processed == 0
  {
    FindNeedsLiteral(ConvertProgressSize, data, "size=");
    FindNeedsLiteral(ConvertProgressTime, data, "time=");
    FindNeedsLiteral(ConvertProgressBitrate, data, "bitrate=");
  }

  /** Every line the old rule accepts, the current rule does not reject: it accepts it or its
      own time parser throws. When both accept, they carry the same frame, fps, size and
      bitrate and a total duration of 0. */
  lemma {:induction false} LegacyImpliesCurrent(data: string, standardParse: string -> Option<int>)
    requires IsProgressData(data, standardParse).Some?
    ensures RegexEngine.IsProgressData(data) != Success(None)
    ensures RegexEngine.IsProgressData(data).Success? ==>
      var now := RegexEngine.IsProgressData(data).value.value;
      var was := IsProgressData(data, standardParse).value;
      now.frame == was.frame && now.fps == was.fps && now.sizeKb == was.sizeKb
      && now.bitrate == was.bitrate && now.total == was.total == 0
  {
    LegacyAcceptance(data, standardParse);
    RegexEngine.ProgressIffTime(data);
  }

  /** The inclusion is strict: a line with a time field but no size field is a progress line
      now (unless its time text is out of range) and was not before. */
  lemma CurrentAcceptsMore(data: string, standardParse: string -> Option<int>)
    requires Contains(data, "time=") && !Contains(data, "size=")
    requires !TimeSpans.TimeSpanLargeTryParse(RegexEngine.TimeText(data)).Thrown?
    ensures RegexEngine.IsProgressData(data).Success? && RegexEngine.IsProgressData(data).value.Some?
    ensures IsProgressData(data, standardParse).None?
  {
    RegexEngine.ProgressIffTime(data);
    LegacyAcceptance(data, standardParse);
  }
}
