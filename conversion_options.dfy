/** The conversion options object of `src/FFmpeg.NET/ConversionOptions.cs`: mutable properties
    with their defaults, the clamping `VideoTimeScale` setter and `CutMedia`. */
module Options {
  import opened Wrappers
  import VideoCodecs

  /** An enum member, by its declared name; enum names are non-empty identifiers. */
  type EnumName = s: string | |s| > 0 witness "Default"

  /** The rectangle `AppendVideoCropping` reads. */
  datatype CropRectangle = CropRectangle(x: int, y: int, width: int, height: int)

  /** The values of all properties at one moment, in declaration order; time spans in
      milliseconds, `double?` as an exact real. `BaselineProfile` is the flag the argument
      builder reads. */
  datatype Settings = Settings(
    hideBanner: bool,
    threads: int,
    hwAccel: EnumName,
    hwAccelOutputFormatCopy: bool,
    audioBitRate: Option<int>,
    removeAudio: bool,
    audioSampleRate: EnumName,
    maxVideoDuration: Option<int>,
    seek: Option<int>,
    target: EnumName,
    targetStandard: EnumName,
    videoAspectRatio: EnumName,
    videoBitRate: Option<int>,
    audioChanel: Option<int>,
    videoFps: Option<int>,
    pixelFormat: Option<string>,
    videoSize: EnumName,
    videoCodec: EnumName,
    videoCodecPreset: EnumName,
    videoCodecProfile: EnumName,
    videoFormat: EnumName,
    videoTimeScale: Option<real>,
    mapMetadata: bool,
    customWidth: Option<int>,
    customHeight: Option<int>,
    extraArguments: Option<string>,
    sourceCrop: Option<CropRectangle>,
    baselineProfile: bool)

  /** `ConversionOptions`, lines 12-150: the initialisers. Every enum property starts at its first member
      (`Default`, or `None` for `HWAccel`) and every nullable property at null. */
  const Defaults: Settings := Settings(
    false, 0, "None", true, None, false, "Default", None, None, "Default", "Default", "Default",
    None, None, None, None, "Default", VideoCodecs.Default, "Default", "Default", "Default",
    None, true, None, None, None, None, false)

  /** `ConversionOptions`, line 124: what the setter stores. */
  function ClampTimeScale(value: Option<real>): (r: real)
    ensures r > 0.0
    ensures value.Some? && value.value > 0.0 ==> r == value.value
    ensures !(value.Some? && value.value > 0.0) ==> r == 1.0
  {
    if value.Some? && value.value > 0.0 then value.value else 1.0
  }

  class ConversionOptions {
    var hideBanner: bool
    var threads: int
    var hwAccel: EnumName
    var hwAccelOutputFormatCopy: bool
    var audioBitRate: Option<int>
    var removeAudio: bool
    var audioSampleRate: EnumName
    var maxVideoDuration: Option<int>
    var seek: Option<int>
    var target: EnumName
    var targetStandard: EnumName
    var videoAspectRatio: EnumName
    var videoBitRate: Option<int>
    var audioChanel: Option<int>
    var videoFps: Option<int>
    var pixelFormat: Option<string>
    var videoSize: EnumName
    var videoCodec: EnumName
    var videoCodecPreset: EnumName
    var videoCodecProfile: EnumName
    var videoFormat: EnumName
    /** The backing field `videoTimeScale` of line 123. */
    var videoTimeScale: Option<real>
    var mapMetadata: bool
    var customWidth: Option<int>
    var customHeight: Option<int>
    var extraArguments: Option<string>
    var sourceCrop: Option<CropRectangle>
    var baselineProfile: bool

    function Value(): Settings
      reads this
    {
      Settings(hideBanner, threads, hwAccel, hwAccelOutputFormatCopy, audioBitRate, removeAudio,
               audioSampleRate, maxVideoDuration, seek, target, targetStandard, videoAspectRatio,
               videoBitRate, audioChanel, videoFps, pixelFormat, videoSize, videoCodec,
               videoCodecPreset, videoCodecProfile, videoFormat, videoTimeScale, mapMetadata,
               customWidth, customHeight, extraArguments, sourceCrop, baselineProfile)
    }

    constructor ()
      ensures Value() == Defaults
    {
      hideBanner := false;
      threads := 0;
      hwAccel := "None";
      hwAccelOutputFormatCopy := true;
      audioBitRate := None;
      removeAudio := false;
      audioSampleRate := "Default";
      maxVideoDuration := None;
      seek := None;
      target := "Default";
      targetStandard := "Default";
      videoAspectRatio := "Default";
      videoBitRate := None;
      audioChanel := None;
      videoFps := None;
      pixelFormat := None;
      videoSize := "Default";
      videoCodec := VideoCodecs.Default;
      videoCodecPreset := "Default";
      videoCodecProfile := "Default";
      videoFormat := "Default";
      videoTimeScale := None;
      mapMetadata := true;
      customWidth := None;
      customHeight := None;
      extraArguments := None;
      sourceCrop := None;
      baselineProfile := false;
    }

    /** The `VideoTimeScale` getter: null until first assigned. */
    function VideoTimeScale(): Option<real>
      reads this
    {
      videoTimeScale
    }

    /** The `VideoTimeScale` setter: a positive value is stored, anything else (null
        included) stores 1; no other property changes. */
    method SetVideoTimeScale(value: Option<real>)
      modifies this
      ensures Value() == old(Value()).(videoTimeScale := Some(ClampTimeScale(value)))
      ensures VideoTimeScale().Some? && VideoTimeScale().value > 0.0
    {
      videoTimeScale := if value.Some? && value.value > 0.0 then value else Some(1.0);
    }

    /** `CutMedia`, lines 171-175: sets the seek position and the maximum duration and nothing else. */
    method CutMedia(seekToPosition: int, length: int)
      modifies this
      ensures Value() == old(Value()).(seek := Some(seekToPosition), maxVideoDuration := Some(length))
    {
      seek := Some(seekToPosition);
      maxVideoDuration := Some(length);
    }
  }

  /** A fresh object has no time scale, and every option the argument builder reads is unset. */
  lemma DefaultsUnset()
    ensures Defaults.videoTimeScale.None? && Defaults.seek.None? && Defaults.maxVideoDuration.None?
    ensures Defaults.audioBitRate.None? && Defaults.videoBitRate.None? && Defaults.videoFps.None?
    ensures Defaults.target == "Default" && Defaults.videoSize == "Default" && Defaults.videoAspectRatio == "Default"
    ensures Defaults.audioSampleRate == "Default" && Defaults.videoCodec == VideoCodecs.Names[0]
    ensures Defaults.sourceCrop.None? && Defaults.extraArguments.None? && !Defaults.baselineProfile
  {
    VideoCodecs.DefaultFirst();
  }
}
