/** `src/FFmpeg.NET/FFmpegArgumentBuilder.cs`: how a request becomes the single argument
    string handed to ffmpeg. The string is built by appending formatted pieces to a
    `StringBuilder`; the model names each piece, renders it exactly as its format string
    does, and states the order and presence rules on the list of pieces. */
module ArgumentBuilder {
  import opened Wrappers
  import opened Text
  import opened Numbers
  import opened Media
  import opened Options

  /** The tasks of `FFmpegTask`; `Execute` is the one the builder has no branch for. */
  datatype FFmpegTask = ConvertTask | GetMetaDataTask | GetThumbnailTask | ExecuteTask

  /** `FFmpegParameters`: null custom arguments, options and files become `None`. */
  datatype FFmpegParameters = FFmpegParameters(
    customArguments: Option<string>,
    conversionOptions: Option<Settings>,
    task: FFmpegTask,
    outputFile: Option<FileInfo>,
    inputFile: Option<FileInfo>)

  /** Line 5 of `FFmpegParameters.cs`. */
  predicate HasCustomArguments(p: FFmpegParameters) {
    !IsNullOrWhiteSpace(p.customArguments)
  }

  /** How durations are formatted: `TotalSeconds` under the invariant culture (for `-ss`) and
      `TimeSpan.ToString()` (for `-t`), both of a duration in milliseconds. */
  datatype Formats = Formats(totalSeconds: int -> string, timeSpan: int -> string)

  /** One `Append`/`AppendFormat` call of the builder, with its arguments. */
  datatype Piece =
    | Seek(seconds: string)
    | InputPath(path: string)
    | FrameCount(count: int)
    | TargetFlag
    | TargetWithStandard(standard: string, target: string, output: string)
    | TargetOnly(target: string, output: string)
    | AudioBitRate(kbits: int)
    | SampleRate(rate: string)
    | MaxDuration(duration: string)
    | VideoBitRate(kbits: int)
    | FrameRate(fps: int)
    | Scale(width: int, height: int)
    | Size(size: string)
    | Aspect(ratio: string)
    | Crop(rectangle: CropRectangle)
    | Extra(arguments: string)
    | BaselineProfile
    | OutputPath(path: string)
    | DefaultConversion(input: string, output: string)

  /** The text each call appends; integers are written in decimal. */
  function Render(p: Piece): string {
    match p
    case Seek(seconds) => " -ss " + seconds + " "
    case InputPath(path) => " -i \"" + path + "\" "
    case FrameCount(count) => " -vframes " + IntToString(count) + " "
    case TargetFlag => " -target "
    case TargetWithStandard(standard, target, output) =>
      " " + standard + "-" + target + " \"" + output + "\" "
    case TargetOnly(target, output) => target + " \"" + output + "\" "
    case AudioBitRate(kbits) => " -ab " + IntToString(kbits) + "k"
    case SampleRate(rate) => " -ar " + rate + " "
    case MaxDuration(duration) => " -t " + duration + " "
    case VideoBitRate(kbits) => " -b " + IntToString(kbits) + "k "
    case FrameRate(fps) => " -r " + IntToString(fps) + " "
    case Scale(width, height) =>
      " -vf \"scale=" + IntToString(width) + ":" + IntToString(height) + "\" "
    case Size(size) => " -s " + size + " "
    case Aspect(ratio) => " -aspect " + ratio + " "
    case Crop(c) =>
      " -filter:v \"crop=" + IntToString(c.width) + ":" + IntToString(c.height) + ":"
      + IntToString(c.x) + ":" + IntToString(c.y) + "\" "
    case Extra(arguments) => " " + arguments + " "
    case BaselineProfile => " -profile:v baseline "
    case OutputPath(path) => " \"" + path + "\" "
    case DefaultConversion(input, output) => " -i \"" + input + "\" \"" + output + "\" "
  }

  /** The concatenation of `render` over `xs`, in order. */
  function JoinAll<T>(xs: seq<T>, render: T -> string): string {
    if xs == [] then "" else JoinAll(xs[..|xs| - 1], render) + render(xs[|xs| - 1])
  }

  lemma {:induction false} JoinAllAppend<T>(a: seq<T>, b: seq<T>, render: T -> string)
    ensures JoinAll(a + b, render) == JoinAll(a, render) + JoinAll(b, render)
    decreases |b|
  {
    if b == [] {
      assert a + b == a;
    } else {
      assert (a + b)[..|a + b| - 1] == a + b[..|b| - 1];
      JoinAllAppend(a, b[..|b| - 1], render);
    }
  }

  /** The builder's content after appending `ps` in order. */
  function RenderAll(ps: seq<Piece>): string {
    JoinAll(ps, Render)
  }

  lemma RenderAllAppend(a: seq<Piece>, b: seq<Piece>)
    ensures RenderAll(a + b) == RenderAll(a) + RenderAll(b)
  {
    JoinAllAppend(a, b, Render);
  }

  /** A piece when `c` holds, nothing otherwise. */
  function When(c: bool, p: Piece): seq<Piece> {
    if c then [p] else []
  }

  /** A `System.Text.StringBuilder` that only appends; `pieces` records the calls made. */
  class StringBuilder {
    var content: string
    ghost var pieces: seq<Piece>

    ghost predicate Valid()
      reads this
    {
      content == RenderAll(pieces)
    }

    constructor ()
      ensures Valid() && pieces == [] && content == ""
    {
      content := "";
      pieces := [];
    }

    method AppendPiece(p: Piece)
      modifies this
      requires Valid()
      ensures Valid() && pieces == old(pieces) + [p]
      ensures content == old(content) + Render(p)
    {
      content := content + Render(p);
      pieces := pieces + [p];
      assert pieces[..|pieces| - 1] == old(pieces);
    }

    /** `if (c) sb.AppendFormat(…)`: the guarded appends of the builder. */
    method AppendWhen(c: bool, p: Piece)
      modifies this
      requires Valid()
      ensures Valid() && pieces == old(pieces) + When(c, p)
    {
      if c {
        AppendPiece(p);
      } else {
        assert pieces == old(pieces) + [];
      }
    }

    function ToString(): string
      reads this
    {
      content
    }
  }

  lemma Assoc(a: seq<Piece>, b: seq<Piece>, c: seq<Piece>)
    ensures a + (b + c) == (a + b) + c
  {
  }

  /** One more group appended after `start + done`. */
  lemma Extend(start: seq<Piece>, done: seq<Piece>, next: seq<Piece>)
    ensures (start + done) + next == start + (done + next)
  {
    Assoc(start, done, next);
  }

  /** `AppendVideoSize`, lines 154-158: the `-s` token of a named size. */
  function SizeToken(name: EnumName): string {
    var size := ToLower(name);
    var size' := if size[0] == '_' then ReplaceAll(size, "_", "") else size;
    if Contains(size', "_") then ReplaceAll(size', "_", "-") else size'
  }

  /** `AppendVideoAspectRatio`, lines 137-139: the `-aspect` token of a named ratio. */
  function AspectToken(name: EnumName): string {
    ReplaceAll(name[1..], "_", ":")
  }

  /** `Convert`, line 90: the `-ar` token of a named sample rate. */
  function SampleRateToken(name: EnumName): string {
    ReplaceAll(name, "Hz", "")
  }

  /** `AppendVideoSize`, lines 146-163. */
  function SizePieces(o: Settings): seq<Piece> {
    if o.videoSize == "Custom" then [Scale(o.customWidth.GetOr(-2), o.customHeight.GetOr(-2))]
    else When(o.videoSize != "Default", Size(SizeToken(o.videoSize)))
  }

  /** `AppendVideoAspectRatio`, lines 133-144. */
  function AspectPieces(o: Settings): seq<Piece> {
    When(o.videoAspectRatio != "Default", Aspect(AspectToken(o.videoAspectRatio)))
  }

  /** `AppendVideoCropping`, lines 123-131. */
  function CropPieces(o: Settings): seq<Piece> {
    if o.sourceCrop.Some? then [Crop(o.sourceCrop.value)] else []
  }

  /** `Convert`, lines 84-102: the audio, duration, bit rate and frame rate pieces. */
  function RatePieces(o: Settings, f: Formats): seq<Piece> {
    When(o.audioBitRate.Some?, AudioBitRate(o.audioBitRate.GetOr(0)))
    + When(o.audioSampleRate != "Default", SampleRate(SampleRateToken(o.audioSampleRate)))
    + When(o.maxVideoDuration.Some?, MaxDuration(f.timeSpan(o.maxVideoDuration.GetOr(0))))
    + When(o.videoBitRate.Some?, VideoBitRate(o.videoBitRate.GetOr(0)))
    + When(o.videoFps.Some?, FrameRate(o.videoFps.GetOr(0)))
  }

  /** `Convert`, lines 105-111, shared with the thumbnail: size, aspect ratio, cropping. */
  function PicturePieces(o: Settings): seq<Piece> {
    SizePieces(o) + AspectPieces(o) + CropPieces(o)
  }

  /** `Convert`, lines 114-118: the extra arguments and the baseline profile. */
  function TrailingPieces(o: Settings): seq<Piece> {
    When(o.extraArguments.Some?, Extra(o.extraArguments.GetOr("")))
    + When(o.baselineProfile, BaselineProfile)
  }

  /** `Convert`, lines 84-118: the per-field pieces between the input and the output. */
  function FieldPieces(o: Settings, f: Formats): seq<Piece> {
    RatePieces(o, f) + PicturePieces(o) + TrailingPieces(o)
  }

  /** `Convert`, lines 72-79: the piece after ` -target `. */
  function TargetPiece(o: Settings, output: string): Piece {
    if o.targetStandard != "Default" then
      TargetWithStandard(ToLower(o.targetStandard), ToLower(o.target), output)
    else TargetOnly(ToLower(o.target), output)
  }

  /** Lines 56-120: the pieces `Convert` appends for an input and an output path. */
  function ConvertPieces(input: string, output: string, options: Option<Settings>, f: Formats): seq<Piece> {
    if options.None? then [DefaultConversion(input, output)]
    else
      var o := options.value;
      var head := When(o.seek.Some?, Seek(f.totalSeconds(o.seek.GetOr(0)))) + [InputPath(input)];
      if o.target != "Default" then head + [TargetFlag, TargetPiece(o, output)]
      else head + FieldPieces(o, f) + [OutputPath(output)]
  }

  /** Lines 34-51: the pieces `GetThumbnail` appends; the seek defaults to one second. */
  function ThumbnailPieces(input: string, output: string, o: Settings, f: Formats): seq<Piece> {
    [Seek(f.totalSeconds(o.seek.GetOr(1000))), InputPath(input), FrameCount(1)]
    + PicturePieces(o) + [OutputPath(output)]
  }

  /** `Convert`: every null file is dereferenced on every path, so either is a
      `NullReferenceException`. */
  function ConvertArguments(input: Option<FileInfo>, output: Option<FileInfo>, options: Option<Settings>, f: Formats): Result<string, Fault> {
    if input.None? || output.None? then Failure(NullReference)
    else Success(RenderAll(ConvertPieces(input.value.fullName, output.value.fullName, options, f)))
  }

  /** `GetThumbnail`: null options survive the `-ss` line but not `AppendVideoSize`. */
  function ThumbnailArguments(input: Option<FileInfo>, output: Option<FileInfo>, options: Option<Settings>, f: Formats): Result<string, Fault> {
    if input.None? || output.None? || options.None? then Failure(NullReference)
    else Success(RenderAll(ThumbnailPieces(input.value.fullName, output.value.fullName, options.value, f)))
  }

  /** Line 30: `GetMetadata`. */
  function MetadataArguments(input: Option<FileInfo>): Result<string, Fault> {
    if input.None? then Failure(NullReference)
    else Success("-i \"" + input.value.fullName + "\" -f ffmetadata -")
  }

  /** Lines 10-28: `Build`. */
  function BuildArguments(p: FFmpegParameters, f: Formats): Result<string, Fault> {
    if HasCustomArguments(p) then Success(p.customArguments.value)
    else
      match p.task
      case ConvertTask => ConvertArguments(p.inputFile, p.outputFile, p.conversionOptions, f)
      case GetMetaDataTask => MetadataArguments(p.inputFile)
      case GetThumbnailTask => ThumbnailArguments(p.inputFile, p.outputFile, p.conversionOptions, f)
      case ExecuteTask => Failure(ArgumentOutOfRange)
  }

  /** The builder's methods, appending to a `StringBuilder` as the source does. */
  class FFmpegArgumentBuilder {
    /** `AppendVideoSize`, lines 146-163; `size` is reassigned in place. */
    static method AppendVideoSize(sb: StringBuilder, o: Settings)
      modifies sb
      requires sb.Valid()
      ensures sb.Valid() && sb.pieces == old(sb.pieces) + SizePieces(o)
    {
      if o.videoSize == "Custom" {
        sb.AppendPiece(Scale(o.customWidth.GetOr(-2), o.customHeight.GetOr(-2)));
      } else if o.videoSize != "Default" {
        var size := ToLower(o.videoSize);
        if size[0] == '_' {
          size := ReplaceAll(size, "_", "");
        }
        if Contains(size, "_") {
          size := ReplaceAll(size, "_", "-");
        }
        sb.AppendPiece(Size(size));
      }
    }

    /** `AppendVideoAspectRatio`, lines 133-144; `ratio` is reassigned in place. */
    static method AppendVideoAspectRatio(sb: StringBuilder, o: Settings)
      modifies sb
      requires sb.Valid()
      ensures sb.Valid() && sb.pieces == old(sb.pieces) + AspectPieces(o)
    {
      if o.videoAspectRatio != "Default" {
        var ratio: string := o.videoAspectRatio;
        ratio := ratio[1..];
        ratio := ReplaceAll(ratio, "_", ":");
        sb.AppendPiece(Aspect(ratio));
      }
    }

    /** `AppendVideoCropping`, lines 123-131. */
    static method AppendVideoCropping(sb: StringBuilder, o: Settings)
      modifies sb
      requires sb.Valid()
      ensures sb.Valid() && sb.pieces == old(sb.pieces) + CropPieces(o)
    {
      if o.sourceCrop.Some? {
        var crop := o.sourceCrop.value;
        sb.AppendPiece(Crop(crop));
      }
    }

    /** Lines 84-118, the part of `Convert` between the input and the output. */
    static method AppendFields(sb: StringBuilder, o: Settings, f: Formats)
      modifies sb
      requires sb.Valid()
      ensures sb.Valid() && sb.pieces == old(sb.pieces) + FieldPieces(o, f)
    {
      ghost var start := sb.pieces;
      AppendRates(sb, o, f);
      AppendPicture(sb, o);
      Extend(start, RatePieces(o, f), PicturePieces(o));
      AppendTrailing(sb, o);
      Extend(start, RatePieces(o, f) + PicturePieces(o), TrailingPieces(o));
    }

    /** `Convert`, lines 84-102. */
    static method AppendRates(sb: StringBuilder, o: Settings, f: Formats)
      modifies sb
      requires sb.Valid()
      ensures sb.Valid() && sb.pieces == old(sb.pieces) + RatePieces(o, f)
    {
      ghost var start := sb.pieces;
      ghost var bitRate := When(o.audioBitRate.Some?, AudioBitRate(o.audioBitRate.GetOr(0)));
      sb.AppendWhen(o.audioBitRate.Some?, AudioBitRate(o.audioBitRate.GetOr(0)));
      ghost var sampleRate := When(o.audioSampleRate != "Default", SampleRate(SampleRateToken(o.audioSampleRate)));
      sb.AppendWhen(o.audioSampleRate != "Default", SampleRate(ReplaceAll(o.audioSampleRate, "Hz", "")));
      Extend(start, bitRate, sampleRate);
      ghost var done := bitRate + sampleRate;
      ghost var next := When(o.maxVideoDuration.Some?, MaxDuration(f.timeSpan(o.maxVideoDuration.GetOr(0))));
      sb.AppendWhen(o.maxVideoDuration.Some?, MaxDuration(f.timeSpan(o.maxVideoDuration.GetOr(0))));
      Extend(start, done, next);
      done := done + next;
      next := When(o.videoBitRate.Some?, VideoBitRate(o.videoBitRate.GetOr(0)));
      sb.AppendWhen(o.videoBitRate.Some?, VideoBitRate(o.videoBitRate.GetOr(0)));
      Extend(start, done, next);
      done := done + next;
      next := When(o.videoFps.Some?, FrameRate(o.videoFps.GetOr(0)));
      sb.AppendWhen(o.videoFps.Some?, FrameRate(o.videoFps.GetOr(0)));
      Extend(start, done, next);
    }

    /** `Convert`, lines 113-118. */
    static method AppendTrailing(sb: StringBuilder, o: Settings)
      modifies sb
      requires sb.Valid()
      ensures sb.Valid() && sb.pieces == old(sb.pieces) + TrailingPieces(o)
    {
      ghost var start := sb.pieces;
      sb.AppendWhen(o.extraArguments.Some?, Extra(o.extraArguments.GetOr("")));
      sb.AppendWhen(o.baselineProfile, BaselineProfile);
      Extend(start, When(o.extraArguments.Some?, Extra(o.extraArguments.GetOr(""))), When(o.baselineProfile, BaselineProfile));
    }

    /** `Convert`, lines 104-111 (and 42-49 of the thumbnail): the three `Append*` helpers in turn. */
    static method AppendPicture(sb: StringBuilder, o: Settings)
      modifies sb
      requires sb.Valid()
      ensures sb.Valid() && sb.pieces == old(sb.pieces) + PicturePieces(o)
    {
      AppendVideoSize(sb, o);
      AppendVideoAspectRatio(sb, o);
      AppendVideoCropping(sb, o);
    }

    /** `Convert`, lines 54-121. */
    static method Convert(inputFile: Option<FileInfo>, outputFile: Option<FileInfo>, options: Option<Settings>, f: Formats)
      returns (r: Result<string, Fault>)
      ensures r == ConvertArguments(inputFile, outputFile, options, f)
    {
      var sb := new StringBuilder();
      if options.None? {
        if inputFile.None? || outputFile.None? {
          return Failure(NullReference);
        }
        sb.AppendPiece(DefaultConversion(inputFile.value.fullName, outputFile.value.fullName));
        return Success(sb.ToString());
      }
      var o := options.value;
      sb.AppendWhen(o.seek.Some?, Seek(f.totalSeconds(o.seek.GetOr(0))));
      if inputFile.None? {
        return Failure(NullReference);
      }
      sb.AppendPiece(InputPath(inputFile.value.fullName));
      if o.target != "Default" {
        var written := AppendTarget(sb, o, outputFile);
        if !written {
          return Failure(NullReference);
        }
        assert sb.pieces == ConvertPieces(inputFile.value.fullName, outputFile.value.fullName, options, f);
        return Success(sb.ToString());
      }
      AppendFields(sb, o, f);
      if outputFile.None? {
        return Failure(NullReference);
      }
      sb.AppendPiece(OutputPath(outputFile.value.fullName));
      assert sb.pieces == ConvertPieces(inputFile.value.fullName, outputFile.value.fullName, options, f);
      return Success(sb.ToString());
    }

    /** `Convert`, lines 69-82: ` -target `, then the output path is read (a null output throws, reported
        as `written` false) and the target piece appended. */
    static method AppendTarget(sb: StringBuilder, o: Settings, outputFile: Option<FileInfo>) returns (written: bool)
      requires sb.Valid()
      modifies sb
      ensures written <==> outputFile.Some?
      ensures sb.Valid()
      ensures written ==> sb.pieces == old(sb.pieces) + [TargetFlag, TargetPiece(o, outputFile.value.fullName)]
    {
      ghost var head := sb.pieces;
      sb.AppendPiece(TargetFlag);
      if outputFile.None? {
        return false;
      }
      if o.targetStandard != "Default" {
        sb.AppendPiece(TargetWithStandard(ToLower(o.targetStandard), ToLower(o.target), outputFile.value.fullName));
      } else {
        sb.AppendPiece(TargetOnly(ToLower(o.target), outputFile.value.fullName));
      }
      assert sb.pieces == head + [TargetFlag, TargetPiece(o, outputFile.value.fullName)];
      return true;
    }

    /** `GetThumbnail`, lines 32-52. */
    static method GetThumbnail(inputFile: Option<FileInfo>, outputFile: Option<FileInfo>, options: Option<Settings>, f: Formats)
      returns (r: Result<string, Fault>)
      ensures r == ThumbnailArguments(inputFile, outputFile, options, f)
    {
      var sb := new StringBuilder();
      var seek := if options.Some? then options.value.seek.GetOr(1000) else 1000;
      sb.AppendPiece(Seek(f.totalSeconds(seek)));
      if inputFile.None? {
        return Failure(NullReference);
      }
      sb.AppendPiece(InputPath(inputFile.value.fullName));
      sb.AppendPiece(FrameCount(1));
      assert sb.pieces == [Seek(f.totalSeconds(seek)), InputPath(inputFile.value.fullName), FrameCount(1)];
      if options.None? {
        return Failure(NullReference);
      }
      var o := options.value;
      AppendPicture(sb, o);
      if outputFile.None? {
        return Failure(NullReference);
      }
      sb.AppendPiece(OutputPath(outputFile.value.fullName));
      return Success(sb.ToString());
    }

    /** `Build`, lines 10-28. */
    static method Build(parameters: FFmpegParameters, f: Formats) returns (r: Result<string, Fault>)
      ensures r == BuildArguments(parameters, f)
    {
      if HasCustomArguments(parameters) {
        return Success(parameters.customArguments.value);
      }
      match parameters.task {
        case ConvertTask =>
          r := Convert(parameters.inputFile, parameters.outputFile, parameters.conversionOptions, f);
        case GetMetaDataTask =>
          r := MetadataArguments(parameters.inputFile);
        case GetThumbnailTask =>
          r := GetThumbnail(parameters.inputFile, parameters.outputFile, parameters.conversionOptions, f);
        case ExecuteTask =>
          r := Failure(ArgumentOutOfRange);
      }
    }
  }

  // Token order and presence

  /** The position of each piece kind in the fixed order of lines 63-120 (and of the
      thumbnail's `-vframes` at line 40); the target pieces and the null-options form come
      after every field. */
  function Rank(p: Piece): nat {
    match p
    case Seek(_) => 0
    case InputPath(_) => 1
    case FrameCount(_) => 2
    case AudioBitRate(_) => 3
    case SampleRate(_) => 4
    case MaxDuration(_) => 5
    case VideoBitRate(_) => 6
    case FrameRate(_) => 7
    case Scale(_, _) => 8
    case Size(_) => 8
    case Aspect(_) => 9
    case Crop(_) => 10
    case Extra(_) => 11
    case BaselineProfile => 12
    case OutputPath(_) => 13
    case _ => 14
  }

  /** A per-field token: `-ab`, `-ar`, `-t`, `-b`, `-r`, size, `-aspect`, crop, extra
      arguments or the profile. */
  predicate IsFieldPiece(p: Piece) {
    3 <= Rank(p) <= 12
  }

  /** Ranks strictly increase along `ps` and stay within `[lo, hi)`. */
  predicate InBand(ps: seq<Piece>, lo: nat, hi: nat) {
    (forall i, j :: 0 <= i < j < |ps| ==> Rank(ps[i]) < Rank(ps[j]))
    && (forall i :: 0 <= i < |ps| ==> lo <= Rank(ps[i]) < hi)
  }

  /** `InBand`, stated one piece at a time. */
  predicate Ranked(ps: seq<Piece>, lo: nat, hi: nat)
    decreases |ps|
  {
    ps == [] || (lo <= Rank(ps[0]) < hi && Ranked(ps[1..], Rank(ps[0]) + 1, hi))
  }

  lemma {:induction false} RankedInBand(ps: seq<Piece>, lo: nat, hi: nat)
    requires Ranked(ps, lo, hi)
    ensures InBand(ps, lo, hi)
    decreases |ps|
  {
    if ps != [] {
      RankedInBand(ps[1..], Rank(ps[0]) + 1, hi);
      forall i, j | 0 <= i < j < |ps|
        ensures Rank(ps[i]) < Rank(ps[j])
      {
        assert ps[j] == ps[1..][j - 1];
        if i > 0 {
          assert ps[i] == ps[1..][i - 1];
        }
      }
      forall i | 0 <= i < |ps|
        ensures lo <= Rank(ps[i]) < hi
      {
        if i > 0 {
          assert ps[i] == ps[1..][i - 1];
        }
      }
    }
  }

  /** Some piece of `ps` has rank `r`. */
  predicate Has(ps: seq<Piece>, r: nat) {
    exists i :: 0 <= i < |ps| && Rank(ps[i]) == r
  }

  /** Two bands, the second above the first, make one band. */
  lemma {:induction false} BandJoin(a: seq<Piece>, b: seq<Piece>, lo: nat, mid: nat, mid': nat, hi: nat)
    requires Ranked(a, lo, mid) && Ranked(b, mid', hi) && lo <= mid <= mid' <= hi
    ensures Ranked(a + b, lo, hi)
    decreases |a|
  {
    if a == [] {
      assert a + b == b;
    } else {
      assert (a + b)[0] == a[0];
      assert (a + b)[1..] == a[1..] + b;
      BandJoin(a[1..], b, Rank(a[0]) + 1, mid, mid', hi);
    }
  }

  lemma WhenBand(c: bool, p: Piece, k: nat)
    requires Rank(p) == k
    ensures Ranked(When(c, p), k, k + 1)
  {
    if c {
      assert When(c, p)[1..] == [];
    }
  }

  lemma WhenHas(c: bool, p: Piece, r: nat)
    ensures Has(When(c, p), r) <==> c && r == Rank(p)
  {
    if c {
      assert When(c, p)[0] == p;
    }
  }

  lemma HasJoin(a: seq<Piece>, b: seq<Piece>, r: nat)
    ensures Has(a + b, r) <==> Has(a, r) || Has(b, r)
  {
    if Has(a, r) {
      var i :| 0 <= i < |a| && Rank(a[i]) == r;
      assert (a + b)[i] == a[i];
    }
    if Has(b, r) {
      var i :| 0 <= i < |b| && Rank(b[i]) == r;
      assert (a + b)[|a| + i] == b[i];
    }
    if Has(a + b, r) {
      var i :| 0 <= i < |a + b| && Rank((a + b)[i]) == r;
      if i < |a| {
        assert (a + b)[i] == a[i];
      } else {
        assert (a + b)[i] == b[i - |a|];
      }
    }
  }

  /** The size piece: a scale filter or a named size, or nothing. */
  function SizeOpt(o: Settings): (bool, Piece) {
    if o.videoSize == "Custom" then (true, Scale(o.customWidth.GetOr(-2), o.customHeight.GetOr(-2)))
    else (o.videoSize != "Default", Size(SizeToken(o.videoSize)))
  }

  /** The crop piece, or nothing. */
  function CropOpt(o: Settings): (bool, Piece) {
    (o.sourceCrop.Some?, Crop(o.sourceCrop.GetOr(CropRectangle(0, 0, 0, 0))))
  }

  lemma PictureAsWhen(o: Settings)
    ensures SizePieces(o) == When(SizeOpt(o).0, SizeOpt(o).1)
    ensures CropPieces(o) == When(CropOpt(o).0, CropOpt(o).1)
    ensures Rank(SizeOpt(o).1) == 8 && Rank(CropOpt(o).1) == 10
  {
  }

  /** Five guarded pieces of consecutive ranks make one band. */
  lemma BandChain(c1: bool, p1: Piece, c2: bool, p2: Piece, c3: bool, p3: Piece,
                  c4: bool, p4: Piece, c5: bool, p5: Piece, k: nat)
    requires Rank(p1) == k && Rank(p2) == k + 1 && Rank(p3) == k + 2
    requires Rank(p4) == k + 3 && Rank(p5) == k + 4
    ensures Ranked(When(c1, p1) + When(c2, p2) + When(c3, p3) + When(c4, p4) + When(c5, p5), k, k + 5)
  {
    var a, b, c, d, e := When(c1, p1), When(c2, p2), When(c3, p3), When(c4, p4), When(c5, p5);
    WhenBand(c1, p1, k);
    WhenBand(c2, p2, k + 1);
    WhenBand(c3, p3, k + 2);
    WhenBand(c4, p4, k + 3);
    WhenBand(c5, p5, k + 4);
    BandJoin(a, b, k, k + 1, k + 1, k + 2);
    BandJoin(a + b, c, k, k + 2, k + 2, k + 3);
    BandJoin(a + b + c, d, k, k + 3, k + 3, k + 4);
    BandJoin(a + b + c + d, e, k, k + 4, k + 4, k + 5);
  }

  lemma RateBand(o: Settings, f: Formats)
    ensures Ranked(RatePieces(o, f), 3, 8)
  {
    BandChain(o.audioBitRate.Some?, AudioBitRate(o.audioBitRate.GetOr(0)),
              o.audioSampleRate != "Default", SampleRate(SampleRateToken(o.audioSampleRate)),
              o.maxVideoDuration.Some?, MaxDuration(f.timeSpan(o.maxVideoDuration.GetOr(0))),
              o.videoBitRate.Some?, VideoBitRate(o.videoBitRate.GetOr(0)),
              o.videoFps.Some?, FrameRate(o.videoFps.GetOr(0)), 3);
  }

  lemma RateHas(o: Settings, f: Formats, r: nat)
    ensures Has(RatePieces(o, f), r) <==>
      (r == 3 && o.audioBitRate.Some?) || (r == 4 && o.audioSampleRate != "Default")
      || (r == 5 && o.maxVideoDuration.Some?) || (r == 6 && o.videoBitRate.Some?)
      || (r == 7 && o.videoFps.Some?)
  {
    var a := When(o.audioBitRate.Some?, AudioBitRate(o.audioBitRate.GetOr(0)));
    var b := When(o.audioSampleRate != "Default", SampleRate(SampleRateToken(o.audioSampleRate)));
    var c := When(o.maxVideoDuration.Some?, MaxDuration(f.timeSpan(o.maxVideoDuration.GetOr(0))));
    var d := When(o.videoBitRate.Some?, VideoBitRate(o.videoBitRate.GetOr(0)));
    var e := When(o.videoFps.Some?, FrameRate(o.videoFps.GetOr(0)));
    WhenHas(o.audioBitRate.Some?, AudioBitRate(o.audioBitRate.GetOr(0)), r);
    WhenHas(o.audioSampleRate != "Default", SampleRate(SampleRateToken(o.audioSampleRate)), r);
    WhenHas(o.maxVideoDuration.Some?, MaxDuration(f.timeSpan(o.maxVideoDuration.GetOr(0))), r);
    WhenHas(o.videoBitRate.Some?, VideoBitRate(o.videoBitRate.GetOr(0)), r);
    WhenHas(o.videoFps.Some?, FrameRate(o.videoFps.GetOr(0)), r);
    HasJoin(a, b, r);
    HasJoin(a + b, c, r);
    HasJoin(a + b + c, d, r);
    HasJoin(a + b + c + d, e, r);
  }

  lemma PictureBand(o: Settings)
    ensures Ranked(PicturePieces(o), 8, 11)
  {
    PictureAsWhen(o);
    WhenBand(SizeOpt(o).0, SizeOpt(o).1, 8);
    WhenBand(o.videoAspectRatio != "Default", Aspect(AspectToken(o.videoAspectRatio)), 9);
    WhenBand(CropOpt(o).0, CropOpt(o).1, 10);
    BandJoin(SizePieces(o), AspectPieces(o), 8, 9, 9, 10);
    BandJoin(SizePieces(o) + AspectPieces(o), CropPieces(o), 8, 10, 10, 11);
  }

  lemma PictureHas(o: Settings, r: nat)
    ensures Has(PicturePieces(o), r) <==>
      (r == 8 && o.videoSize != "Default") || (r == 9 && o.videoAspectRatio != "Default")
      || (r == 10 && o.sourceCrop.Some?)
  {
    PictureAsWhen(o);
    WhenHas(SizeOpt(o).0, SizeOpt(o).1, r);
    WhenHas(o.videoAspectRatio != "Default", Aspect(AspectToken(o.videoAspectRatio)), r);
    WhenHas(CropOpt(o).0, CropOpt(o).1, r);
    HasJoin(SizePieces(o), AspectPieces(o), r);
    HasJoin(SizePieces(o) + AspectPieces(o), CropPieces(o), r);
  }

  lemma TrailingBand(o: Settings)
    ensures Ranked(TrailingPieces(o), 11, 13)
  {
    WhenBand(o.extraArguments.Some?, Extra(o.extraArguments.GetOr("")), 11);
    WhenBand(o.baselineProfile, BaselineProfile, 12);
    BandJoin(When(o.extraArguments.Some?, Extra(o.extraArguments.GetOr(""))), When(o.baselineProfile, BaselineProfile), 11, 12, 12, 13);
  }

  lemma TrailingHas(o: Settings, r: nat)
    ensures Has(TrailingPieces(o), r) <==>
      (r == 11 && o.extraArguments.Some?) || (r == 12 && o.baselineProfile)
  {
    WhenHas(o.extraArguments.Some?, Extra(o.extraArguments.GetOr("")), r);
    WhenHas(o.baselineProfile, BaselineProfile, r);
    HasJoin(When(o.extraArguments.Some?, Extra(o.extraArguments.GetOr(""))), When(o.baselineProfile, BaselineProfile), r);
  }

  /** `Convert`, lines 63-120 with `Target` at Default: the pieces come in the fixed order `-ss`, `-i`,
      `-ab`, `-ar`, `-t`, `-b`, `-r`, size, `-aspect`, crop, extra arguments, profile, output,
      and the output is last. */
  lemma ConvertOrder(input: string, output: string, o: Settings, f: Formats)
    requires o.target == "Default"
    ensures var ps := ConvertPieces(input, output, Some(o), f);
      InBand(ps, 0, 14) && ps[|ps| - 1] == OutputPath(output)
  {
    ConvertRanked(input, output, o, f);
    RankedInBand(ConvertPieces(input, output, Some(o), f), 0, 14);
  }

  lemma ConvertRanked(input: string, output: string, o: Settings, f: Formats)
    requires o.target == "Default"
    ensures Ranked(ConvertPieces(input, output, Some(o), f), 0, 14)
  {
    var seek := When(o.seek.Some?, Seek(f.totalSeconds(o.seek.GetOr(0))));
    assert ConvertPieces(input, output, Some(o), f)
      == seek + [InputPath(input)] + (RatePieces(o, f) + PicturePieces(o) + TrailingPieces(o)) + [OutputPath(output)];
    assert Ranked(seek, 0, 1) by {
      WhenBand(o.seek.Some?, Seek(f.totalSeconds(o.seek.GetOr(0))), 0);
    }
    assert Ranked(RatePieces(o, f), 3, 8) by {
      RateBand(o, f);
    }
    assert Ranked(PicturePieces(o), 8, 11) by {
      PictureBand(o);
    }
    assert Ranked(TrailingPieces(o), 11, 13) by {
      TrailingBand(o);
    }
    ConvertBand(seek, input, RatePieces(o, f), PicturePieces(o), TrailingPieces(o), output);
  }

  lemma ConvertBand(seek: seq<Piece>, input: string, rates: seq<Piece>, picture: seq<Piece>,
                    trailing: seq<Piece>, output: string)
    requires Ranked(seek, 0, 1) && Ranked(rates, 3, 8) && Ranked(picture, 8, 11)
    requires Ranked(trailing, 11, 13)
    ensures Ranked(seek + [InputPath(input)] + (rates + picture + trailing) + [OutputPath(output)], 0, 14)
  {
    BandJoin(seek, [InputPath(input)], 0, 1, 1, 2);
    BandJoin(rates, picture, 3, 8, 8, 11);
    BandJoin(rates + picture, trailing, 3, 11, 11, 13);
    BandJoin(seek + [InputPath(input)], rates + picture + trailing, 0, 2, 3, 13);
    BandJoin(seek + [InputPath(input)] + (rates + picture + trailing), [OutputPath(output)], 0, 13, 13, 14);
  }

  /** With `Target` at Default, each optional token is present exactly when its option is
      set; `-i` and the output are always present. */
  lemma ConvertPresence(input: string, output: string, o: Settings, f: Formats, r: nat)
    requires o.target == "Default"
    ensures Has(ConvertPieces(input, output, Some(o), f), r) <==>
        (r == 0 && o.seek.Some?) || r == 1
        || (r == 3 && o.audioBitRate.Some?) || (r == 4 && o.audioSampleRate != "Default")
        || (r == 5 && o.maxVideoDuration.Some?) || (r == 6 && o.videoBitRate.Some?)
        || (r == 7 && o.videoFps.Some?) || (r == 8 && o.videoSize != "Default")
        || (r == 9 && o.videoAspectRatio != "Default") || (r == 10 && o.sourceCrop.Some?)
        || (r == 11 && o.extraArguments.Some?) || (r == 12 && o.baselineProfile) || r == 13
  {
    var seek := When(o.seek.Some?, Seek(f.totalSeconds(o.seek.GetOr(0))));
    var head := seek + [InputPath(input)];
    WhenHas(o.seek.Some?, Seek(f.totalSeconds(o.seek.GetOr(0))), r);
    WhenHas(true, InputPath(input), r);
    WhenHas(true, OutputPath(output), r);
    RateHas(o, f, r);
    PictureHas(o, r);
    TrailingHas(o, r);
    HasJoin(seek, When(true, InputPath(input)), r);
    HasJoin(RatePieces(o, f), PicturePieces(o), r);
    HasJoin(RatePieces(o, f) + PicturePieces(o), TrailingPieces(o), r);
    HasJoin(head, FieldPieces(o, f), r);
    HasJoin(head + FieldPieces(o, f), When(true, OutputPath(output)), r);
  }

  /** `Convert`, lines 69-82: with a target the pieces end with ` -target ` and the target piece;
      no per-field token and no separate output piece appears. */
  lemma TargetBranch(input: string, output: string, o: Settings, f: Formats)
    requires o.target != "Default"
    ensures var ps := ConvertPieces(input, output, Some(o), f);
      |ps| >= 3 && (forall i :: 0 <= i < |ps| ==> !IsFieldPiece(ps[i]) && !ps[i].OutputPath?)
      && RenderAll(ps) == RenderAll(ps[..|ps| - 2]) + " -target " + Render(TargetPiece(o, output))
  {
    var ps := ConvertPieces(input, output, Some(o), f);
    var head := When(o.seek.Some?, Seek(f.totalSeconds(o.seek.GetOr(0)))) + [InputPath(input)];
    assert ps == head + [TargetFlag, TargetPiece(o, output)];
    TailText(head, TargetFlag, TargetPiece(o, output));
    forall i | 0 <= i < |ps|
      ensures !IsFieldPiece(ps[i]) && !ps[i].OutputPath?
    {
      if i < |head| {
        assert ps[i] == head[i];
      }
    }
  }

  lemma TailText(head: seq<Piece>, x: Piece, y: Piece)
    ensures var ps := head + [x, y];
      ps[..|ps| - 2] == head && RenderAll(ps) == RenderAll(head) + Render(x) + Render(y)
  {
    var ps := head + [x, y];
    assert ps[..|ps| - 1] == head + [x];
    assert (head + [x])[..|head|] == head;
    assert JoinAll(ps, Render) == JoinAll(head + [x], Render) + Render(y);
    assert JoinAll(head + [x], Render) == JoinAll(head, Render) + Render(x);
  }

  /** `Convert`, lines 72-79: the target piece is the lower-cased standard and target joined by `-`
      with the quoted output, or the lower-cased target and the quoted output. */
  lemma TargetText(o: Settings, output: string)
    ensures o.targetStandard != "Default" ==>
      Render(TargetPiece(o, output))
      == " " + ToLower(o.targetStandard) + "-" + ToLower(o.target) + " \"" + output + "\" "
    ensures o.targetStandard == "Default" ==>
      Render(TargetPiece(o, output)) == ToLower(o.target) + " \"" + output + "\" "
  {
  }

  lemma RenderOne(p: Piece)
    ensures RenderAll([p]) == Render(p)
  {
    assert [p][..0] == [];
    assert JoinAll([p], Render) == JoinAll([], Render) + Render(p);
  }

  /** `Convert`, lines 59-60: without options the string is exactly ` -i "<in>" "<out>" `. */
  lemma NullOptionsConvert(input: FileInfo, output: FileInfo, f: Formats)
    ensures ConvertArguments(Some(input), Some(output), None, f)
      == Success(" -i \"" + input.fullName + "\" \"" + output.fullName + "\" ")
  {
    RenderOne(DefaultConversion(input.fullName, output.fullName));
  }

  lemma DefaultsNoFields(f: Formats)
    ensures FieldPieces(Defaults, f) == []
  {
    DefaultsUnset();
  }

  /** A fresh options object emits only the input and the output pieces: ` -i "<in>" ` then
      ` "<out>" `, one space more than the null-options form. */
  lemma DefaultsConvert(input: string, output: string, f: Formats)
    ensures ConvertPieces(input, output, Some(Defaults), f) == [InputPath(input), OutputPath(output)]
    ensures RenderAll(ConvertPieces(input, output, Some(Defaults), f))
      == (" -i \"" + input + "\" ") + (" \"" + output + "\" ")
  {
    DefaultsNoFields(f);
    DefaultsUnset();
    BareConvert(input, output, Defaults, f);
    PairText(input, output);
  }

  lemma PairText(input: string, output: string)
    ensures RenderAll([InputPath(input), OutputPath(output)])
      == (" -i \"" + input + "\" ") + (" \"" + output + "\" ")
  {
    TailText([], InputPath(input), OutputPath(output));
    assert [] + [InputPath(input), OutputPath(output)] == [InputPath(input), OutputPath(output)];
  }

  lemma BareConvert(input: string, output: string, o: Settings, f: Formats)
    requires o.seek.None? && o.target == "Default" && FieldPieces(o, f) == []
    ensures ConvertPieces(input, output, Some(o), f) == [InputPath(input), OutputPath(output)]
  {
    assert When(o.seek.Some?, Seek(f.totalSeconds(o.seek.GetOr(0)))) == [];
  }

  /** `GetMetadata`, line 30: the path is recovered from the metadata arguments between the fixed prefix
      and suffix; a null input is a null dereference. */
  lemma MetadataPath(input: Option<FileInfo>)
    ensures input.None? ==> MetadataArguments(input) == Failure(NullReference)
    ensures input.Some? ==>
      MetadataArguments(input).Success?
      && var r := MetadataArguments(input).value;
         |r| == |input.value.fullName| + 21 && r[..4] == "-i \""
         && r[4..|r| - 17] == input.value.fullName && r[|r| - 17..] == "\" -f ffmetadata -"
  {
    if input.Some? {
      var r := MetadataArguments(input).value;
      var path := input.value.fullName;
      assert r == "-i \"" + path + "\" -f ffmetadata -";
      assert r[..4] == "-i \"";
      assert r[4..|r| - 17] == path;
      assert r[|r| - 17..] == "\" -f ffmetadata -";
    }
  }

  /** Lines 12-26: when `Build` fails, and with which fault. Non-blank custom arguments are
      returned verbatim whatever the task; otherwise only `Execute` is out of range, and every
      other failure is a missing file or, for a thumbnail, missing options. */
  lemma BuildOutcome(p: FFmpegParameters, f: Formats)
    ensures HasCustomArguments(p) ==> BuildArguments(p, f) == Success(p.customArguments.value)
    ensures BuildArguments(p, f) == Failure(ArgumentOutOfRange) <==>
      !HasCustomArguments(p) && p.task == ExecuteTask
    ensures BuildArguments(p, f) == Failure(NullReference) <==>
      !HasCustomArguments(p) && p.task != ExecuteTask
      && (p.inputFile.None? || (p.task != GetMetaDataTask && p.outputFile.None?)
          || (p.task == GetThumbnailTask && p.conversionOptions.None?))
    ensures BuildArguments(p, f).Failure? ==>
      BuildArguments(p, f) == Failure(ArgumentOutOfRange) || BuildArguments(p, f) == Failure(NullReference)
  {
  }

  /** `Convert`, lines 105-111 and 148-151: a custom size and a crop both appear, the scale filter
      (with -2 for a missing dimension) before the crop filter; the two are not merged. */
  lemma ScaleThenCrop(input: string, output: string, o: Settings, f: Formats)
    requires o.target == "Default" && o.videoSize == "Custom" && o.sourceCrop.Some?
    ensures var ps := ConvertPieces(input, output, Some(o), f);
      exists i, j :: 0 <= i < j < |ps|
        && ps[i] == Scale(o.customWidth.GetOr(-2), o.customHeight.GetOr(-2))
        && ps[j] == Crop(o.sourceCrop.value)
  {
    var ps := ConvertPieces(input, output, Some(o), f);
    var head := When(o.seek.Some?, Seek(f.totalSeconds(o.seek.GetOr(0)))) + [InputPath(input)];
    var scale := Scale(o.customWidth.GetOr(-2), o.customHeight.GetOr(-2));
    var crop := Crop(o.sourceCrop.value);
    assert PicturePieces(o) == [scale] + AspectPieces(o) + [crop];
    assert ps == head + (RatePieces(o, f) + PicturePieces(o) + TrailingPieces(o)) + [OutputPath(output)];
    TwoFilters(head, RatePieces(o, f), AspectPieces(o), TrailingPieces(o), scale, crop, OutputPath(output));
    var i := |head| + |RatePieces(o, f)|;
    var j := i + 1 + |AspectPieces(o)|;
    assert ps[i] == scale && ps[j] == crop;
  }

  lemma TwoFilters(head: seq<Piece>, rates: seq<Piece>, between: seq<Piece>, trailing: seq<Piece>,
                   x: Piece, y: Piece, last: Piece)
    ensures var ps := head + (rates + ([x] + between + [y]) + trailing) + [last];
      var i := |head| + |rates|;
      i + 1 + |between| < |ps| && ps[i] == x && ps[i + 1 + |between|] == y
  {
  }

  // Enum-name tokens

  /** `s` with every `c` removed. */
  function Without(s: string, c: char): (r: string)
    ensures forall i :: 0 <= i < |r| ==> r[i] != c
    ensures |r| <= |s|
  {
    if s == [] then [] else (if s[0] == c then [] else [s[0]]) + Without(s[1..], c)
  }

  lemma {:induction false} ReplaceAllRemoves(s: string, c: char)
    ensures ReplaceAll(s, [c], []) == Without(s, c)
    decreases |s|
  {
    if s != [] {
      assert s[..1] == [s[0]];
      ReplaceAllRemoves(s[1..], c);
    }
  }

  lemma {:induction false} ReplaceAllSwaps(s: string, c: char, d: char)
    ensures ReplaceAll(s, [c], [d]) == ReplaceChar(s, c, d)
    decreases |s|
  {
    if s != [] {
      assert s[..1] == [s[0]];
      ReplaceAllSwaps(s[1..], c, d);
      assert ReplaceChar(s, c, d) == [ReplaceChar(s, c, d)[0]] + ReplaceChar(s[1..], c, d);
    }
  }

  lemma {:induction false} ReplaceAllAbsent(s: string, pat: string, rep: string)
    requires |pat| > 0 && forall i :: 0 <= i < |s| ==> s[i] != pat[0]
    ensures ReplaceAll(s, pat, rep) == s
    decreases |s|
  {
    if |s| >= |pat| {
      assert s[..|pat|][0] == s[0];
      ReplaceAllAbsent(s[1..], pat, rep);
      assert [s[0]] + s[1..] == s;
    }
  }

  /** A string without `c` does not contain the one-character string `[c]`. */
  lemma NotContained(s: string, c: char)
    requires forall i :: 0 <= i < |s| ==> s[i] != c
    ensures !Contains(s, [c])
  {
    forall i: nat | i <= |s|
      ensures !StartsAt(s, i, [c])
    {
      if i + 1 <= |s| {
        assert s[i..i + 1][0] == s[i];
      }
    }
  }

  /** `AppendVideoSize`, lines 154-158: the size name is lower-cased; a name starting with `_` loses every `_`,
      any other name has each `_` replaced by `-`; no `_` is left either way. */
  lemma SizeTokenRule(name: EnumName)
    ensures name[0] == '_' ==> SizeToken(name) == Without(ToLower(name), '_')
    ensures name[0] != '_' ==> SizeToken(name) == ReplaceChar(ToLower(name), '_', '-')
    ensures forall i :: 0 <= i < |SizeToken(name)| ==> SizeToken(name)[i] != '_'
  {
    var size := ToLower(name);
    assert size[0] == '_' <==> name[0] == '_';
    if size[0] == '_' {
      ReplaceAllRemoves(size, '_');
      NotContained(Without(size, '_'), '_');
    } else if Contains(size, "_") {
      ReplaceAllSwaps(size, '_', '-');
    } else {
      forall i | 0 <= i < |size|
        ensures size[i] != '_'
      {
        if size[i] == '_' {
          ContainsAt(size, i, "_");
        }
      }
      assert ReplaceChar(size, '_', '-') == size;
    }
  }

  /** `AppendVideoAspectRatio`, lines 137-139: the aspect token is the name without its first character, with each
      `_` replaced by `:`. */
  lemma AspectTokenRule(name: EnumName)
    ensures AspectToken(name) == ReplaceChar(name[1..], '_', ':')
    ensures |AspectToken(name)| == |name| - 1
  {
    ReplaceAllSwaps(name[1..], '_', ':');
  }

  /** `Convert`, line 90: a sample-rate name `Hz` followed by digits gives just the digits. */
  lemma SampleRateTokenRule(digits: string)
    requires AllDigits(digits)
    ensures SampleRateToken("Hz" + digits) == digits
  {
    var name := "Hz" + digits;
    assert name[..2] == "Hz" && name[2..] == digits;
    ReplaceAllAbsent(digits, "Hz", "");
  }

  // Thumbnails

  /** `GetThumbnail`, lines 34-51: the thumbnail seeks to the option's position or one second, reads the input,
      takes one frame, then only picture pieces (size, aspect, crop) in that order, and writes
      the output last. */
  lemma ThumbnailShape(input: string, output: string, o: Settings, f: Formats)
    ensures var ps := ThumbnailPieces(input, output, o, f);
      |ps| >= 4 && ps[0] == Seek(f.totalSeconds(if o.seek.Some? then o.seek.value else 1000))
      && ps[1] == InputPath(input) && Render(ps[2]) == " -vframes 1 "
      && ps[|ps| - 1] == OutputPath(output) && InBand(ps, 0, 14)
      && forall i :: 3 <= i < |ps| - 1 ==> 8 <= Rank(ps[i]) <= 10
  {
    var ps := ThumbnailPieces(input, output, o, f);
    var start := [Seek(f.totalSeconds(o.seek.GetOr(1000))), InputPath(input), FrameCount(1)];
    assert Ranked(start, 0, 3) by {
      assert [FrameCount(1)][1..] == [];
      assert Ranked([FrameCount(1)], 2, 3);
      assert [InputPath(input), FrameCount(1)][1..] == [FrameCount(1)];
      assert Ranked([InputPath(input), FrameCount(1)], 1, 3);
      assert start[1..] == [InputPath(input), FrameCount(1)];
    }
    assert Ranked(PicturePieces(o), 8, 11) by {
      PictureBand(o);
    }
    BandJoin(start, PicturePieces(o), 0, 3, 8, 11);
    assert Ranked([OutputPath(output)], 13, 14) by {
      assert [OutputPath(output)][1..] == [];
    }
    BandJoin(start + PicturePieces(o), [OutputPath(output)], 0, 11, 13, 14);
    RankedInBand(ps, 0, 14);
    RankedInBand(PicturePieces(o), 8, 11);
    forall i | 3 <= i < |ps| - 1
      ensures 8 <= Rank(ps[i]) <= 10
    {
      assert ps[i] == PicturePieces(o)[i - 3];
    }
  }

  /** `GetThumbnail`, lines 37 and 43: unlike `Convert`, which has a form for null options, the thumbnail
      dereferences the options in `AppendVideoSize` and fails. */
  lemma ThumbnailNeedsOptions(input: FileInfo, output: FileInfo, f: Formats)
    ensures ThumbnailArguments(Some(input), Some(output), None, f) == Failure(NullReference)
    ensures ConvertArguments(Some(input), Some(output), None, f).Success?
  {
  }
}
