# FFmpeg.NET in Dafny

FFmpeg.NET is a .NET wrapper around the `ffmpeg` command-line tool. This project models its core and proves properties of it:

- **The argument builder** (`FFmpegArgumentBuilder`). It turns a request into the single argument string handed to `ffmpeg`. A request is a task, an input and an output file, and a `ConversionOptions` object, or else custom arguments.
- **The options object** (`ConversionOptions`) and the rule that turns `VideoCodec` member names into ffmpeg codec names.
- **The classifier** (`RegexEngine`), current and older versions. It decides whether an ffmpeg stderr line carries progress telemetry. It also fills in the input's metadata from stream-descriptor and `Duration:` lines.
- **The process supervisor** (`FFmpegProcess`), current and older versions. It starts `ffmpeg`, forwards every stderr line, keeps the lines newest first and catches the handler's exceptions. After the exit it raises exactly one of Completed or Error.
- **The playlist creators.** The M3U creator produces extended-M3U text. The XSPF creator produces the playlist record it serialises.

How the model is built:

- **Values, one to one.** Every construct becomes a value or a class field:
  - a `TimeSpan` is an `int` of milliseconds;
  - a `double` is an exact `real`;
  - `null` is `Option.None`;
  - a thrown exception is `Result.Failure` carrying a `Fault`;
  - an enum member is its declared name.
- **The regular expressions.** Each pattern of the table is an explicit scanner (`Patterns`). `Find` returns the leftmost match, which is what `Regex.Match` does. Inside a match, the greedy, lazy and backtracking order is worked out pattern by pattern.
- **The builder** appends `Piece`s to a `StringBuilder` class. A piece is one `Append`/`AppendFormat` call, and `Render` gives its exact text. Pure functions (`ConvertPieces`, `ThumbnailPieces`, `BuildArguments`) specify each method.
- **The supervisor.**
  - Its state lives in fields of a class: the messages, the caught exception and the events raised.
  - A handler method takes one line at a time.
  - A fold of `HandleLine` over the lines specifies a whole run.
  - Each per-line step is a function, and the lemmas are stated over these functions.
- **Operations without an `ensures` row.** These pure functions carry no `ensures` of their own, so lemmas state their properties:
  - `RegexEngine.IsProgressData` and `LegacyRegexEngine.IsProgressData`;
  - `TimeSpans.TimeSpanLargeTryParse`;
  - `ArgumentBuilder.ConvertArguments`, `ThumbnailArguments`, `MetadataArguments` and `BuildArguments`;
  - `Supervisor.GetExceptionMessage`, `Terminal` and `HandleAll`;
  - `M3u.CreateText` and `Lines`.
- **Where the revisions disagree, the model follows the code.**
  - The current `RegexEngine` and `FFmpegArgumentBuilder` still read `InputFile`/`OutputFile`. The current `FFmpegProcess` reads `Input`/`Output`. Both are modelled as one input reference.
  - `BaselineProfile` is read at `src/FFmpeg.NET/FFmpegArgumentBuilder.cs:117`, but `src/FFmpeg.NET/ConversionOptions.cs` does not declare it. It is modelled as an option that defaults to false.
- **Where the written design and the code disagree, the model follows the code.** The colour model of a video descriptor keeps the comma that ends it (`yuv420p,`, not `yuv420p`). The second group `([^,]*,?[^,]*?)` of the pattern at `src/FFmpeg.NET/RegexEngine.cs:30` takes that comma before its lazy tail is tried. The metadata test at `tests/FFmpeg.NET.Tests/MetadataTests.cs:49` expects the comma, and `VideoSample.SampleVideo` proves it.

## Model

| member | source | states |
|---|---|---|
| Numbers.NatToStringValue | src/FFmpeg.NET/Services/M3uPlaylistCreator.cs:19 | the decimal text of a whole number reads back as that number |
| Numbers.TryParseInteger | src/FFmpeg.NET/RegexEngine.cs:80 | a parsed integer always lies in the target type's range |
| Numbers.TryParseDigits | src/FFmpeg.NET/RegexEngine.cs:113-116 | on a digit run, the parser gives the run's value when it fits the range and null otherwise |
| Numbers.StepsConcat | src/FFmpeg.NET/RegexEngine.cs:96 | the `NumberStyles.Number` scanner reads a concatenation as the first part followed by the second, from the state the first leaves |
| Numbers.ColonNotNumber | src/FFmpeg.NET/RegexEngine.cs:96 | text holding a colon is never a `NumberStyles.Number` value |
| Numbers.NumberOfDigits | src/FFmpeg.NET/RegexEngine.cs:96 | digits, a `.` and digits parse to the decimal value they spell |
| Numbers.DigitsConcat | src/FFmpeg.NET/RegexEngine.cs:96 | the value of two digit runs side by side is the first scaled by ten to the length of the second, plus the second |
| Numbers.NumberGrouped | src/FFmpeg.NET/RegexEngine.cs:96 | a `,` between digit runs is a group separator: the value is that of the runs joined |
| Numbers.NumberTrailingSign | src/FFmpeg.NET/RegexEngine.cs:96 | a `-` after the digits negates their value |
| Numbers.RoundHalfEven | src/FFmpeg.NET/RegexEngine.cs:99 | `Math.Round` gives the nearest integer, strictly within one half off a tie, and on a tie the even neighbour |
| Numbers.SaturateInt32 | src/FFmpeg.NET/Services/M3uPlaylistCreator.cs:19 | the `(int)` cast stays in the 32-bit range and keeps every value already inside it |
| Numbers.SaturateUInt32 | FFmpeg.NET/Services/XspfPlaylistCreator.cs:32 | the `(uint)` cast stays in the unsigned 32-bit range and keeps every value already inside it |
| Numbers.TruncDiv | src/FFmpeg.NET/Services/M3uPlaylistCreator.cs:19 | the quotient rounds toward zero: `q·b` is the multiple of `b` nearest to `a` on the zero side, with `a` less than one `b` beyond it |
| Text.IndexOf | src/FFmpeg.NET/RegexEngine.cs:77 | `IndexOf(c, start)` is the first index at or after `start` holding `c`, or -1 when no such index exists |
| Text.ReplaceCharInverse | src/FFmpeg.NET/Services/M3uPlaylistCreator.cs:20 | after `Replace(a, b)` no `a` is left, and on text without `b` replacing `b` by `a` undoes it |
| Text.ToLowerIdempotent | src/FFmpeg.NET/FFmpegArgumentBuilder.cs:154 | `ToLowerInvariant` leaves no ASCII capital, keeps every other character, and a second pass changes nothing |
| Text.Span | src/FFmpeg.NET/RegexEngine.cs:17-32 | a character-class run ends at the first character outside the class |
| Patterns.NextOrEnd | src/FFmpeg.NET/RegexEngine.cs:20 | greedy `[^c]*` stops at the next `c` or at the end, and crosses no `c` |
| Patterns.MarkerIn | src/FFmpeg.NET/RegexEngine.cs:27 | the first position of a stream descriptor's marker within a window, or -1 when the window has none |
| Patterns.FirstSizeEnd | src/FFmpeg.NET/RegexEngine.cs:30 | the lazy colour group ends at the first position where the frame-size tail can follow |
| Patterns.LastSizeEnd | src/FFmpeg.NET/RegexEngine.cs:30 | the greedy alternative gives back characters from the last such position down |
| Patterns.FirstAt | src/FFmpeg.NET/RegexEngine.cs:17-32 | a pattern's first match at or after a start, with no match at any earlier position |
| Patterns.FindLeftmost | src/FFmpeg.NET/RegexEngine.cs:17-32 | `Regex.Match` succeeds exactly when the pattern matches somewhere, and then at the leftmost such position |
| Patterns.FindNeedsLiteral | src/FFmpeg.NET/RegexEngine.cs:21-26 | a pattern that begins with a literal matches only lines that contain it |
| Patterns.TimeMatchesIffLiteral | src/FFmpeg.NET/RegexEngine.cs:25 | the `time=` pattern matches exactly the lines containing `time=` |
| Patterns.FrameGroupDigits | src/FFmpeg.NET/RegexEngine.cs:21 | the frame capture holds only digits |
| Patterns.FpsGroupShape | src/FFmpeg.NET/RegexEngine.cs:22 | the fps capture is digits and at most one trailing dot: the lazy tail never takes a fractional digit |
| Patterns.FpsAtShape | src/FFmpeg.NET/RegexEngine.cs:22 | the same shape for a match at any position |
| RegexEngine.ConvertToInt32 | src/FFmpeg.NET/RegexEngine.cs:143 | `Convert.ToInt32` gives a 32-bit value, or throws a format or overflow exception |
| RegexEngine.ConvertToDouble | src/FFmpeg.NET/RegexEngine.cs:140 | `Convert.ToDouble` fails only with a format exception |
| RegexEngine.ProgressIffTime | src/FFmpeg.NET/RegexEngine.cs:43-66 | no progress exactly when the line lacks `time=`, and a snapshot exactly when it has one. The only other outcome is the `ArgumentOutOfRangeException` of the span constructor |
| RegexEngine.ProgressDurations | src/FFmpeg.NET/RegexEngine.cs:56-63 | the processed duration is the span parsed from the time text, or zero when that parse fails; the total duration starts at zero |
| RegexEngine.DigitCapture | src/FFmpeg.NET/RegexEngine.cs:103-116 | on a digit capture, the integer getters give its value when it fits and null when it is empty or too large |
| RegexEngine.FpsWhole | src/FFmpeg.NET/RegexEngine.cs:48-59 | the fps field is null exactly for an empty capture or a lone dot; otherwise it is a whole number |
| RegexEngine.WholeDecimal | src/FFmpeg.NET/RegexEngine.cs:108-111 | digits with at most one trailing dot parse to a whole number, and fail exactly when empty or a lone dot |
| RegexEngine.TestVideo | src/FFmpeg.NET/RegexEngine.cs:118-146 | the input's metadata afterwards, and the exception thrown, are those of `VideoUpdate` |
| RegexEngine.TestAudio | src/FFmpeg.NET/RegexEngine.cs:148-171 | the input's metadata afterwards, and the exception thrown, are those of `AudioUpdate` |
| RegexEngine.VideoFirstMatchWins | src/FFmpeg.NET/RegexEngine.cs:120-135 | a line without a video descriptor changes nothing. After a descriptor metadata exists, and video data already recorded is unchanged |
| RegexEngine.AudioFirstMatchWins | src/FFmpeg.NET/RegexEngine.cs:150-164 | the same first-match-wins rule for audio |
| RegexEngine.VideoFallbacks | src/FFmpeg.NET/RegexEngine.cs:137-144 | each fallback on its own: fps is 0 whenever the `tbr` capture is empty or missing; the bitrate is null whenever `kb/s` does not match; with both the record is built. A `kb/s` match with no digits throws a format exception, and a built record has the pattern's format and frame-size groups |
| VideoSample.SampleVideo | tests/FFmpeg.NET.Tests/MetadataTests.cs:47-52 | the descriptor `Stream #0:0: Video: h264 (Main) (avc1 / 0x31637661), yuv420p, 1280x720 [SAR 1:1 DAR 16:9], 1205 kb/s, 25 fps, 25 tbr` gives format `h264 (Main) (avc1 / 0x31637661)`, colour `yuv420p,`, size `1280x720`, 1205 kb/s and 25 fps |
| VideoSample.FieldsFind | src/FFmpeg.NET/RegexEngine.cs:30 | on text laid out like the sample, the format/colour/size pattern first matches at `Video:`, capturing the format, the colour with its comma, and the `WxH` size |
| VideoSample.BitRateFind | src/FFmpeg.NET/RegexEngine.cs:19 | on such text, `([0-9]*)\s*kb/s` first matches at the bitrate digits and captures `1205` |
| VideoSample.FpsFind | src/FFmpeg.NET/RegexEngine.cs:31 | on such text, `([0-9\.]*)\s*tbr` first matches at the `tbr` count and captures `25` |
| VideoSample.SampleNumbers | src/FFmpeg.NET/RegexEngine.cs:140-143 | `Convert.ToInt32("1205")` is 1205 and `Convert.ToDouble("25")` is 25 |
| VideoSample.InfoFromFinds | src/FFmpeg.NET/RegexEngine.cs:127-144 | any descriptor on which the three patterns capture what they capture in the sample yields the sample's record |
| RegexEngine.AudioFallback | src/FFmpeg.NET/RegexEngine.cs:169 | a blank bitrate capture gives an audio bitrate of 0 |
| LegacyRegexEngine.LegacyAcceptance | FFmpeg.NET/Engine/RegexEngine.cs:44-67 | the old rule accepts exactly the lines on which the size, time and bitrate patterns all match; the duration is the standard parse or zero |
| LegacyRegexEngine.LegacyImpliesCurrent | FFmpeg.NET/Engine/RegexEngine.cs:54 | a line the old rule accepts is never rejected by the current rule, and their snapshots agree on frame, fps, size and bitrate |
| LegacyRegexEngine.CurrentAcceptsMore | FFmpeg.NET/Engine/RegexEngine.cs:54 | a line with a time field but no size field is progress to the current rule and not to the old one |
| TimeSpans.LargeParseFields | src/FFmpeg.NET/RegexEngine.cs:70-101 | `H:M:S` parses exactly when both integer fields parse and the seconds parse as a `NumberStyles.Number` value |
| TimeSpans.IndexOfShift | src/FFmpeg.NET/RegexEngine.cs:86 | searching from an offset is searching the suffix, shifted by that offset |
| TimeSpans.MissingColonRejected | src/FFmpeg.NET/RegexEngine.cs:77-88 | text with fewer than two colons fails and leaves a zero span |
| TimeSpans.BadHoursRejected | src/FFmpeg.NET/RegexEngine.cs:80-81 | an hours field that is not a 32-bit integer fails the parse |
| TimeSpans.FourPartsRejected | src/FFmpeg.NET/RegexEngine.cs:94-97 | a colon in the seconds field (four or more parts) fails the parse |
| TimeSpans.LargeParseOk | src/FFmpeg.NET/RegexEngine.cs:70-101 | three well-formed fields give the constructor's span of the hours, minutes and rounded milliseconds |
| TimeSpans.ElapsedRoundTrip | src/FFmpeg.NET/RegexEngine.cs:68-101 | parsing what ffmpeg prints (`H:MM:SS.fff`, hours unbounded) gives back that elapsed time |
| TimeSpans.SampleDuration | src/FFmpeg.NET/RegexEngine.cs:70-101 | `00:00:05.31` parses to 5310 ms |
| TimeSpans.GroupedSeconds | src/FFmpeg.NET/RegexEngine.cs:94-101 | `0:0:1,000.5` parses to 1000500 ms: the group separator in the seconds is accepted and dropped |
| TimeSpans.TrailingSignSeconds | src/FFmpeg.NET/RegexEngine.cs:94-101 | `0:0:5-` parses to -5000 ms: a sign after the seconds negates them |
| VideoCodecs.DashesNoDoubleUnderscore | src/FFmpeg.NET/Enums/VideoCodec.cs:3-5 | after replacing `__` by `-` from left to right, no `__` is left |
| VideoCodecs.TokenHasNoDoubleUnderscore | src/FFmpeg.NET/Enums/VideoCodec.cs:3-5 | no codec token contains `__` |
| VideoCodecs.DashesIdentity | src/FFmpeg.NET/Enums/VideoCodec.cs:5 | a name without `__` is left unchanged by the replacement |
| VideoCodecs.TokenIdentity | src/FFmpeg.NET/Enums/VideoCodec.cs:3-5 | a name that neither begins with `_` nor contains `__` is its own token |
| VideoCodecs.TokenDropsLeadingUnderscore | src/FFmpeg.NET/Enums/VideoCodec.cs:4 | a leading `_` is removed |
| VideoCodecs.TokenJoin | src/FFmpeg.NET/Enums/VideoCodec.cs:5 | `__` between two parts free of `_` becomes `-` |
| VideoCodecs.LibaomToken | src/FFmpeg.NET/Enums/VideoCodec.cs:17 | `libaom__av1` names `libaom-av1` |
| VideoCodecs.LibvpxToken | src/FFmpeg.NET/Enums/VideoCodec.cs:97 | `libvpx__vp9` names `libvpx-vp9` |
| VideoCodecs.LibxToken | src/FFmpeg.NET/Enums/VideoCodec.cs:38 | `libx264` is its own token |
| VideoCodecs.NvencToken | src/FFmpeg.NET/Enums/VideoCodec.cs:41 | `h264_nvenc` keeps its single underscore |
| VideoCodecs.DefaultFirst | src/FFmpeg.NET/Enums/VideoCodec.cs:8 | the enum has 103 members and `Default` is the first |
| Options.ClampTimeScale | src/FFmpeg.NET/ConversionOptions.cs:124 | the stored time scale is always positive: the value itself when positive, otherwise 1 |
| Options.ConversionOptions.constructor | src/FFmpeg.NET/ConversionOptions.cs:12-150 | a new object holds exactly the declared initial values |
| Options.ConversionOptions.SetVideoTimeScale | src/FFmpeg.NET/ConversionOptions.cs:123-124 | the setter stores the clamped value, the getter then returns a positive value, and no other property changes |
| Options.ConversionOptions.CutMedia | src/FFmpeg.NET/ConversionOptions.cs:171-175 | sets the seek position and the maximum duration and nothing else |
| Options.DefaultsUnset | src/FFmpeg.NET/ConversionOptions.cs:12-150 | every option the builder reads starts unset or at `Default` |
| Media.NewMetaData | src/FFmpeg.NET/FFmpegProcess.cs:141-144 | new metadata has zero duration, no stream data and the given file |
| Media.InputRef.FromFile | src/FFmpeg.NET/MediaFile.cs:26-31 | an input file's argument path is the file's full path, and it starts without metadata |
| Media.InputRef.FromPipe | src/FFmpeg.NET/MediaFile.cs:64-72 | an input pipe has its pipe path, no file and no metadata |
| ArgumentBuilder.JoinAllAppend | src/FFmpeg.NET/FFmpegArgumentBuilder.cs:56 | the builder's text after two runs of appends is the first run's text followed by the second's |
| ArgumentBuilder.StringBuilder.constructor | src/FFmpeg.NET/FFmpegArgumentBuilder.cs:56 | a new builder is empty |
| ArgumentBuilder.StringBuilder.AppendPiece | src/FFmpeg.NET/FFmpegArgumentBuilder.cs:66 | one append adds exactly that call's text at the end |
| ArgumentBuilder.StringBuilder.AppendWhen | src/FFmpeg.NET/FFmpegArgumentBuilder.cs:63-64 | a guarded append adds its piece exactly when the guard holds |
| ArgumentBuilder.FFmpegArgumentBuilder.AppendVideoSize | src/FFmpeg.NET/FFmpegArgumentBuilder.cs:146-163 | appends the size pieces: a scale filter for `Custom`, a `-s` token for a named size, nothing for `Default` |
| ArgumentBuilder.FFmpegArgumentBuilder.AppendVideoAspectRatio | src/FFmpeg.NET/FFmpegArgumentBuilder.cs:133-144 | appends the `-aspect` piece exactly when the ratio is not `Default` |
| ArgumentBuilder.FFmpegArgumentBuilder.AppendVideoCropping | src/FFmpeg.NET/FFmpegArgumentBuilder.cs:123-131 | appends the crop filter exactly when a crop rectangle is set |
| ArgumentBuilder.FFmpegArgumentBuilder.AppendRates | src/FFmpeg.NET/FFmpegArgumentBuilder.cs:84-102 | appends the audio bit rate, sample rate, duration, video bit rate and frame rate pieces, each when its option is set |
| ArgumentBuilder.FFmpegArgumentBuilder.AppendPicture | src/FFmpeg.NET/FFmpegArgumentBuilder.cs:104-111 | appends the size, aspect and crop pieces in that order |
| ArgumentBuilder.FFmpegArgumentBuilder.AppendTrailing | src/FFmpeg.NET/FFmpegArgumentBuilder.cs:113-118 | appends the extra arguments and the baseline profile, each when set |
| ArgumentBuilder.FFmpegArgumentBuilder.AppendFields | src/FFmpeg.NET/FFmpegArgumentBuilder.cs:84-118 | appends every per-field piece between the input and the output |
| ArgumentBuilder.FFmpegArgumentBuilder.Convert | src/FFmpeg.NET/FFmpegArgumentBuilder.cs:54-121 | the string built, or the null dereference, is `ConvertArguments` |
| ArgumentBuilder.FFmpegArgumentBuilder.AppendTarget | src/FFmpeg.NET/FFmpegArgumentBuilder.cs:69-82 | ` -target ` is appended first; the output path is then read, so a null output fails after that flag, and otherwise the lower-cased target, with its standard when that is not `Default`, and the output path follow |
| ArgumentBuilder.FFmpegArgumentBuilder.GetThumbnail | src/FFmpeg.NET/FFmpegArgumentBuilder.cs:32-52 | the string built, or the null dereference, is `ThumbnailArguments` |
| ArgumentBuilder.FFmpegArgumentBuilder.Build | src/FFmpeg.NET/FFmpegArgumentBuilder.cs:10-28 | the string returned, or the exception thrown, is `BuildArguments` |
| ArgumentBuilder.RankedInBand | src/FFmpeg.NET/FFmpegArgumentBuilder.cs:63-120 | the one-piece-at-a-time ordering implies strictly increasing ranks within the band |
| ArgumentBuilder.ConvertOrder | src/FFmpeg.NET/FFmpegArgumentBuilder.cs:63-120 | without a target, the pieces come in the source's fixed order: first `-ss`, `-i`, the rates, the picture pieces and the trailing pieces, then the output last, each at most once |
| ArgumentBuilder.ConvertRanked | src/FFmpeg.NET/FFmpegArgumentBuilder.cs:63-120 | the pieces' ranks strictly increase along the arguments |
| ArgumentBuilder.ConvertPresence | src/FFmpeg.NET/FFmpegArgumentBuilder.cs:63-120 | without a target, each optional token is present exactly when its option is set; `-i` and the output are always present |
| ArgumentBuilder.RateHas | src/FFmpeg.NET/FFmpegArgumentBuilder.cs:84-102 | each rate token is present exactly when its option is set |
| ArgumentBuilder.PictureHas | src/FFmpeg.NET/FFmpegArgumentBuilder.cs:104-111 | each picture token is present exactly when its option asks for it |
| ArgumentBuilder.TrailingHas | src/FFmpeg.NET/FFmpegArgumentBuilder.cs:113-118 | the extra arguments and the baseline profile are present exactly when set |
| ArgumentBuilder.TargetBranch | src/FFmpeg.NET/FFmpegArgumentBuilder.cs:69-82 | with a target, no per-field piece and no separate output piece is appended; the text ends with ` -target ` and the target piece |
| ArgumentBuilder.TargetText | src/FFmpeg.NET/FFmpegArgumentBuilder.cs:72-81 | the target piece is `standard-target "<out>"` with a standard, or `target "<out>"` without one, both lower-cased |
| ArgumentBuilder.NullOptionsConvert | src/FFmpeg.NET/FFmpegArgumentBuilder.cs:59-60 | without options the arguments are exactly ` -i "<in>" "<out>" ` |
| ArgumentBuilder.DefaultsConvert | src/FFmpeg.NET/FFmpegArgumentBuilder.cs:56-120 | a fresh options object gives just the input and the output pieces, as ` -i "<in>"  "<out>" ` |
| ArgumentBuilder.BareConvert | src/FFmpeg.NET/FFmpegArgumentBuilder.cs:63-120 | options with no seek, no target and no set field give only the input and the output pieces |
| ArgumentBuilder.MetadataPath | src/FFmpeg.NET/FFmpegArgumentBuilder.cs:30 | a null input throws; otherwise the input path is recovered from between the fixed prefix and the fixed suffix |
| ArgumentBuilder.BuildOutcome | src/FFmpeg.NET/FFmpegArgumentBuilder.cs:10-28 | non-blank custom arguments are returned unchanged. Without them, `Execute` throws `ArgumentOutOfRangeException`, and a null file that the task reads throws `NullReferenceException`; nothing else fails |
| ArgumentBuilder.ScaleThenCrop | src/FFmpeg.NET/FFmpegArgumentBuilder.cs:104-111 | a custom size and a crop both appear, the scale filter (with -2 for a missing side) before the crop |
| ArgumentBuilder.Without | src/FFmpeg.NET/FFmpegArgumentBuilder.cs:156 | removing a character leaves none of it |
| ArgumentBuilder.ReplaceAllRemoves | src/FFmpeg.NET/FFmpegArgumentBuilder.cs:156 | `Replace("_", "")` removes every underscore |
| ArgumentBuilder.ReplaceAllSwaps | src/FFmpeg.NET/FFmpegArgumentBuilder.cs:139 | replacing a one-character string is the character replacement |
| ArgumentBuilder.ReplaceAllAbsent | src/FFmpeg.NET/FFmpegArgumentBuilder.cs:157-158 | a replacement whose pattern does not occur changes nothing |
| ArgumentBuilder.SizeTokenRule | src/FFmpeg.NET/FFmpegArgumentBuilder.cs:152-161 | the size name is lower-cased. A leading `_` removes every `_`, otherwise each `_` becomes `-`, and the token never holds `_` |
| ArgumentBuilder.AspectTokenRule | src/FFmpeg.NET/FFmpegArgumentBuilder.cs:137-139 | the aspect token is the name without its first character, with `_` turned into `:` |
| ArgumentBuilder.SampleRateTokenRule | src/FFmpeg.NET/FFmpegArgumentBuilder.cs:90 | `Hz` followed by digits gives the digits |
| ArgumentBuilder.ThumbnailShape | src/FFmpeg.NET/FFmpegArgumentBuilder.cs:34-51 | the thumbnail seeks to the option's position or one second, reads the input, takes one frame and then only picture pieces, and writes the output last |
| ArgumentBuilder.ThumbnailNeedsOptions | src/FFmpeg.NET/FFmpegArgumentBuilder.cs:37-43 | null options make the thumbnail throw, while the conversion has a form for them |
| Supervisor.CommandLine | src/FFmpeg.NET/FFmpegProcess.cs:171 | the tool is started with `-y ` followed by exactly the built arguments |
| Supervisor.FFmpegProcess.constructor | src/FFmpeg.NET/FFmpegProcess.cs:22-26 | a new supervisor holds its input, no messages, no exception and no events |
| Supervisor.FFmpegProcess.Reset | src/FFmpeg.NET/FFmpegProcess.cs:30-31 | a run starts with no messages and no caught exception, and keeps the events |
| Supervisor.FFmpegProcess.Start | src/FFmpeg.NET/FFmpegProcess.cs:28-33 | after the reset the command line is `-y` and the built arguments, or the builder's exception escapes |
| Supervisor.FFmpegProcess.UpdateInput | src/FFmpeg.NET/FFmpegProcess.cs:130-149 | the input's metadata and the exception are those of the video, audio and duration steps in turn |
| Supervisor.FFmpegProcess.UpdateDuration | src/FFmpeg.NET/FFmpegProcess.cs:135-149 | a duration match creates the metadata when absent and overwrites its duration with the parsed span |
| Supervisor.FFmpegProcess.RaiseProgress | src/FFmpeg.NET/FFmpegProcess.cs:152-160 | a progress line raises one Progress event whose total is the metadata duration, or else this line's duration |
| Supervisor.FFmpegProcess.FFmpegProcessOnErrorDataReceived | src/FFmpeg.NET/FFmpegProcess.cs:120-166 | one non-null line changes the state as `HandleLine` says, exceptions caught included |
| Supervisor.FFmpegProcess.OnDataHandler | src/FFmpeg.NET/FFmpegProcess.cs:94-98 | a Data event for every line, null included, then the line handler |
| Supervisor.FFmpegProcess.Run | src/FFmpeg.NET/FFmpegProcess.cs:40 | the lines handled in arrival order |
| Supervisor.FFmpegProcess.Finish | src/FFmpeg.NET/FFmpegProcess.cs:57-91 | after the wait, the events and the escaping exception are those of `Terminal`, and the messages stay as they are |
| Supervisor.FFmpegProcess.Execute | src/FFmpeg.NET/FFmpegProcess.cs:28-91 | a whole run is the reset, the fold of the lines and then the terminal step |
| Supervisor.Reverse | src/FFmpeg.NET/FFmpegProcess.cs:129 | inserting each line at the front leaves line n-1-k at index k, with the length kept |
| Supervisor.FoldMessages | src/FFmpeg.NET/FFmpegProcess.cs:129 | a step that puts each non-null line in front makes the messages the reversed non-null lines |
| Supervisor.FoldData | src/FFmpeg.NET/FFmpegProcess.cs:96 | a step that raises one Data event per line leaves the Data payloads equal to the lines |
| Supervisor.FoldInvariant | src/FFmpeg.NET/FFmpegProcess.cs:94-98 | a property every step keeps holds after any run of lines |
| Supervisor.HandleLineEvents | src/FFmpeg.NET/FFmpegProcess.cs:152-160 | handling a line adds at most one event, a Progress event |
| Supervisor.HandleMessages | src/FFmpeg.NET/FFmpegProcess.cs:123-129 | a non-null line is put first in the messages, and a null one changes nothing |
| Supervisor.HandleData | src/FFmpeg.NET/FFmpegProcess.cs:96 | each line adds exactly its own Data event |
| Supervisor.HandleNoTerminal | src/FFmpeg.NET/FFmpegProcess.cs:94-98 | a line never raises Completed or Error |
| Supervisor.HandleKeepsFault | src/FFmpeg.NET/FFmpegProcess.cs:162-165 | a caught exception stays caught |
| Supervisor.HandleKeepsStreams | src/FFmpeg.NET/FFmpegProcess.cs:132-133 | a line keeps recorded video and audio data |
| Supervisor.MessagesNewestFirst | src/FFmpeg.NET/FFmpegProcess.cs:129 | the messages are the non-null lines, newest first, in front of what was there |
| Supervisor.DataEventsMirrorLines | src/FFmpeg.NET/FFmpegProcess.cs:96 | one Data event per line, null lines included, in line order |
| Supervisor.NoTerminalWhileRunning | src/FFmpeg.NET/FFmpegProcess.cs:84-91 | Completed and Error come only from the terminal step |
| Supervisor.FaultPersists | src/FFmpeg.NET/FFmpegProcess.cs:162-165 | a caught exception is never cleared by later lines |
| Supervisor.StreamDataStable | src/FFmpeg.NET/FFmpegProcess.cs:132-133 | once video (or audio) data is recorded, no later line changes it |
| Supervisor.DurationOverwrites | src/FFmpeg.NET/FFmpegProcess.cs:135-148 | with an input, a duration line creates absent metadata with the input's file and overwrites the duration |
| Supervisor.ProgressTotal | src/FFmpeg.NET/FFmpegProcess.cs:152-157 | a progress event's total duration is the metadata's duration when metadata exists, otherwise this line's own duration |
| Supervisor.ExactlyOneTerminal | src/FFmpeg.NET/FFmpegProcess.cs:57-91 | after an exit, exactly one terminal event: Error exactly for a caught exception or a nonzero code, carrying both. A cancelled wait raises none and lets `TaskCanceledException` escape |
| Supervisor.ErrorMessageFromLines | src/FFmpeg.NET/FFmpegProcess.cs:114-117 | the error message is the second-newest captured line followed by the newest, or all captured lines when fewer than two |
| LegacySupervisor.LegacyCommandLine | src/FFmpeg.NET/Engine/FFmpegProcess.cs:115 | the older start prefix `-nostdin -y -loglevel info ` followed by exactly the arguments |
| LegacySupervisor.LegacyProcess.constructor | src/FFmpeg.NET/Engine/FFmpegProcess.cs:36-37 | a run starts with no messages and no exception |
| LegacySupervisor.LegacyProcess.UpdateInput | src/FFmpeg.NET/Engine/FFmpegProcess.cs:83-96 | the input's metadata and the exception are those of the older video, audio and duration steps |
| LegacySupervisor.LegacyProcess.FFmpegProcessOnErrorDataReceived | src/FFmpeg.NET/Engine/FFmpegProcess.cs:75-109 | one non-null line changes the state as `LegacyHandleLine` says |
| LegacySupervisor.LegacyProcess.OnErrorDataReceived | src/FFmpeg.NET/Engine/FFmpegProcess.cs:44-45 | the Data handler runs first, then the line handler |
| LegacySupervisor.LegacyProcess.Run | src/FFmpeg.NET/Engine/FFmpegProcess.cs:44-47 | the lines handled in arrival order |
| LegacySupervisor.LegacyProcess.Finish | src/FFmpeg.NET/Engine/FFmpegProcess.cs:50-71 | after the wait, the events and the escaping exception are those of `LegacyTerminal` |
| LegacySupervisor.LegacyProcess.Execute | src/FFmpeg.NET/Engine/FFmpegProcess.cs:34-73 | a process that does not start throws before any event; otherwise the fold of the lines, then the terminal step |
| LegacySupervisor.LegacyHandleMessages | src/FFmpeg.NET/Engine/FFmpegProcess.cs:78-82 | a non-null line is put first in the messages |
| LegacySupervisor.LegacyHandleNoTerminal | src/FFmpeg.NET/Engine/FFmpegProcess.cs:75-109 | a line never raises Completed or Error |
| LegacySupervisor.LegacyMessagesNewestFirst | src/FFmpeg.NET/Engine/FFmpegProcess.cs:82 | the older messages are the non-null lines, newest first |
| LegacySupervisor.LegacyNoTerminalWhileRunning | src/FFmpeg.NET/Engine/FFmpegProcess.cs:75-109 | no line of the older supervisor raises a terminal event |
| LegacySupervisor.LegacyProgressTotal | src/FFmpeg.NET/Engine/FFmpegProcess.cs:99-103 | the older progress total is only this line's own parsed duration, zero for a line without one |
| LegacySupervisor.ShortFailureThrows | src/FFmpeg.NET/Engine/FFmpegProcess.cs:65 | a failed run with fewer than two captured lines throws `ArgumentOutOfRangeException` and raises no Error event |
| LegacySupervisor.OneLineFailure | src/FFmpeg.NET/Engine/FFmpegProcess.cs:65 | one line and exit code 1: the older supervisor throws, while the current one raises Error carrying that line |
| LegacySupervisor.LegacyDurationOverwrites | src/FFmpeg.NET/Engine/FFmpegProcess.cs:88-96 | on a `Duration:` line whose video and audio steps do not throw, the input's duration becomes this line's parsed duration, zero when the parse fails, whatever it was before |
| LegacySupervisor.LegacyExactlyOneTerminal | src/FFmpeg.NET/Engine/FFmpegProcess.cs:50-71 | a wait that does not end in an exit raises nothing and throws. A clean exit raises Completed alone; with two captured lines or more exactly one terminal event is raised, Error exactly when an exception was caught or the exit code is not 0, carrying `messages[1] + messages[0]` |
| PlaylistPaths.FileLocation | src/FFmpeg.NET/Services/M3uPlaylistCreator.cs:20 | `file:///` and then the full path with every separator swapped for the alternate one, every other character kept |
| PlaylistPaths.LocationPath | src/FFmpeg.NET/Services/M3uPlaylistCreator.cs:20 | swapping back recovers the full path, unless it already held an alternate separator |
| M3u.WholeSeconds | src/FFmpeg.NET/Services/M3uPlaylistCreator.cs:19 | `(int) TotalSeconds` is the duration's whole seconds, truncated toward zero, within the 32-bit range |
| M3u.Create | src/FFmpeg.NET/Services/M3uPlaylistCreator.cs:10-24 | the builder loop yields `CreateText`: each line in turn with its terminator, or the exception |
| M3u.HeaderOnly | src/FFmpeg.NET/Services/M3uPlaylistCreator.cs:16 | before the loop the text is `#EXTM3U` and its terminator |
| M3u.AppendEntry | src/FFmpeg.NET/Services/M3uPlaylistCreator.cs:17-21 | one pass of the loop keeps the builder equal to the text of the lines so far |
| M3u.TerminatedAppend | src/FFmpeg.NET/Services/M3uPlaylistCreator.cs:16-21 | the text of two runs of lines is their concatenation |
| M3u.EntryShape | src/FFmpeg.NET/Services/M3uPlaylistCreator.cs:17-21 | for each entry, in input order, its `#EXTINF` line and then its location line |
| M3u.LinesShape | src/FFmpeg.NET/Services/M3uPlaylistCreator.cs:16-21 | n entries give 1 + 2n lines: the header first, then each entry's pair |
| M3u.ExtInfSeconds | src/FFmpeg.NET/Services/M3uPlaylistCreator.cs:19 | the `#EXTINF` value is the duration's whole seconds |
| M3u.ExtInfFive | tests/FFmpeg.NET.Tests/PlaylistCreatorTests.cs:46 | any duration from 5 s up to 6 s writes `#EXTINF:5,<name>` |
| M3u.ExtInfTwentySeven | tests/FFmpeg.NET.Tests/PlaylistCreatorTests.cs:48 | any duration from 27 s up to 28 s writes `#EXTINF:27,<name>` |
| M3u.FirstAt | src/FFmpeg.NET/Services/M3uPlaylistCreator.cs:23 | the first terminator at or after a position, or the end of the text |
| M3u.PlainUnbroken | src/FFmpeg.NET/Services/M3uPlaylistCreator.cs:19-20 | a line free of the terminator's first character contains no terminator, even at its end |
| M3u.SplitTerminated | src/FFmpeg.NET/Services/M3uPlaylistCreator.cs:23 | cutting terminated text at its terminators gives back the lines |
| M3u.CreateRoundTrip | src/FFmpeg.NET/Services/M3uPlaylistCreator.cs:10-23 | the text splits back into exactly the header and the entry lines, 1 + 2n of them |
| M3u.CreateOutcome | src/FFmpeg.NET/Services/M3uPlaylistCreator.cs:12-19 | `ArgumentException` exactly for a null list, `NullReferenceException` exactly for an entry without a file, and an empty list gives the header alone |
| Xspf.DurationOf | FFmpeg.NET/Services/XspfPlaylistCreator.cs:32 | the `(uint)` milliseconds: kept when in range, 0 for a negative duration |
| Xspf.PlaylistExtension.constructor | FFmpeg.NET/Services/XspfPlaylistCreator.cs:18-22 | the VLC application and a null item slot per entry |
| Xspf.Playlist.constructor | FFmpeg.NET/Services/XspfPlaylistCreator.cs:13-23 | title `Playlist`, version 1, and a null track and item slot per entry |
| Xspf.Create | FFmpeg.NET/Services/XspfPlaylistCreator.cs:11-41 | fails with `NullReferenceException` exactly for a null list or an entry without a file. Otherwise slot i holds entry i's track and the item naming i |
| Xspf.Extend | FFmpeg.NET/Services/XspfPlaylistCreator.cs:26-31 | one more entry with a file keeps every entry so far carrying a file |
| Xspf.TrackOfEntry | FFmpeg.NET/Services/XspfPlaylistCreator.cs:28-39 | a track carries the file name, its index as VLC id, the duration when it fits, and a location from which the full path comes back |
| Xspf.IdsMatch | FFmpeg.NET/Services/XspfPlaylistCreator.cs:37-40 | track ids and item ids run 0, 1, …, n-1, so every item names exactly one track and no two tracks share an id |

## Left out

- Process I/O is not modelled: starting the tool, the threads delivering lines, `WaitForExitAsync` and its cancellation plumbing, `Kill` and the exceptions it swallows. A run is a sequence of lines followed by a `WaitOutcome` (exit code, cancelled, or start failed).
- The current and the older `ExecuteAsync` overloads are modelled through `Execute`. The input handler callbacks (`HandleProcessStartedAsync`/`HandleProcessExitedAsync`, used by stream inputs) are not modelled.
- `TryUpdateMediaInfo` and `RegexEngine.IsMediaInfo` are not part of this model. The current handler calls them first on every line, assumed not to throw. Their `MediaInfo` only travels with the Progress event.
- Floating point is exact `real`. Binary rounding of `double`, `TotalSeconds` and `TotalMilliseconds` is not modelled.
- A `double` or `TimeSpan` cast out of integer range is modelled as saturation. C# leaves that case unspecified.
- `RegexEngine.GetLongValue`, `GetDoubleValue` and `GetIntValue` use `NumberStyles.Any`. The model parses integers with `NumberStyles.Integer` rules and decimals with `Numbers.TryParseDecimal` (white space, a leading sign, digits with at most one `.`). The two agree on the digit-and-dot captures these getters receive, but not on thousands separators, currency symbols, parentheses or exponents.
- RegexEngine.ConvertToDouble: `Convert.ToDouble` also reads exponents and thousands separators. The model uses `Numbers.TryParseDecimal`, which agrees on the `[0-9\.]*` capture it receives.
- Numbers.TryParseNumber: the infinity and NaN symbols and trailing NUL characters, which `double.TryParse` also accepts, are rejected.
- Duration formatting is a parameter (`ArgumentBuilder.Formats`). This covers `-ss` (`TotalSeconds`) and `-t` (`TimeSpan.ToString`). Integers are written in invariant decimal (`Numbers.IntToString`).
- LegacySupervisor.LegacyProcess.UpdateInput: the older `TimeSpan.TryParse` of a duration is a parameter function (`standardParse`). Its format is not modelled.
- `LegacyRegexEngine.IsProgressData` uses the same `standardParse` parameter for the processed duration.
- `Environment.NewLine` and the directory separators are a `Platform` parameter (`PlaylistPaths.Windows`, `PlaylistPaths.Unix`).
- XSPF: the XML serialisation of the playlist is not modelled. This covers the namespaces, `XmlWriter` and UTF-8 encoding (`FFmpeg.NET/Services/XspfPlaylistCreator.cs:43-51`). The model stops at the playlist record handed to the serialiser.
- Null elements inside a metadata list are not modelled. The lists hold only `MetaData` records; a missing `FileInfo` is modelled.
- `Engine`, `FFmpeg` (the public facade), `MediaInfo`, `StreamInput`, `StandardInputWriter`, the compression classes and the GZipper tool are not part of this model.
- The enums `Target`, `TargetStandard`, `VideoSize`, `VideoAspectRatio` and `AudioSampleRate` are not part of this model. Their members are represented by name, with `Default` as the unset value. `HWAccel` defaults to `None`.
- `FFmpegTask` is represented by its four members (convert, metadata, thumbnail, execute).
- ArgumentBuilder.BuildOutcome: an `Execute` task without custom arguments throws `ArgumentOutOfRangeException` as line 26 does. The `Execute` path with custom arguments is the custom-argument branch.
- Media.InputRef.FromFile: `new InputFile(string)` resolving a relative path to a full path is not modelled. The model starts from a `FileInfo`.

## Findings

| source | as written | input that shows it | evidently intended | confidence | as-written member | corrected member |
|---|---|---|---|---|---|---|
| src/FFmpeg.NET/Engine/FFmpegProcess.cs:65 | the error message is `messages[1] + messages[0]`, with no check of how many lines were captured | a run in which ffmpeg prints one stderr line and exits with code 1 | raise Error with the captured lines as the message, as the current `GetExceptionMessage` in src/FFmpeg.NET/FFmpegProcess.cs:114-117 does | not executed | LegacySupervisor.ShortFailureThrows | Supervisor.ErrorMessageFromLines |
