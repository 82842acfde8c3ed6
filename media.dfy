/** The records the library passes around: file identity, stream metadata, progress
    snapshots, the exceptions it throws and the events it raises. */
module Media {
  import opened Wrappers

  /** The two parts of `System.IO.FileInfo` the library reads. */
  datatype FileInfo = FileInfo(name: string, fullName: string)

  /** The exceptions the modelled code can throw, by .NET type. */
  datatype Fault =
    | FormatError           // System.FormatException
    | OverflowError         // System.OverflowException
    | ArgumentOutOfRange    // System.ArgumentOutOfRangeException
    | ArgumentError         // System.ArgumentException
    | NullReference         // System.NullReferenceException
    | InvalidOperation      // System.InvalidOperationException
    | TaskCanceled          // System.Threading.Tasks.TaskCanceledException

  /** `MetaData.Video`. */
  datatype VideoInfo = VideoInfo(format: string, colorModel: string, frameSize: string,
                                 bitRateKbs: Option<int>, fps: real)

  /** `MetaData.Audio`. */
  datatype AudioInfo = AudioInfo(format: string, sampleRate: string, channelOutput: string,
                                 bitRateKbs: int)

  /** `MetaData`: `duration` in milliseconds. */
  datatype MetaData = MetaData(duration: int, video: Option<VideoInfo>, audio: Option<AudioInfo>,
                               fileInfo: Option<FileInfo>)

  /** `new MetaData { FileInfo = f }`: zero duration, no stream data. */
  function NewMetaData(f: Option<FileInfo>): (m: MetaData)
    ensures m.duration == 0 && m.video.None? && m.audio.None? && m.fileInfo == f
  {
    MetaData(0, None, None, f)
  }

  /** `ProgressData`: durations in milliseconds. */
  datatype ProgressData = ProgressData(processed: int, total: int, frame: Option<int>,
                                       fps: Option<real>, sizeKb: Option<int>, bitrate: Option<real>)

  /** `FFmpegException(message, innerException, exitCode)`. */
  datatype FFmpegException = FFmpegException(message: string, inner: Option<Fault>, exitCode: int)

  /** The events a process raises, in the order it raises them. */
  datatype Event =
    | Data(line: Option<string>)
    | Progress(progress: ProgressData)
    | Completed
    | Error(exception: FFmpegException)

  /** An input reference (`InputFile`, `InputPipe`) together with the metadata that the
      process fills in while the tool runs. `fileInfo` is present for files only. */
  class InputRef {
    const path: string
    const fileInfo: Option<FileInfo>
    var metaData: Option<MetaData>

    /** `new InputFile(fileInfo)`: the argument is the file's full path. */
    constructor FromFile(f: FileInfo)
      ensures path == f.fullName && fileInfo == Some(f) && metaData.None?
    {
      path := f.fullName;
      fileInfo := Some(f);
      metaData := None;
    }

    /** `new InputPipe(pipePath)`: no `FileInfo`. */
    constructor FromPipe(pipePath: string)
      ensures path == pipePath && fileInfo.None? && metaData.None?
    {
      path := pipePath;
      fileInfo := None;
      metaData := None;
    }
  }
}
