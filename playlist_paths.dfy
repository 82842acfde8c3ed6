/** What both playlist creators of `FFmpeg.NET.Services` share: the platform constants they
    read, the files a list of metadata must carry, and the `file:///` location they write. */
module PlaylistPaths {
  import opened Text
  import opened Media

  /** `Environment.NewLine` (what `StringBuilder.AppendLine` ends a line with),
      `Path.DirectorySeparatorChar` and `Path.AltDirectorySeparatorChar`. */
  datatype Platform = Platform(newLine: string, separator: char, altSeparator: char)

  const Windows: Platform := Platform("\r\n", '\\', '/')
  const Unix: Platform := Platform("\n", '/', '/')

  const FileScheme: string := "file:///"

  /** Every entry has a `FileInfo`; reading `Name` or `FullName` of a missing one throws
      `NullReferenceException`. */
  predicate AllFiles(entries: seq<MetaData>) {
    forall i :: 0 <= i < |entries| ==> entries[i].fileInfo.Some?
  }

  /** `file:///` and the full path with every directory separator replaced by the
      alternate one. */
  function FileLocation(f: FileInfo, p: Platform): (r: string)
    ensures |r| == |FileScheme| + |f.fullName|
    ensures r[..|FileScheme|] == FileScheme
    ensures p.separator != p.altSeparator ==>
      forall i :: |FileScheme| <= i < |r| ==> r[i] != p.separator
    ensures forall i :: 0 <= i < |f.fullName| && f.fullName[i] != p.separator ==>
      r[|FileScheme| + i] == f.fullName[i]
  {
    FileScheme + ReplaceChar(f.fullName, p.separator, p.altSeparator)
  }

  /** The path comes back from the location by swapping the separators back, unless the
      path already held an alternate separator (then the two cannot be told apart). */
  lemma LocationPath(f: FileInfo, p: Platform)
    requires p.separator == p.altSeparator
      || forall i :: 0 <= i < |f.fullName| ==> f.fullName[i] != p.altSeparator
    ensures ReplaceChar(FileLocation(f, p)[|FileScheme|..], p.altSeparator, p.separator) == f.fullName
  {
    var tail := FileLocation(f, p)[|FileScheme|..];
    assert tail == ReplaceChar(f.fullName, p.separator, p.altSeparator);
  }
}
