/** `FFmpeg.NET/Services/XspfPlaylistCreator.cs`: the XSPF version 1 record `Create` builds:
    a playlist with a track list and a VLC extension whose item list names every track. The
    arrays are allocated with one null slot per entry and filled index by index. */
module Xspf {
  import opened Wrappers
  import opened Text
  import opened Numbers
  import opened Media
  import opened PlaylistPaths

  /** The application URI of both kinds of extension (lines 20 and 36). */
  const VlcApplication: string := "http://www.videolan.org/vlc/playlist/0"
  const PlaylistTitle: string := "Playlist"
  const XspfVersion: int := 1

  /** `Extension` of a track (lines 94-101). */
  datatype Extension = Extension(application: string, id: int)

  /** `Track` (lines 79-92); `duration` in milliseconds. */
  datatype Track = Track(location: string, title: string, duration: int, extension: Extension)

  /** `Item` (lines 112-116). */
  datatype Item = Item(tId: int)

  /** `(uint) metaData[i].Duration.TotalMilliseconds`, clamped to the range of `uint`. */
  function DurationOf(duration: int): (r: int)
    ensures 0 <= r <= UInt32Max
    ensures 0 <= duration <= UInt32Max ==> r == duration
    ensures duration < 0 ==> r == 0
  {
    SaturateUInt32(duration)
  }

  /** `Create`, lines 28-39: the track built for entry `i`. */
  function TrackOf(meta: MetaData, i: int, p: Platform): Track
    requires meta.fileInfo.Some?
  {
    var f := meta.fileInfo.value;
    Track(FileLocation(f, p), f.name, DurationOf(meta.duration), Extension(VlcApplication, i))
  }

  /** `PlaylistExtension` (lines 103-110). */
  class PlaylistExtension {
    var application: string
    var items: array<Option<Item>>

    constructor (application: string, count: nat)
      ensures this.application == application && fresh(items) && items.Length == count
      ensures forall i :: 0 <= i < count ==> items[i].None?
    {
      this.application := application;
      items := new Option<Item>[count](_ => None);
    }
  }

  /** `Playlist` (lines 62-77). */
  class Playlist {
    var version: int
    var title: string
    var trackList: array<Option<Track>>
    var extension: PlaylistExtension

    /** `Create`, lines 13-23: title, version, a null slot per entry in both arrays. */
    constructor (count: nat)
      ensures version == XspfVersion && title == PlaylistTitle
      ensures fresh(trackList) && trackList.Length == count
      ensures fresh(extension) && fresh(extension.items) && extension.items.Length == count
      ensures extension.application == VlcApplication
      ensures forall i :: 0 <= i < count ==> trackList[i].None? && extension.items[i].None?
    {
      version := XspfVersion;
      title := PlaylistTitle;
      trackList := new Option<Track>[count](_ => None);
      extension := new PlaylistExtension(VlcApplication, count);
    }

    /** Slots below `k` hold the track and the item of their entry; slots from `k` on are
        still null. */
    ghost predicate FilledTo(entries: seq<MetaData>, p: Platform, k: nat)
      reads this, extension, trackList, extension.items
    {
      && k <= |entries| == trackList.Length == extension.items.Length
      && AllFiles(entries[..k])
      && (forall i :: 0 <= i < k ==> trackList[i] == Some(TrackOf(entries[i], i, p)))
      && (forall i :: 0 <= i < k ==> extension.items[i] == Some(Item(i)))
      && (forall i :: k <= i < |entries| ==> trackList[i].None? && extension.items[i].None?)
    }

    /** The record for `entries`: the constants of lines 15-20 and every slot filled. */
    ghost predicate Describes(entries: seq<MetaData>, p: Platform)
      reads this, extension, trackList, extension.items
    {
      && version == XspfVersion && title == PlaylistTitle && extension.application == VlcApplication
      && FilledTo(entries, p, |entries|)
    }
  }

  /** `Create`, lines 13-41. A null list fails at `metaData.Count` and an entry without a file at
      `FileInfo.Name`, both with `NullReferenceException`; otherwise every slot of both arrays
      is filled, slot i with entry i's track and the item naming it. */
  method Create(metaData: Option<seq<MetaData>>, p: Platform) returns (r: Result<Playlist, Fault>)
    ensures r.Failure? <==> metaData.None? || !AllFiles(metaData.value)
    ensures r.Failure? ==> r.error == NullReference
    ensures r.Success? ==>
      fresh(r.value) && fresh(r.value.trackList) && fresh(r.value.extension)
      && fresh(r.value.extension.items) && r.value.Describes(metaData.value, p)
  {
    if metaData.None? {
      return Failure(NullReference);
    }
    var entries := metaData.value;
    var playlist := new Playlist(|entries|);
    var i := 0;
    while i < |entries|
      invariant 0 <= i <= |entries|
      invariant fresh(playlist.trackList) && fresh(playlist.extension) && fresh(playlist.extension.items)
      invariant playlist.version == XspfVersion && playlist.title == PlaylistTitle
      invariant playlist.extension.application == VlcApplication
      invariant playlist.FilledTo(entries, p, i)
    {
      var meta := entries[i];
      if meta.fileInfo.None? {
        assert !AllFiles(entries) by {
          assert entries[i].fileInfo.None?;
        }
        return Failure(NullReference);
      }
      var f := meta.fileInfo.value;
      playlist.trackList[i] := Some(Track(FileLocation(f, p), f.name, DurationOf(meta.duration),
                                          Extension(VlcApplication, i)));
      playlist.extension.items[i] := Some(Item(i));
      Extend(entries, i);
      i := i + 1;
    }
    assert entries[..i] == entries;
    return Success(playlist);
  }

  lemma Extend(entries: seq<MetaData>, i: nat)
    requires i < |entries| && AllFiles(entries[..i]) && entries[i].fileInfo.Some?
    ensures AllFiles(entries[..i + 1])
  {
    var prefix := entries[..i + 1];
    forall k | 0 <= k < |prefix|
      ensures prefix[k].fileInfo.Some?
    {
      if k < i {
        assert prefix[k] == entries[..i][k];
      }
    }
  }

  /** What a track says about its entry: the file name, the duration when it fits a `uint`,
      the location from which the full path comes back, and its own index as the VLC id. */
  lemma TrackOfEntry(meta: MetaData, i: int, p: Platform)
    requires meta.fileInfo.Some?
    requires p.separator == p.altSeparator
      || forall j :: 0 <= j < |meta.fileInfo.value.fullName| ==> meta.fileInfo.value.fullName[j] != p.altSeparator
    ensures var t := TrackOf(meta, i, p);
      t.title == meta.fileInfo.value.name && t.extension == Extension(VlcApplication, i)
      && (0 <= meta.duration <= UInt32Max ==> t.duration == meta.duration)
      && t.location[..|FileScheme|] == FileScheme
      && ReplaceChar(t.location[|FileScheme|..], p.altSeparator, p.separator) == meta.fileInfo.value.fullName
  {
    LocationPath(meta.fileInfo.value, p);
  }

  /** Track ids and item ids run 0, 1, …, n - 1, so every item names exactly one track. */
  lemma IdsMatch(playlist: Playlist, entries: seq<MetaData>, p: Platform)
    requires playlist.Describes(entries, p)
    ensures forall i :: 0 <= i < |entries| ==>
      playlist.trackList[i].Some? && playlist.extension.items[i].Some?
      && playlist.trackList[i].value.extension.id == playlist.extension.items[i].value.tId == i
    ensures forall i, j :: 0 <= i < j < |entries| ==>
      playlist.trackList[i].value.extension.id != playlist.trackList[j].value.extension.id
  {
  }
}
