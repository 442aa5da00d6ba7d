/**
 * The playlist the playback session works on. Playlist.java is not part of this
 * model: what follows is only what the session's call sites use, with the behaviour
 * the application's design gives a playlist (an ordered list of songs with an
 * optional current position, no wrap-around).
 */
module Playlists {
  import opened Wrappers

  /** Playlist.Song.STATUS_*: whether the song has been prepared or has failed. */
  datatype Status = StatusUnknown | StatusOk | StatusError

  /** The columns of one query row that a song is built from. */
  datatype SongRecord = SongRecord(leadId: int, url: Option<string>, name: string, singing: string)

  /**
   * Playlist.Song. The same object can sit in the playlist and in the session's
   * current-song field, so its status is shared state.
   */
  class Song {
    const leadId: int
    const url: Option<string>
    const name: string
    const singing: string
    var status: Status

    constructor (r: SongRecord)
      ensures Record() == r
      ensures status == StatusUnknown
    {
      leadId, url, name, singing := r.leadId, r.url, r.name, r.singing;
      status := StatusUnknown;
    }

    /** The row this song was built from. */
    function Record(): SongRecord {
      SongRecord(leadId, url, name, singing)
    }
  }

  /** Entries may be null: a lookup that found no song is stored as it is. */
  class Playlist {
    var entries: seq<Song?>
    var position: Option<nat>

    ghost predicate Valid()
      reads this
    {
      position.Some? ==> position.value < |entries|
    }

    constructor ()
      ensures Valid() && entries == [] && position == None
    {
      entries, position := [], None;
    }

    /** The song at the current position, or null. */
    function Current(): (s: Song?)
      requires Valid()
      reads this
      ensures s != null ==> position.Some? && s == entries[position.value]
    {
      if position.Some? then entries[position.value] else null
    }

    predicate Contains(s: Song)
      reads this
    {
      s in entries
    }

    method GetCurrent() returns (s: Song?)
      requires Valid()
      ensures s == Current()
    {
      s := if position.Some? then entries[position.value] else null;
    }

    method MoveToFirst()
      requires Valid()
      modifies this`position
      ensures Valid()
      ensures position == if |entries| > 0 then Some(0) else None
    {
      position := if |entries| > 0 then Some(0) else None;
    }

    /** Advances; past the last entry the position becomes none, and stays none. */
    method MoveToNext() returns (s: Song?)
      requires Valid()
      modifies this`position
      ensures Valid() && s == Current()
      ensures position == if old(position).Some? && old(position).value + 1 < |entries|
                          then Some(old(position).value + 1) else None
    {
      if position.Some? && position.value + 1 < |entries| {
        position := Some(position.value + 1);
      } else {
        position := None;
      }
      s := Current();
    }

    /** Steps back; before the first entry the position becomes none. */
    method MoveToPrev() returns (s: Song?)
      requires Valid()
      modifies this`position
      ensures Valid() && s == Current()
      ensures position == if old(position).Some? && old(position).value > 0
                          then Some(old(position).value - 1) else None
    {
      if position.Some? && position.value > 0 {
        position := Some(position.value - 1);
      } else {
        position := None;
      }
      s := Current();
    }

    /** An index outside the entries is an IllegalArgument error and moves nothing. */
    method MoveToPosition(i: int) returns (ok: bool)
      requires Valid()
      modifies this`position
      ensures Valid()
      ensures ok <==> 0 <= i < |entries|
      ensures position == if ok then Some(i) else old(position)
    {
      ok := 0 <= i < |entries|;
      if ok {
        position := Some(i);
      }
    }

    method ReplaceWith(songs: seq<Song?>)
      modifies this
      ensures Valid() && entries == songs && position == None
    {
      entries, position := songs, None;
    }

    method AddAll(songs: seq<Song?>)
      requires Valid()
      modifies this`entries
      ensures Valid() && entries == old(entries) + songs
    {
      entries := entries + songs;
    }
  }
}
