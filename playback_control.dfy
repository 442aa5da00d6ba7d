/**
 * PlaybackService.Control: the media-controller facade over the session singleton.
 * `svc` is PlaybackService.getInstance(), null while the service is not running, and
 * `pl` is the shared playlist. When the service is not running every call is a no-op
 * or returns a default; start() then asks for the service to be started instead.
 */
module PlaybackControl {
  import opened Wrappers
  import opened Java
  import opened Playlists
  import opened Playback

  /** Above this position (in ms), "previous" restarts the current song instead. */
  const RESTART_THRESHOLD: int := 15000

  /** The session, when running, works on the shared playlist. */
  ghost predicate Attached(pl: Playlist, svc: PlaybackService?)
    reads pl, svc, if svc != null then {svc.playlist} else {}
  {
    pl.Valid() && (svc != null ==> svc.playlist == pl && svc.Valid())
  }

  function IsRunning(svc: PlaybackService?): bool {
    svc != null
  }

  function CanPause(svc: PlaybackService?): (b: bool)
    reads svc
    ensures b <==> svc != null
  {
    svc != null && svc.CanPause()
  }

  function GetDuration(svc: PlaybackService?): (d: int)
    reads svc
    ensures svc == null ==> d == 0
    ensures svc != null ==> d == svc.GetDuration()
  {
    if svc != null then svc.GetDuration() else 0
  }

  function GetCurrentPosition(svc: PlaybackService?): (p: int)
    reads svc
    ensures svc == null ==> p == 0
    ensures svc != null ==> p == svc.GetCurrentPosition()
  {
    if svc != null then svc.GetCurrentPosition() else 0
  }

  function IsPlaying(svc: PlaybackService?): (b: bool)
    reads svc
    ensures b <==> svc != null && svc.IsPlaying()
  {
    svc != null && svc.IsPlaying()
  }

  function GetBufferPercentage(svc: PlaybackService?): (p: int)
    reads svc
    ensures p == 0
  {
    if svc != null then svc.GetBufferPercentage() else 0
  }

  /** canSeekBackward and canSeekForward. */
  function CanSeek(svc: PlaybackService?): (b: bool)
    reads svc
    ensures b <==> svc != null && svc.mIsPrepared
  {
    svc != null && svc.CanSeek()
  }

  function GetAudioSessionId(svc: PlaybackService?): (id: int)
    reads svc
    ensures id == 0
  {
    if svc != null then svc.GetAudioSessionId() else 0
  }

  /** What the "previous" button does at a given playback position. */
  datatype PrevStep = RestartSong | PreviousSong

  function PrevStepAt(position: int): (step: PrevStep)
    ensures step == RestartSong <==> position > RESTART_THRESHOLD
  {
    if position > RESTART_THRESHOLD then RestartSong else PreviousSong
  }

  /** Restarting needs a prepared session: a stopped or unprepared one reports position 0. */
  lemma RestartOnlyWhenPrepared(svc: PlaybackService?)
    requires PrevStepAt(GetCurrentPosition(svc)) == RestartSong
    ensures svc != null && svc.mIsPrepared && svc.playerPosition > RESTART_THRESHOLD
  {
  }

  /**
   * The session state no controller call touches: the error counter, the decoder's
   * duration, the back-stack flag, posted retries and a requested stop.
   */
  twostate predicate KeepsBookkeeping(svc: PlaybackService)
    reads svc
  {
    unchanged(svc`mErrorCount, svc`playerDuration, svc`mHasMainTask, svc`pendingRetries, svc`stopSelfRequested)
  }

  method SeekTo(pl: Playlist, svc: PlaybackService?, position: int)
    requires Attached(pl, svc)
    modifies svc
    ensures Attached(pl, svc)
    ensures svc != null && !old(svc.mIsPrepared) ==> unchanged(svc)
    ensures svc != null && old(svc.mIsPrepared) ==>
              svc.playerPosition == position && svc.Shows(old(svc.mNotification), old(svc.foregroundStarts))
    ensures svc != null ==> unchanged(svc`mSong, svc`mIsPrepared, svc`mShouldPlay, svc`hasPlayer, svc`playerPlaying,
                                      svc`playerSource, svc`broadcasts, svc`hasAudioFocus) && KeepsBookkeeping(svc)
  {
    if svc != null {
      svc.SeekTo(position);
    }
  }

  method Pause(pl: Playlist, svc: PlaybackService?)
    requires Attached(pl, svc)
    modifies svc
    ensures Attached(pl, svc)
    ensures svc != null ==> svc.PauseEffect() && KeepsBookkeeping(svc)
    ensures svc != null ==> unchanged(svc`mSong, svc`mIsPrepared, svc`hasPlayer, svc`playerSource, svc`playerPosition,
                                      svc`hasAudioFocus)
  {
    if svc != null {
      svc.Pause();
    }
  }

  /** The next listener: step forward, and prepare if the service is running. */
  method Next(pl: Playlist, svc: PlaybackService?)
    requires Attached(pl, svc)
    modifies pl`position, svc
    ensures Attached(pl, svc)
    ensures pl.position == if old(pl.position).Some? && old(pl.position).value + 1 < |pl.entries|
                           then Some(old(pl.position).value + 1) else None
    ensures svc != null ==> svc.PrepareEffect() && KeepsBookkeeping(svc) && unchanged(svc`hasAudioFocus)
  {
    var _ := pl.MoveToNext();
    if svc != null {
      var _ := svc.Prepare();
    }
  }

  /**
   * The previous listener: past the restart threshold, seek to the start of the song;
   * otherwise step back, and prepare if the service is running.
   */
  method Prev(pl: Playlist, svc: PlaybackService?)
    requires Attached(pl, svc)
    modifies pl`position, svc
    ensures Attached(pl, svc)
    ensures old(GetCurrentPosition(svc)) > RESTART_THRESHOLD ==>
              && svc != null && pl.position == old(pl.position)
              && svc.playerPosition == 0 && svc.Shows(old(svc.mNotification), old(svc.foregroundStarts))
    ensures old(GetCurrentPosition(svc)) <= RESTART_THRESHOLD ==>
              && pl.position == (if old(pl.position).Some? && old(pl.position).value > 0
                                 then Some(old(pl.position).value - 1) else None)
              && (svc != null ==> svc.PrepareEffect())
    ensures old(GetCurrentPosition(svc)) > RESTART_THRESHOLD && svc != null ==>
              unchanged(svc`mSong, svc`mIsPrepared, svc`mShouldPlay, svc`hasPlayer, svc`playerPlaying,
                        svc`playerSource, svc`broadcasts)
    ensures svc != null ==> KeepsBookkeeping(svc) && unchanged(svc`hasAudioFocus)
  {
    if GetCurrentPosition(svc) > RESTART_THRESHOLD {
      SeekTo(pl, svc, 0);
    } else {
      var _ := pl.MoveToPrev();
      if svc != null {
        var _ := svc.Prepare();
      }
    }
  }

  /** start(): start the running session, or ask for the service to be started with ACTION_PLAY. */
  method Start(pl: Playlist, svc: PlaybackService?, focusGranted: bool) returns (startRequested: bool)
    requires Attached(pl, svc)
    modifies pl`position, svc
    ensures Attached(pl, svc)
    ensures startRequested <==> svc == null
    ensures svc == null ==> pl.position == old(pl.position)
    ensures svc != null ==> svc.StartEffect(focusGranted) && KeepsBookkeeping(svc)
  {
    if svc != null {
      svc.Start(focusGranted);
      return false;
    }
    return true;
  }

  /**
   * start(pos) on a running session, once the playlist is at `pos`: prepare(), then start().
   * A song at `pos` is loaded twice (prepare() runs again in start()'s unprepared branch, so
   * LOADING is broadcast twice). A null entry leaves the song null: a prepared decoder
   * resumes the previous song, an unprepared session falls back to the first entry.
   */
  method PrepareAndStart(pl: Playlist, svc: PlaybackService, pos: int, focusGranted: bool)
    requires Attached(pl, svc) && 0 <= pos < |pl.entries| && pl.position == Some(pos)
    modifies pl`position, svc`mSong, svc`mIsPrepared, svc`mShouldPlay, svc`hasPlayer, svc`playerPlaying,
             svc`playerSource, svc`playerPosition, svc`broadcasts, svc`hasAudioFocus,
             svc`mNotification, svc`isForeground, svc`foregroundStarts
    ensures Attached(pl, svc)
    ensures svc.mShouldPlay && svc.Shows(old(svc.mNotification), old(svc.foregroundStarts))
    ensures pl.entries[pos] != null ==>
              && pl.position == Some(pos) && svc.mSong == pl.entries[pos]
              && !svc.mIsPrepared && svc.hasPlayer && !svc.playerPlaying
              && svc.playerSource == pl.entries[pos].url && svc.playerPosition == 0
              && svc.hasAudioFocus == old(svc.hasAudioFocus)
              && svc.broadcasts == old(svc.broadcasts) + [BroadcastLoading, BroadcastLoading]
    ensures pl.entries[pos] == null && old(svc.mIsPrepared) ==>
              && pl.position == Some(pos) && svc.mSong == null && svc.mIsPrepared
              && svc.hasPlayer == old(svc.hasPlayer) && svc.playerSource == old(svc.playerSource)
              && svc.playerPosition == old(svc.playerPosition)
              && svc.hasAudioFocus == (old(svc.hasAudioFocus) || focusGranted)
              && svc.playerPlaying == (old(svc.playerPlaying) || focusGranted)
              && svc.broadcasts == old(svc.broadcasts) + if focusGranted then [BroadcastPlaying] else []
    ensures pl.entries[pos] == null && !old(svc.mIsPrepared) ==>
              && pl.position == FirstPosition(|pl.entries|) && svc.mSong == pl.Current()
              && svc.hasAudioFocus == old(svc.hasAudioFocus)
              && (svc.mSong != null ==> svc.Loading(svc.mSong, old(svc.broadcasts)))
              && (svc.mSong == null ==>
                    && !svc.mIsPrepared && svc.broadcasts == old(svc.broadcasts)
                    && svc.hasPlayer == old(svc.hasPlayer) && svc.playerSource == old(svc.playerSource)
                    && svc.playerPosition == old(svc.playerPosition))
  {
    var _ := svc.Prepare();
    svc.Start(focusGranted);
  }

  /**
   * start(pos): move to the position, prepare if running, then start. A position
   * outside the playlist is an IllegalArgument error before anything else happens.
   */
  method StartAt(pl: Playlist, svc: PlaybackService?, pos: int, focusGranted: bool)
    returns (r: Result<bool>)
    requires Attached(pl, svc)
    modifies pl`position, svc
    ensures Attached(pl, svc)
    ensures !(0 <= pos < |pl.entries|) ==> r == Throw(IllegalArgument) && pl.position == old(pl.position)
    ensures svc != null && !(0 <= pos < |pl.entries|) ==> unchanged(svc)
    ensures 0 <= pos < |pl.entries| ==> r == Return(svc == null)
    ensures svc == null && 0 <= pos < |pl.entries| ==> pl.position == Some(pos)
    ensures svc != null && 0 <= pos < |pl.entries| ==>
              svc.mShouldPlay && svc.Shows(old(svc.mNotification), old(svc.foregroundStarts))
    ensures svc != null && 0 <= pos < |pl.entries| && pl.entries[pos] != null ==>
              && pl.position == Some(pos) && svc.mSong == pl.entries[pos]
              && !svc.mIsPrepared && svc.hasPlayer && !svc.playerPlaying
              && svc.playerSource == pl.entries[pos].url && svc.playerPosition == 0
              && svc.hasAudioFocus == old(svc.hasAudioFocus)
              && svc.broadcasts == old(svc.broadcasts) + [BroadcastLoading, BroadcastLoading]
    ensures svc != null && 0 <= pos < |pl.entries| && pl.entries[pos] == null && old(svc.mIsPrepared) ==>
              && pl.position == Some(pos) && svc.mSong == null && svc.mIsPrepared
              && svc.hasPlayer == old(svc.hasPlayer) && svc.playerSource == old(svc.playerSource)
              && svc.playerPosition == old(svc.playerPosition)
              && svc.hasAudioFocus == (old(svc.hasAudioFocus) || focusGranted)
              && svc.playerPlaying == (old(svc.playerPlaying) || focusGranted)
              && svc.broadcasts == old(svc.broadcasts) + if focusGranted then [BroadcastPlaying] else []
    ensures svc != null && 0 <= pos < |pl.entries| && pl.entries[pos] == null && !old(svc.mIsPrepared) ==>
              && pl.position == FirstPosition(|pl.entries|) && svc.mSong == pl.Current()
              && svc.hasAudioFocus == old(svc.hasAudioFocus)
              && (svc.mSong != null ==> svc.Loading(svc.mSong, old(svc.broadcasts)))
              && (svc.mSong == null ==>
                    && !svc.mIsPrepared && svc.broadcasts == old(svc.broadcasts)
                    && svc.hasPlayer == old(svc.hasPlayer) && svc.playerSource == old(svc.playerSource)
                    && svc.playerPosition == old(svc.playerPosition))
    ensures svc != null ==> KeepsBookkeeping(svc)
  {
    var ok := pl.MoveToPosition(pos);
    if !ok {
      return Throw(IllegalArgument);
    }
    if svc != null {
      PrepareAndStart(pl, svc, pos, focusGranted);
      return Return(false);
    }
    var startRequested := Start(pl, svc, focusGranted);
    return Return(startRequested);
  }
}
