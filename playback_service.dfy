/**
 * PlaybackService: the one playback session of the application. It owns the media
 * decoder (here a flag and the few decoder facts the session reads), the audio
 * focus, the foreground notification and the error-retry policy, and works on the
 * shared playlist.
 *
 * Android collaborators become state: the decoder is `hasPlayer` plus its playing
 * flag, data source, position and duration; the audio focus is `hasAudioFocus`,
 * with the answer to each focus request passed in as `focusGranted`; the foreground
 * notification is the rendered view it shows; local broadcasts are appended to
 * `broadcasts`; the delayed retry is a count of posted retries. Each method states
 * its new state field by field against the old one; the effects shared by several
 * entry points (prepare, start, pause, stop) are the two-state predicates
 * `PrepareEffect`, `StartEffect` and `PauseEffect` and the predicate `Released`.
 */
module Playback {
  import opened Wrappers
  import opened Java
  import opened Playlists

  /** After this many consecutive decoder errors the session gives up on the song. */
  const ERROR_LIMIT: int := 100
  /** Delay of a retry, in milliseconds; time itself is not modelled. */
  const ERROR_DELAY_MS: int := 500

  /** AudioManager focus-change codes. */
  const AUDIOFOCUS_GAIN: int := 1
  const AUDIOFOCUS_LOSS: int := -1
  const AUDIOFOCUS_LOSS_TRANSIENT: int := -2

  /** The local broadcasts the session sends. */
  datatype Broadcast =
    | BroadcastLoading | BroadcastPrepared | BroadcastPlaying
    | BroadcastPaused | BroadcastCompleted | BroadcastError

  /** Where the notification leads: straight to the now-playing screen, or through a synthesized main screen. */
  datatype BackStack = NowPlayingOnly | MainThenNowPlaying

  /** What the playback notification shows. */
  datatype NotificationView = NotificationView(
    title: string,
    singing: string,
    pauseIcon: bool,          // the button shows "pause" (playing) rather than "play"
    playPauseVisible: bool,
    loadingVisible: bool,
    backStack: BackStack)

  /** updateNotification's rendering of the session state. */
  function Render(current: Song?, playing: bool, prepared: bool, hasMainTask: bool): (v: NotificationView)
    ensures v.playPauseVisible != v.loadingVisible
    ensures v.loadingVisible <==> !prepared
    ensures v.pauseIcon <==> playing
    ensures v.backStack == MainThenNowPlaying <==> !hasMainTask
    ensures current == null ==> v.title == "" && v.singing == ""
  {
    NotificationView(
      if current != null then current.name else "",
      if current != null then current.singing else "",
      playing,
      prepared,
      !prepared,
      if hasMainTask then NowPlayingOnly else MainThenNowPlaying)
  }

  /**
   * onError's counter policy: one more consecutive error; at the limit the counter
   * is reset and the session gives up on the song (the second component).
   */
  function CountError(count: int): (r: (int, bool))
    requires 0 <= count < ERROR_LIMIT
    ensures 0 <= r.0 < ERROR_LIMIT
    ensures r.1 <==> count == ERROR_LIMIT - 1
    ensures !r.1 ==> r.0 == count + 1
  {
    var c := count + 1;
    if c >= ERROR_LIMIT then (0, true) else (c, false)
  }

  /** The error count after k further consecutive errors. */
  function CountAfter(count: int, k: nat): (c: int)
    requires 0 <= count < ERROR_LIMIT
    ensures 0 <= c < ERROR_LIMIT
  {
    if k == 0 then count else CountError(CountAfter(count, k - 1)).0
  }

  /**
   * From a fresh counter (as every successful prepare leaves it), the first 99
   * consecutive errors each schedule a retry, the 100th gives up, and the counter
   * then starts again from zero.
   */
  lemma {:induction false} ErrorBudget(k: nat)
    requires k < ERROR_LIMIT
    ensures CountAfter(0, k) == k
    ensures CountError(CountAfter(0, k)).1 <==> k == ERROR_LIMIT - 1
  {
    if k > 0 {
      ErrorBudget(k - 1);
    }
  }

  lemma GiveUpResetsCounter()
    ensures CountAfter(0, ERROR_LIMIT) == 0
  {
    ErrorBudget(ERROR_LIMIT - 1);
  }

  /** The position moveToFirst gives a playlist with this many entries. */
  function FirstPosition(n: nat): Option<nat> {
    if n > 0 then Some(0) else None
  }

  // ---------------------------------------------------------------------------------
  // enqueueLead's ordering callback
  // ---------------------------------------------------------------------------------

  /** One row of the enqueue query: the key column's string value and the columns a song is built from. */
  datatype SongRow = SongRow(key: Option<string>, record: SongRecord)

  function Keys(rows: seq<SongRow>): (keys: seq<Option<string>>)
    ensures |keys| == |rows| && forall i :: 0 <= i < |rows| ==> keys[i] == rows[i].key
  {
    seq(|rows|, i requires 0 <= i < |rows| => rows[i].key)
  }

  /**
   * The index of the last row whose key is k, or -1 if there is none. Filling a HashMap
   * with put in row order leaves the last such row under each key.
   */
  function LastIndex(keys: seq<Option<string>>, k: Option<string>): (i: int)
    ensures -1 <= i < |keys|
    ensures i >= 0 ==> keys[i] == k && forall j :: i < j < |keys| ==> keys[j] != k
    ensures i == -1 <==> k !in keys
  {
    if |keys| == 0 then -1
    else if keys[|keys| - 1] == k then |keys| - 1
    else LastIndex(keys[..|keys| - 1], k)
  }

  /**
   * The key an argument is looked up under, as written: HashMap.get compares with
   * equals, and a boxed Long equals no String, so a lead-id argument has no key (None).
   */
  function LookupKeyAsWritten(arg: Value): (k: Option<Option<string>>)
    ensures k.None? <==> arg.Long?
    ensures arg.Str? ==> k == Some(Some(arg.s))
  {
    match arg
    case Str(s) => Some(Some(s))
    case Long(_) => None
  }

  /** The key an argument was meant to match: its string form, which is what the key column holds. */
  function LookupKey(arg: Value): Option<string> {
    Some(ToString(arg))
  }

  /** For each argument, the row whose song enqueueLead puts in the list as written, or -1 for null. */
  function OrderAsWritten(keys: seq<Option<string>>, args: seq<Value>): (r: seq<int>)
    ensures |r| == |args|
    ensures forall i :: 0 <= i < |args| && args[i].Long? ==> r[i] == -1
  {
    seq(|args|, i requires 0 <= i < |args| =>
      match LookupKeyAsWritten(args[i])
      case None => -1
      case Some(k) => LastIndex(keys, k))
  }

  /** For each argument, the row whose song goes in the list, or -1 for null, with the corrected lookup. */
  function OrderRows(keys: seq<Option<string>>, args: seq<Value>): (r: seq<int>)
    ensures |r| == |args|
    ensures forall i :: 0 <= i < |args| ==> -1 <= r[i] < |keys|
    ensures forall i :: 0 <= i < |args| ==> (r[i] == -1 <==> LookupKey(args[i]) !in keys)
    ensures forall i :: 0 <= i < |args| && r[i] >= 0 ==> keys[r[i]] == LookupKey(args[i])
  {
    seq(|args|, i requires 0 <= i < |args| => LastIndex(keys, LookupKey(args[i])))
  }

  /**
   * An enqueue by lead id finds no song as written, even when the query returned the
   * lead's row; the corrected lookup finds that row.
   */
  lemma LeadIdEnqueueAsWrittenMisses(keys: seq<Option<string>>, leadId: int)
    requires Some(LongToString(leadId)) in keys
    ensures OrderAsWritten(keys, [Long(leadId)]) == [-1]
    ensures OrderRows(keys, [Long(leadId)])[0] >= 0
    ensures keys[OrderRows(keys, [Long(leadId)])[0]] == Some(LongToString(leadId))
  {
  }

  /** For url arguments the two lookups agree. */
  lemma {:induction false} UrlOrderUnchanged(keys: seq<Option<string>>, args: seq<Value>)
    requires forall i :: 0 <= i < |args| ==> args[i].Str?
    ensures OrderAsWritten(keys, args) == OrderRows(keys, args)
  {
    var a, b := OrderAsWritten(keys, args), OrderRows(keys, args);
    forall i | 0 <= i < |args|
      ensures a[i] == b[i]
    {
      assert LookupKeyAsWritten(args[i]) == Some(LookupKey(args[i]));
    }
  }

  /** Duplicate rows: the later one wins. */
  lemma LaterRowWins(keys: seq<Option<string>>, i: nat, j: nat)
    requires i < j < |keys| && keys[i] == keys[j]
    ensures LastIndex(keys, keys[i]) >= j
  {
  }

  // ---------------------------------------------------------------------------------
  // onStartCommand's intents
  // ---------------------------------------------------------------------------------

  const ACTION_ENQUEUE_MEDIA: string := "org.fasola.fasolaminutes.media.ENQUEUE"
  const ACTION_PLAY_MEDIA: string := "org.fasola.fasolaminutes.media.PLAY"
  const ACTION_PLAY: string := "org.fasola.fasolaminutes.action.PLAY"
  const ACTION_PAUSE: string := "org.fasola.fasolaminutes.action.PAUSE"
  const ACTION_PLAY_PAUSE: string := "org.fasola.fasolaminutes.action.PLAY_PAUSE"
  const ACTION_NEXT: string := "org.fasola.fasolaminutes.action.NEXT"
  const ACTION_PREV: string := "org.fasola.fasolaminutes.action.PREV"
  const ACTION_STOP: string := "org.fasola.fasolaminutes.action.STOP"
  /** The notification's close button sends the same action string as stop. */
  const ACTION_CLOSE: string := "org.fasola.fasolaminutes.action.STOP"

  /** The extras of an enqueue or play intent that onStartCommand reads. */
  datatype Extras = Extras(leadId: Option<int>, url: Option<string>, urlList: Option<seq<string>>, playIndex: Option<int>)

  /** The column enqueueLead filters on. */
  datatype KeyColumn = LeadIdColumn | AudioUrlColumn

  /** A call of enqueueLead: the play index, the key column and the arguments. */
  datatype EnqueueRequest = EnqueueRequest(playIndex: int, column: KeyColumn, args: seq<Value>)

  function StrValues(urls: seq<string>): (vs: seq<Value>)
    ensures |vs| == |urls| && forall i :: 0 <= i < |urls| ==> vs[i] == Str(urls[i])
  {
    seq(|urls|, i requires 0 <= i < |urls| => Str(urls[i]))
  }

  /**
   * The enqueueLead call of an ACTION_PLAY_MEDIA or ACTION_ENQUEUE_MEDIA intent. Play
   * starts at EXTRA_PLAY_INDEX (default 0); enqueue passes -1. A lead id takes precedence
   * over a url, and a url over a url list; with none of them nothing is enqueued.
   */
  function MediaRequest(play: bool, e: Extras): (r: Option<EnqueueRequest>)
    ensures r.Some? <==> e.leadId.Some? || e.url.Some? || e.urlList.Some?
    ensures r.Some? ==> r.value.playIndex == if play then e.playIndex.GetOr(0) else -1
    ensures r.Some? ==> (r.value.column == LeadIdColumn <==> e.leadId.Some?)
    ensures e.leadId.Some? ==> r.value.args == [Long(e.leadId.value)]
    ensures e.leadId.None? && e.url.Some? ==> r.value.args == [Str(e.url.value)]
    ensures e.leadId.None? && e.url.None? && e.urlList.Some? ==> r.value.args == StrValues(e.urlList.value)
  {
    var index := if play then e.playIndex.GetOr(0) else -1;
    if e.leadId.Some? then Some(EnqueueRequest(index, LeadIdColumn, [Long(e.leadId.value)]))
    else if e.url.Some? then Some(EnqueueRequest(index, AudioUrlColumn, [Str(e.url.value)]))
    else if e.urlList.Some? then Some(EnqueueRequest(index, AudioUrlColumn, StrValues(e.urlList.value)))
    else None
  }

  /** The do-while loop over the query rows: one new song per row, stored under the row's key. */
  method BuildSongMap(rows: seq<SongRow>) returns (songMap: map<Option<string>, Song>)
    ensures forall k :: k in songMap <==> k in Keys(rows)
    ensures forall k :: k in songMap ==> fresh(songMap[k]) && songMap[k].Record() == rows[LastIndex(Keys(rows), k)].record
  {
    ghost var keys := Keys(rows);
    songMap := map[];
    var n := 0;
    while n < |rows|
      invariant 0 <= n <= |rows|
      invariant forall k :: k in songMap <==> k in keys[..n]
      invariant forall k :: k in songMap ==> fresh(songMap[k]) && songMap[k].Record() == rows[LastIndex(keys[..n], k)].record
    {
      var song := new Song(rows[n].record);
      assert keys[..n + 1][..n] == keys[..n];
      songMap := songMap[rows[n].key := song];
      n := n + 1;
    }
    assert keys[..n] == keys;
  }

  /** The for loop over the arguments: the song stored under each argument's key, or null. */
  method OrderSongs(args: seq<Value>, songMap: map<Option<string>, Song>) returns (songs: seq<Song?>)
    ensures |songs| == |args|
    ensures forall i :: 0 <= i < |args| ==> (songs[i] != null <==> LookupKey(args[i]) in songMap)
    ensures forall i :: 0 <= i < |args| && songs[i] != null ==> songs[i] == songMap[LookupKey(args[i])]
  {
    songs := [];
    for i := 0 to |args|
      invariant |songs| == i
      invariant forall j :: 0 <= j < i ==> songs[j] == if LookupKey(args[j]) in songMap then songMap[LookupKey(args[j])] else null
    {
      var k := LookupKey(args[i]);
      songs := songs + [if k in songMap then songMap[k] else null];
    }
  }

  class PlaybackService {
    const playlist: Playlist
    var mSong: Song?
    var mIsPrepared: bool
    var mShouldPlay: bool
    var mErrorCount: int
    var hasPlayer: bool           // mMediaPlayer != null
    var playerPlaying: bool       // mMediaPlayer.isPlaying()
    var playerSource: Option<string>
    var playerPosition: int       // decoder-reported position, in ms
    var playerDuration: int       // decoder-reported duration, in ms
    var hasAudioFocus: bool
    var mNotification: Option<NotificationView>
    var isForeground: bool
    var foregroundStarts: nat     // startForeground calls so far
    var mHasMainTask: bool
    var pendingRetries: nat       // retries posted and not yet run
    var stopSelfRequested: bool
    var broadcasts: seq<Broadcast>

    /** The session invariant. */
    ghost predicate Valid()
      reads this, playlist
    {
      && playlist.Valid()
      && 0 <= mErrorCount < ERROR_LIMIT
      && (mIsPrepared ==> hasPlayer)
      && (playerPlaying ==> mIsPrepared)
      && (mNotification.Some? <==> isForeground)
      && (isForeground ==> foregroundStarts > 0)
    }

    /** onCreate: an idle session on the shared playlist. */
    constructor (pl: Playlist)
      requires pl.Valid()
      ensures Valid() && playlist == pl
      ensures mSong == null && !mIsPrepared && !mShouldPlay && mErrorCount == 0
      ensures !hasPlayer && !playerPlaying && !hasAudioFocus
      ensures mNotification == None && !isForeground && foregroundStarts == 0 && mHasMainTask
      ensures pendingRetries == 0 && !stopSelfRequested && broadcasts == []
    {
      playlist := pl;
      mSong := null;
      mIsPrepared, mShouldPlay, mErrorCount := false, false, 0;
      hasPlayer, playerPlaying, playerSource, playerPosition, playerDuration := false, false, None, 0, 0;
      hasAudioFocus := false;
      mNotification, isForeground, foregroundStarts := None, false, 0;
      mHasMainTask := true;
      pendingRetries, stopSelfRequested, broadcasts := 0, false, [];
    }

    function IsPlaying(): (b: bool)
      reads this
      ensures b ==> mIsPrepared
    {
      mIsPrepared && playerPlaying
    }

    function IsPaused(): (b: bool)
      reads this
      ensures b <==> !mShouldPlay
    {
      !mShouldPlay
    }

    function GetCurrentPosition(): (p: int)
      reads this
      ensures !mIsPrepared ==> p == 0
      ensures mIsPrepared ==> p == playerPosition
    {
      if mIsPrepared then playerPosition else 0
    }

    function GetDuration(): (d: int)
      reads this
      ensures !mIsPrepared ==> d == 0
      ensures mIsPrepared ==> d == playerDuration
    {
      if mIsPrepared then playerDuration else 0
    }

    function CanPause(): bool {
      true
    }

    /** canSeekBackward and canSeekForward. */
    function CanSeek(): (b: bool)
      reads this
      ensures b <==> mIsPrepared
    {
      mIsPrepared
    }

    function GetBufferPercentage(): int {
      0
    }

    function GetAudioSessionId(): int {
      0
    }

    /** The notification view of the current state. */
    function View(): NotificationView
      requires playlist.Valid()
      reads this, playlist
    {
      Render(playlist.Current(), IsPlaying(), mIsPrepared, mHasMainTask)
    }

    /**
     * The notification shows the current view; before the update it was `prev`, after
     * `starts` foreground starts. Entering the foreground happens only from no notification.
     */
    ghost predicate Shows(prev: Option<NotificationView>, starts: nat)
      requires playlist.Valid()
      reads this, playlist
    {
      mNotification == Some(View()) && isForeground
      && foregroundStarts == if prev.None? then starts + 1 else starts
    }

    /** prepare() has loaded `song` into a reset decoder; `before` is the broadcast log before it. */
    ghost predicate Loading(song: Song, before: seq<Broadcast>)
      reads this
    {
      && mSong == song && !mIsPrepared && mShouldPlay
      && hasPlayer && !playerPlaying && playerSource == song.url && playerPosition == 0
      && broadcasts == before + [BroadcastLoading]
    }

    /** stop()'s teardown: no song, decoder, focus or notification, and a stop requested. */
    ghost predicate Released()
      reads this
    {
      && mSong == null && !mIsPrepared && !mShouldPlay
      && !hasPlayer && !playerPlaying && !hasAudioFocus
      && mNotification.None? && !isForeground && stopSelfRequested
    }

    /** The effect of prepare() on the fields it may change. */
    twostate predicate PrepareEffect()
      requires playlist.Valid()
      reads this, playlist
    {
      && mSong == playlist.Current()
      && (mSong != null ==> Loading(mSong, old(broadcasts)) && Shows(old(mNotification), old(foregroundStarts)))
      && (mSong == null ==>
            && mIsPrepared == old(mIsPrepared) && mShouldPlay == old(mShouldPlay)
            && hasPlayer == old(hasPlayer) && playerPlaying == old(playerPlaying)
            && playerSource == old(playerSource) && playerPosition == old(playerPosition)
            && broadcasts == old(broadcasts) && mNotification == old(mNotification)
            && isForeground == old(isForeground) && foregroundStarts == old(foregroundStarts))
    }

    /** The effect of start() on the fields it may change. */
    twostate predicate StartEffect(focusGranted: bool)
      requires old(playlist.Valid()) && playlist.Valid()
      reads this, playlist
    {
      && mShouldPlay
      && Shows(old(mNotification), old(foregroundStarts))
      && (old(mIsPrepared) ==>
            && playlist.position == old(playlist.position)
            && mSong == old(mSong) && mIsPrepared && hasPlayer == old(hasPlayer)
            && playerSource == old(playerSource) && playerPosition == old(playerPosition)
            && hasAudioFocus == (old(hasAudioFocus) || focusGranted)
            && playerPlaying == (old(playerPlaying) || focusGranted)
            && broadcasts == old(broadcasts) + if focusGranted then [BroadcastPlaying] else [])
      && (!old(mIsPrepared) ==>
            && playlist.position ==
                 (if old(playlist.Current()) == null then FirstPosition(|playlist.entries|) else old(playlist.position))
            && hasAudioFocus == old(hasAudioFocus)
            && mSong == playlist.Current()
            && (mSong != null ==> Loading(mSong, old(broadcasts)))
            && (mSong == null ==>
                  && mIsPrepared == old(mIsPrepared) && hasPlayer == old(hasPlayer)
                  && playerPlaying == old(playerPlaying) && playerSource == old(playerSource)
                  && playerPosition == old(playerPosition) && broadcasts == old(broadcasts)))
    }

    /** The effect of pause() on the fields it may change. */
    twostate predicate PauseEffect()
      requires playlist.Valid()
      reads this, playlist
    {
      && !mShouldPlay
      && (old(mIsPrepared) ==>
            !playerPlaying && broadcasts == old(broadcasts) + [BroadcastPaused]
            && Shows(old(mNotification), old(foregroundStarts)))
      && (!old(mIsPrepared) ==>
            playerPlaying == old(playerPlaying) && broadcasts == old(broadcasts)
            && mNotification == old(mNotification) && isForeground == old(isForeground)
            && foregroundStarts == old(foregroundStarts))
    }

    /** updateNotification: render the current state; the first call enters the foreground. */
    method UpdateNotification()
      requires Valid()
      modifies this`mNotification, this`isForeground, this`foregroundStarts
      ensures Valid()
      ensures Shows(old(mNotification), old(foregroundStarts))
    {
      var v := View();
      if mNotification.None? {
        // startForeground with the new notification
        isForeground := true;
        foregroundStarts := foregroundStarts + 1;
      }
      mNotification := Some(v);
    }

    /** prepare()'s work once it has a song: reset the decoder, load the song, update the notification. */
    method Load(song: Song)
      requires Valid()
      modifies this`mSong, this`mIsPrepared, this`mShouldPlay, this`hasPlayer, this`playerPlaying,
               this`playerSource, this`playerPosition, this`broadcasts,
               this`mNotification, this`isForeground, this`foregroundStarts
      ensures Valid()
      ensures Loading(song, old(broadcasts)) && Shows(old(mNotification), old(foregroundStarts))
    {
      mSong := song;
      broadcasts := broadcasts + [BroadcastLoading];
      mIsPrepared := false;
      hasPlayer := true;          // ensurePlayer
      playerPlaying := false;     // stop, reset
      playerPosition := 0;
      playerSource := song.url;   // setDataSource; a bad source is reported later through onError
      mShouldPlay := true;
      UpdateNotification();
    }

    /** Loads the playlist's current song; false (and only the song field changed) if there is none. */
    method Prepare() returns (ok: bool)
      requires Valid()
      modifies this`mSong, this`mIsPrepared, this`mShouldPlay, this`hasPlayer, this`playerPlaying,
               this`playerSource, this`playerPosition, this`broadcasts,
               this`mNotification, this`isForeground, this`foregroundStarts
      ensures Valid()
      ensures ok <==> playlist.Current() != null
      ensures PrepareEffect()
    {
      var song := playlist.GetCurrent();
      if song == null {
        mSong := null;
        return false;
      }
      Load(song);
      return true;
    }

    /** start() on a prepared decoder: it plays only if the audio focus was granted. */
    method Resume(focusGranted: bool)
      requires Valid() && mIsPrepared
      modifies this`hasAudioFocus, this`playerPlaying, this`broadcasts
      ensures Valid()
      ensures hasAudioFocus == (old(hasAudioFocus) || focusGranted)
      ensures playerPlaying == (old(playerPlaying) || focusGranted)
      ensures broadcasts == old(broadcasts) + if focusGranted then [BroadcastPlaying] else []
    {
      if focusGranted {
        hasAudioFocus := true;
        playerPlaying := true;
        broadcasts := broadcasts + [BroadcastPlaying];
      }
    }

    /** start() without a prepared decoder: fall back to the first song, then prepare. */
    method Reload()
      requires Valid()
      modifies this`mSong, this`mIsPrepared, this`mShouldPlay, this`hasPlayer, this`playerPlaying,
               this`playerSource, this`playerPosition, this`broadcasts,
               this`mNotification, this`isForeground, this`foregroundStarts, playlist`position
      ensures Valid()
      ensures playlist.position ==
                if old(playlist.Current()) == null then FirstPosition(|playlist.entries|) else old(playlist.position)
      ensures PrepareEffect()
    {
      var current := playlist.GetCurrent();
      if current == null {
        playlist.MoveToFirst();
      }
      var _ := Prepare();
    }

    method Start(focusGranted: bool)
      requires Valid()
      modifies this`mSong, this`mIsPrepared, this`mShouldPlay, this`hasPlayer, this`playerPlaying,
               this`playerSource, this`playerPosition, this`broadcasts, this`hasAudioFocus,
               this`mNotification, this`isForeground, this`foregroundStarts, playlist`position
      ensures Valid()
      ensures StartEffect(focusGranted)
    {
      mShouldPlay := true;
      if mIsPrepared {
        Resume(focusGranted);
      } else {
        Reload();
      }
      UpdateNotification();
    }

    method Pause()
      requires Valid()
      modifies this`mShouldPlay, this`playerPlaying, this`broadcasts,
               this`mNotification, this`isForeground, this`foregroundStarts
      ensures Valid()
      ensures PauseEffect()
    {
      mShouldPlay := false;
      if mIsPrepared {
        playerPlaying := false;
        UpdateNotification();
        broadcasts := broadcasts + [BroadcastPaused];
      }
    }

    /** Releases the decoder and the audio focus, drops the notification and the foreground. */
    method Stop()
      requires Valid()
      modifies this`mSong, this`mIsPrepared, this`mShouldPlay, this`hasPlayer, this`playerPlaying,
               this`hasAudioFocus, this`mNotification, this`isForeground, this`stopSelfRequested
      ensures Valid() && Released()
      ensures old(Released()) ==> unchanged(this)
    {
      mSong := null;
      hasAudioFocus := false;
      if hasPlayer {
        hasPlayer := false;
        playerPlaying := false;
      }
      mShouldPlay := false;
      mIsPrepared := false;
      mNotification := None;
      isForeground := false;
      stopSelfRequested := true;
    }

    method SeekTo(position: int)
      requires Valid()
      modifies this`playerPosition, this`mNotification, this`isForeground, this`foregroundStarts
      ensures Valid()
      ensures old(mIsPrepared) ==> playerPosition == position && Shows(old(mNotification), old(foregroundStarts))
      ensures !old(mIsPrepared) ==> unchanged(this)
    {
      if mIsPrepared {
        playerPosition := position;
        UpdateNotification();
      }
    }

    /** The decoder finished preparing (it can only call back while it exists). */
    method OnPrepared(focusGranted: bool, duration: int)
      requires Valid() && hasPlayer
      modifies mSong, this`mIsPrepared, this`mErrorCount, this`playerDuration,
               this`mSong, this`mShouldPlay, this`hasPlayer, this`playerPlaying,
               this`playerSource, this`playerPosition, this`broadcasts, this`hasAudioFocus,
               this`mNotification, this`isForeground, this`foregroundStarts, playlist`position
      ensures Valid() && mIsPrepared && mErrorCount == 0 && playerDuration == duration
      ensures old(mSong) != null ==> old(mSong).status == StatusOk
      ensures playlist.position == old(playlist.position)
      ensures unchanged(this`mSong, this`mShouldPlay, this`hasPlayer, this`playerSource, this`playerPosition)
      ensures old(mShouldPlay) ==>
                && hasAudioFocus == (old(hasAudioFocus) || focusGranted)
                && playerPlaying == (old(playerPlaying) || focusGranted)
                && broadcasts == old(broadcasts) + [BroadcastPrepared] + (if focusGranted then [BroadcastPlaying] else [])
                && Shows(old(mNotification), old(foregroundStarts))
      ensures !old(mShouldPlay) ==>
                && broadcasts == old(broadcasts) + [BroadcastPrepared]
                && unchanged(this`hasAudioFocus, this`playerPlaying, this`mNotification, this`isForeground, this`foregroundStarts)
    {
      mIsPrepared := true;
      playerDuration := duration;
      mErrorCount := 0;
      if mSong != null {
        mSong.status := StatusOk;
      }
      broadcasts := broadcasts + [BroadcastPrepared];
      if mShouldPlay {
        Start(focusGranted);
      }
    }

    /** The decoder reached the end of the song: play the next one, or stop at the end. */
    method OnCompletion()
      requires Valid() && hasPlayer
      modifies this`mSong, this`mIsPrepared, this`mShouldPlay, this`hasPlayer, this`playerPlaying,
               this`playerSource, this`playerPosition, this`broadcasts, this`hasAudioFocus,
               this`mNotification, this`isForeground, this`foregroundStarts, this`stopSelfRequested,
               playlist`position
      ensures Valid()
      ensures playlist.position == if old(playlist.position).Some? && old(playlist.position).value + 1 < |playlist.entries|
                                   then Some(old(playlist.position).value + 1) else None
      ensures playlist.Current() != null ==>
                && Loading(playlist.Current(), old(broadcasts) + [BroadcastCompleted])
                && Shows(old(mNotification), old(foregroundStarts))
                && unchanged(this`hasAudioFocus, this`stopSelfRequested)
      ensures playlist.Current() == null ==>
                && Released() && broadcasts == old(broadcasts) + [BroadcastCompleted]
                && unchanged(this`playerSource, this`playerPosition, this`foregroundStarts)
    {
      mIsPrepared := false;
      playerPlaying := false;
      broadcasts := broadcasts + [BroadcastCompleted];
      var next := playlist.MoveToNext();
      if next != null {
        var _ := Prepare();
      } else {
        Stop();
      }
    }

    /**
     * The decoder failed. Below the limit a retry is posted and the error is reported
     * as handled; at the limit the counter is reset and false is returned, which lets
     * the decoder go on to completion.
     */
    method OnError() returns (handled: bool)
      requires Valid() && hasPlayer
      modifies mSong, this`mIsPrepared, this`playerPlaying, this`mErrorCount, this`broadcasts, this`pendingRetries
      ensures Valid() && !mIsPrepared && !playerPlaying
      ensures old(mSong) != null ==> old(mSong).status == StatusError
      ensures (mErrorCount, !handled) == CountError(old(mErrorCount))
      ensures broadcasts == old(broadcasts) + [BroadcastError]
      ensures pendingRetries == old(pendingRetries) + if handled then 1 else 0
    {
      if mSong != null {
        mSong.status := StatusError;
      }
      mIsPrepared := false;
      playerPlaying := false;
      mErrorCount := mErrorCount + 1;
      broadcasts := broadcasts + [BroadcastError];
      if mErrorCount >= ERROR_LIMIT {
        mErrorCount := 0;
        return false;
      }
      pendingRetries := pendingRetries + 1;
      return true;
    }

    /** A posted retry runs: it prepares again only if the decoder still exists. */
    method RunRetry()
      requires Valid() && pendingRetries > 0
      modifies this`mSong, this`mIsPrepared, this`mShouldPlay, this`hasPlayer, this`playerPlaying,
               this`playerSource, this`playerPosition, this`broadcasts,
               this`mNotification, this`isForeground, this`foregroundStarts, this`pendingRetries
      ensures Valid() && pendingRetries == old(pendingRetries) - 1
      ensures old(hasPlayer) ==> PrepareEffect()
      ensures !old(hasPlayer) ==> unchanged(this`mSong, this`mIsPrepared, this`mShouldPlay, this`hasPlayer,
                this`playerPlaying, this`playerSource, this`playerPosition, this`broadcasts,
                this`mNotification, this`isForeground, this`foregroundStarts)
    {
      pendingRetries := pendingRetries - 1;
      if hasPlayer {
        var _ := Prepare();
      }
    }

    method OnAudioFocusChange(focusChange: int, focusGranted: bool)
      requires Valid()
      modifies this`mSong, this`mIsPrepared, this`mShouldPlay, this`hasPlayer, this`playerPlaying,
               this`playerSource, this`playerPosition, this`broadcasts, this`hasAudioFocus,
               this`mNotification, this`isForeground, this`foregroundStarts, this`stopSelfRequested,
               playlist`position
      ensures Valid()
      ensures focusChange == AUDIOFOCUS_LOSS_TRANSIENT ==>
                && PauseEffect() && playlist.position == old(playlist.position)
                && unchanged(this`mSong, this`mIsPrepared, this`hasPlayer, this`playerSource,
                             this`playerPosition, this`hasAudioFocus, this`stopSelfRequested)
      ensures focusChange == AUDIOFOCUS_GAIN ==>
                && StartEffect(focusGranted) && unchanged(this`stopSelfRequested)
      ensures focusChange == AUDIOFOCUS_LOSS ==>
                && Released() && playlist.position == old(playlist.position)
                && unchanged(this`playerSource, this`playerPosition, this`broadcasts, this`foregroundStarts)
      ensures focusChange !in {AUDIOFOCUS_GAIN, AUDIOFOCUS_LOSS, AUDIOFOCUS_LOSS_TRANSIENT} ==>
                unchanged(this) && playlist.position == old(playlist.position)
    {
      if focusChange == AUDIOFOCUS_LOSS_TRANSIENT {
        Pause();
      } else if focusChange == AUDIOFOCUS_GAIN {
        Start(focusGranted);
      } else if focusChange == AUDIOFOCUS_LOSS {
        Stop();
      }
    }

    /**
     * The application's main task starts or stops. Closing the app while paused
     * stops the session; otherwise a change switches the notification's back stack.
     */
    method SetMainTaskRunning(isRunning: bool)
      requires Valid()
      modifies this`mSong, this`mIsPrepared, this`mShouldPlay, this`hasPlayer, this`playerPlaying,
               this`hasAudioFocus, this`mNotification, this`isForeground, this`foregroundStarts,
               this`stopSelfRequested, this`mHasMainTask
      ensures Valid()
      ensures !isRunning && !old(mShouldPlay) ==>
                Released() && unchanged(this`foregroundStarts, this`mHasMainTask)
      ensures (isRunning || old(mShouldPlay)) && isRunning != old(mHasMainTask) ==>
                && mHasMainTask == isRunning && Shows(old(mNotification), old(foregroundStarts))
                && unchanged(this`mSong, this`mIsPrepared, this`mShouldPlay, this`hasPlayer,
                             this`playerPlaying, this`hasAudioFocus, this`stopSelfRequested)
      ensures (isRunning || old(mShouldPlay)) && isRunning == old(mHasMainTask) ==> unchanged(this)
    {
      if !isRunning && IsPaused() {
        Stop();
      } else if isRunning != mHasMainTask {
        mHasMainTask := isRunning;
        UpdateNotification();
      }
    }

    /** The playlist observer: pause when the loaded song has left the playlist. */
    method OnPlaylistChanged()
      requires Valid()
      modifies this`mShouldPlay, this`playerPlaying, this`broadcasts,
               this`mNotification, this`isForeground, this`foregroundStarts
      ensures Valid()
      ensures old(mSong) != null && !playlist.Contains(old(mSong)) ==> PauseEffect()
      ensures old(mSong) == null || playlist.Contains(old(mSong)) ==> unchanged(this)
    {
      if mSong != null && !playlist.Contains(mSong) {
        Pause();
      }
    }

    /** ACTION_HEADSET_PLUG: state 0 (unplugged) pauses. */
    method OnHeadsetPlug(state: int)
      requires Valid()
      modifies this`mShouldPlay, this`playerPlaying, this`broadcasts,
               this`mNotification, this`isForeground, this`foregroundStarts
      ensures Valid()
      ensures state == 0 ==> PauseEffect()
      ensures state != 0 ==> unchanged(this)
    {
      if state == 0 {
        Pause();
      }
    }

    /**
     * enqueueLead's load-finished callback, given the query's rows and the arguments.
     * Nothing happens for an empty result. Otherwise each row becomes a song stored
     * under its key (later rows replace earlier ones), and the list holds, for each
     * argument in order, the song stored under its key or null. With a play index the
     * list replaces the playlist and playback is prepared from that index; otherwise it
     * is appended.
     */
    method OnEnqueueLoadFinished(rows: seq<SongRow>, args: seq<Value>, playIndex: int)
      returns (songs: seq<Song?>, r: Result<()>)
      requires Valid()
      modifies playlist, this`mSong, this`mIsPrepared, this`mShouldPlay, this`hasPlayer, this`playerPlaying,
               this`playerSource, this`playerPosition, this`broadcasts,
               this`mNotification, this`isForeground, this`foregroundStarts
      ensures Valid()
      ensures |rows| == 0 ==> songs == [] && r == Return(()) && unchanged(this, playlist)
      ensures |rows| > 0 ==>
                && |songs| == |args|
                && forall i :: 0 <= i < |args| ==>
                     var r := OrderRows(Keys(rows), args)[i];
                     && (songs[i] == null <==> r == -1)
                     && (songs[i] != null ==> fresh(songs[i]) && songs[i].Record() == rows[r].record)
      ensures |rows| > 0 ==> forall i, j :: 0 <= i < |args| && 0 <= j < |args| && LookupKey(args[i]) == LookupKey(args[j]) ==>
                songs[i] == songs[j]
      ensures |rows| > 0 && -1 < playIndex < |songs| ==>
                && r == Return(()) && playlist.entries == songs && playlist.position == Some(playIndex)
                && PrepareEffect()
      ensures |rows| > 0 && playIndex >= |songs| ==>
                && r == Throw(IllegalArgument) && playlist.entries == songs && playlist.position == None
                && unchanged(this)
      ensures |rows| > 0 && playIndex <= -1 ==>
                && r == Return(()) && playlist.entries == old(playlist.entries) + songs
                && playlist.position == old(playlist.position) && unchanged(this)
    {
      songs, r := [], Return(());
      if |rows| == 0 {
        return;
      }
      var songMap := BuildSongMap(rows);
      songs := OrderSongs(args, songMap);
      if playIndex > -1 {
        playlist.ReplaceWith(songs);
        var ok := playlist.MoveToPosition(playIndex);
        if !ok {
          return songs, Throw(IllegalArgument);
        }
        var _ := Prepare();
      } else {
        playlist.AddAll(songs);
      }
    }

    /** onStartCommand's play, pause and play/pause actions. */
    method OnTransportAction(a: string, focusGranted: bool)
      requires Valid() && a in {ACTION_PLAY, ACTION_PAUSE, ACTION_PLAY_PAUSE}
      modifies this`mSong, this`mIsPrepared, this`mShouldPlay, this`hasPlayer, this`playerPlaying,
               this`playerSource, this`playerPosition, this`broadcasts, this`hasAudioFocus,
               this`mNotification, this`isForeground, this`foregroundStarts, this`stopSelfRequested,
               playlist`position
      ensures Valid()
      ensures a == ACTION_PLAY || (a == ACTION_PLAY_PAUSE && !old(IsPlaying())) ==>
                StartEffect(focusGranted) && unchanged(this`stopSelfRequested)
      ensures a == ACTION_PAUSE || (a == ACTION_PLAY_PAUSE && old(IsPlaying())) ==>
                && PauseEffect() && playlist.position == old(playlist.position)
                && unchanged(this`mSong, this`mIsPrepared, this`hasPlayer, this`playerSource,
                             this`playerPosition, this`hasAudioFocus, this`stopSelfRequested)
    {
      if a == ACTION_PLAY {
        Start(focusGranted);
      } else if a == ACTION_PAUSE {
        Pause();
      } else if IsPlaying() {
        Pause();
      } else {
        Start(focusGranted);
      }
    }

    /** onStartCommand's next, previous and close actions. */
    method OnNavigationAction(a: string)
      requires Valid() && a in {ACTION_NEXT, ACTION_PREV, ACTION_CLOSE}
      modifies this`mSong, this`mIsPrepared, this`mShouldPlay, this`hasPlayer, this`playerPlaying,
               this`playerSource, this`playerPosition, this`broadcasts, this`hasAudioFocus,
               this`mNotification, this`isForeground, this`foregroundStarts, this`stopSelfRequested,
               playlist`position
      ensures Valid()
      ensures a == ACTION_NEXT ==>
                && playlist.position == (if old(playlist.position).Some? && old(playlist.position).value + 1 < |playlist.entries|
                                        then Some(old(playlist.position).value + 1) else None)
                && PrepareEffect() && unchanged(this`hasAudioFocus, this`stopSelfRequested)
      ensures a == ACTION_PREV ==>
                && playlist.position == (if old(playlist.position).Some? && old(playlist.position).value > 0
                                        then Some(old(playlist.position).value - 1) else None)
                && PrepareEffect() && unchanged(this`hasAudioFocus, this`stopSelfRequested)
      ensures a == ACTION_CLOSE ==>
                && Released() && playlist.position == old(playlist.position)
                && unchanged(this`playerSource, this`playerPosition, this`broadcasts, this`foregroundStarts)
    {
      if a == ACTION_NEXT {
        var _ := playlist.MoveToNext();
        var _ := Prepare();
      } else if a == ACTION_PREV {
        var _ := playlist.MoveToPrev();
        var _ := Prepare();
      } else {
        Stop();
      }
    }

    /**
     * onStartCommand for an intent with this action (None for a null intent or action).
     * Enqueue and play intents only start a query, returned as the enqueueLead request;
     * the effect of the loaded rows is OnEnqueueLoadFinished.
     */
    method OnStartCommand(action: Option<string>, extras: Extras, focusGranted: bool) returns (request: Option<EnqueueRequest>)
      requires Valid()
      modifies this`mSong, this`mIsPrepared, this`mShouldPlay, this`hasPlayer, this`playerPlaying,
               this`playerSource, this`playerPosition, this`broadcasts, this`hasAudioFocus,
               this`mNotification, this`isForeground, this`foregroundStarts, this`stopSelfRequested,
               playlist`position
      ensures Valid()
      ensures request ==
        if action == Some(ACTION_PLAY_MEDIA) || action == Some(ACTION_ENQUEUE_MEDIA)
        then MediaRequest(action == Some(ACTION_PLAY_MEDIA), extras) else None
      ensures action == Some(ACTION_PLAY) || (action == Some(ACTION_PLAY_PAUSE) && !old(IsPlaying())) ==>
                StartEffect(focusGranted) && unchanged(this`stopSelfRequested)
      ensures action == Some(ACTION_PAUSE) || (action == Some(ACTION_PLAY_PAUSE) && old(IsPlaying())) ==>
                && PauseEffect() && playlist.position == old(playlist.position)
                && unchanged(this`mSong, this`mIsPrepared, this`hasPlayer, this`playerSource,
                             this`playerPosition, this`hasAudioFocus, this`stopSelfRequested)
      ensures action == Some(ACTION_NEXT) ==>
                && playlist.position == (if old(playlist.position).Some? && old(playlist.position).value + 1 < |playlist.entries|
                                        then Some(old(playlist.position).value + 1) else None)
                && PrepareEffect() && unchanged(this`hasAudioFocus, this`stopSelfRequested)
      ensures action == Some(ACTION_PREV) ==>
                && playlist.position == (if old(playlist.position).Some? && old(playlist.position).value > 0
                                        then Some(old(playlist.position).value - 1) else None)
                && PrepareEffect() && unchanged(this`hasAudioFocus, this`stopSelfRequested)
      ensures action == Some(ACTION_CLOSE) ==>
                && Released() && playlist.position == old(playlist.position)
                && unchanged(this`playerSource, this`playerPosition, this`broadcasts, this`foregroundStarts)
      ensures action.None? || action.value !in {ACTION_PLAY, ACTION_PAUSE, ACTION_PLAY_PAUSE, ACTION_NEXT, ACTION_PREV, ACTION_CLOSE} ==>
                unchanged(this) && playlist.position == old(playlist.position)
    {
      request := None;
      if action.None? {
        return;
      }
      var a := action.value;
      if a == ACTION_PLAY_MEDIA || a == ACTION_ENQUEUE_MEDIA {
        request := MediaRequest(a == ACTION_PLAY_MEDIA, extras);
      } else if a in {ACTION_PLAY, ACTION_PAUSE, ACTION_PLAY_PAUSE} {
        OnTransportAction(a, focusGranted);
      } else if a in {ACTION_NEXT, ACTION_PREV, ACTION_CLOSE} {
        OnNavigationAction(a);
      }
    }
  }
}
