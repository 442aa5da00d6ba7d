# FaSoLa Minutes: playback session, list fragment, letter indexer and minutes update

This project models four parts of the FaSoLa Minutes application and proves properties of
them in Dafny.

- **PlaybackService** (module `Playback`, file `playback_service.dfy`) is the app's one
  playback session. It owns the media decoder, the audio focus, the foreground
  notification and the error-retry policy, and it works on the shared playlist. The model
  is a class. Each entry point of the service is a method: prepare, start, pause, stop,
  seek, the three decoder callbacks, the audio-focus listener, the main-task switch, the
  playlist observer, the headset receiver, the intent dispatcher and the enqueue
  callback. Each method states its new state field by field. The effects that several
  entry points share are the two-state predicates `PrepareEffect`, `StartEffect` and
  `PauseEffect`, and the predicate `Released`. The session invariant `Valid` is kept by
  every method.
- **PlaybackService.Control** (module `PlaybackControl`) is the media-controller facade
  over the session singleton. A null session means the service is not running.
- **CursorListFragment** (module `ListFragments`) is the list screen over a query result.
  The model covers the display columns (`getFrom`), their view ids (`getTo`), the "play
  songs" request, the highlight search, the indexer setters, and the part of
  `onLoadFinished` that applies the deferred indexer and hands the adapter its cursor.
- **LetterIndexer** (module `LetterIndexers`) is an alphabet indexer that follows the sort
  direction of the data. It reverses its alphabet and its section array in place when the
  direction flips.
- **minutes_update.py** (module `MinutesUpdate`) is the database-update script. The model
  works on its rows given as sequences. It covers:
  - the composer and poet lines (`namelistjoin`, `makenames` and its `namejoin`);
  - the last-name rule;
  - the sequential lead ids;
  - the per-year song statistics with their competition ranks.

Supporting modules:

- `Wrappers` holds `Option`.
- `Java` holds Java's exceptions as a `Result` type, and `Integer.parseInt` (over ASCII
  digits), `Long.toString` and `String.compareTo` with their sign, range and null cases.
- `Cursors` is an Android `Cursor` over a table of nullable strings.
- `Playlists` holds the playlist and its songs. Playlist.java is not part of this model.
  Only the operations the session calls are included, and they follow the application's
  design: an ordered list with an optional current position and no wrap-around.

Collaborators that cannot be seen are modelled as follows:

- The decoder is a flag plus the few facts the session reads from it: playing, data
  source, position and duration.
- The audio-focus answer is a `focusGranted` parameter.
- The notification is the view it renders.
- Local broadcasts are appended to a log.
- A delayed retry is a counter of posted retries.
- Database queries are their result rows.

## Model

| member | source | states |
|---|---|---|
| Playback.Render | app/src/main/java/org/fasola/fasolaminutes/PlaybackService.java:466-477 | the notification shows the pause icon exactly while playing; it shows the play/pause button when prepared and the loading spinner otherwise, never both; its texts are empty without a current song |
| Playback.CountError | app/src/main/java/org/fasola/fasolaminutes/PlaybackService.java:562-567 | one more error stays below ERROR_LIMIT (100); the session gives up exactly when the count reaches the limit, and the count is then reset; otherwise the count is one higher |
| Playback.CountAfter | app/src/main/java/org/fasola/fasolaminutes/PlaybackService.java:562-567 | after any number of consecutive errors the counter stays within 0..ERROR_LIMIT-1 |
| Playback.ErrorBudget | app/src/main/java/org/fasola/fasolaminutes/PlaybackService.java:534-567 | from a counter reset by a successful prepare, k errors leave count k; only the 100th consecutive error gives up |
| Playback.GiveUpResetsCounter | app/src/main/java/org/fasola/fasolaminutes/PlaybackService.java:564-566 | after ERROR_LIMIT consecutive errors the counter is back at 0 |
| Playback.LastIndex | app/src/main/java/org/fasola/fasolaminutes/PlaybackService.java:370-373 | the index of the row whose song the HashMap keeps under a key: the last row with that key, or -1 exactly when no row has it |
| Playback.LookupKeyAsWritten | app/src/main/java/org/fasola/fasolaminutes/PlaybackService.java:377-378 | as written, HashMap.get with a boxed Long matches no String key; a String argument is looked up as itself |
| Playback.OrderAsWritten | app/src/main/java/org/fasola/fasolaminutes/PlaybackService.java:376-378 | as written, every lead-id argument yields a null song |
| Playback.OrderRows | app/src/main/java/org/fasola/fasolaminutes/PlaybackService.java:376-378 | with the corrected lookup, each argument names the last row whose key is its string form, or -1 exactly when no row has that key |
| Playback.LeadIdEnqueueAsWrittenMisses | app/src/main/java/org/fasola/fasolaminutes/PlaybackService.java:131-132 | an enqueue by lead id finds nothing as written, even when the query returned the lead's row; the corrected lookup finds that row |
| Playback.UrlOrderUnchanged | app/src/main/java/org/fasola/fasolaminutes/PlaybackService.java:133-136 | for url arguments the as-written and corrected lookups agree |
| Playback.LaterRowWins | app/src/main/java/org/fasola/fasolaminutes/PlaybackService.java:371-373 | of two rows with the same key, the later one's song is kept |
| Playback.MediaRequest | app/src/main/java/org/fasola/fasolaminutes/PlaybackService.java:127-137 | an enqueue or play intent makes a request exactly when it has a lead id, a url or a url list, in that order of precedence; play uses EXTRA_PLAY_INDEX (default 0) and enqueue uses -1; the arguments are the extra's values |
| Playback.BuildSongMap | app/src/main/java/org/fasola/fasolaminutes/PlaybackService.java:367-373 | the map's keys are exactly the rows' keys; each key holds a new song built from the last row with that key |
| Playback.OrderSongs | app/src/main/java/org/fasola/fasolaminutes/PlaybackService.java:376-378 | with the corrected lookup (the argument's string form, see Findings): one song per argument, in argument order: the map's song under the argument's key, or null exactly when the key is absent |
| Playback.PlaybackService.constructor | app/src/main/java/org/fasola/fasolaminutes/PlaybackService.java:112-119 | a new session is idle: no song, no decoder, no focus, no notification, error count 0, main task running |
| Playback.PlaybackService.IsPlaying | app/src/main/java/org/fasola/fasolaminutes/PlaybackService.java:278-281 | playing implies prepared |
| Playback.PlaybackService.IsPaused | app/src/main/java/org/fasola/fasolaminutes/PlaybackService.java:283-285 | paused exactly when the session should not play |
| Playback.PlaybackService.GetCurrentPosition | app/src/main/java/org/fasola/fasolaminutes/PlaybackService.java:265-268 | 0 unless prepared, else the decoder's position |
| Playback.PlaybackService.GetDuration | app/src/main/java/org/fasola/fasolaminutes/PlaybackService.java:260-263 | 0 unless prepared, else the decoder's duration |
| Playback.PlaybackService.CanSeek | app/src/main/java/org/fasola/fasolaminutes/PlaybackService.java:297-305 | both seek directions are allowed exactly when prepared |
| Playback.PlaybackService.UpdateNotification | app/src/main/java/org/fasola/fasolaminutes/PlaybackService.java:466-500 | the notification shows the current view; the session enters the foreground (one startForeground) only when there was no notification |
| Playback.PlaybackService.Load | app/src/main/java/org/fasola/fasolaminutes/PlaybackService.java:328-342 | loading a song: LOADING is broadcast, the decoder is reset onto the song's url, the session is unprepared and should play, and the notification is updated |
| Playback.PlaybackService.Prepare | app/src/main/java/org/fasola/fasolaminutes/PlaybackService.java:322-343 | returns true exactly when the playlist has a current song; that song is loaded, and without one only the song field changes (to null) |
| Playback.PlaybackService.Resume | app/src/main/java/org/fasola/fasolaminutes/PlaybackService.java:215-223 | a prepared start plays and broadcasts PLAYING exactly when focus is granted |
| Playback.PlaybackService.Reload | app/src/main/java/org/fasola/fasolaminutes/PlaybackService.java:224-228 | an unprepared start moves to the first song when there is no current one, then prepares |
| Playback.PlaybackService.Start | app/src/main/java/org/fasola/fasolaminutes/PlaybackService.java:212-230 | the session should play, and the notification is updated; when prepared, it plays if focus is granted and the playlist is untouched; otherwise it prepares, from the first song if there was no current one |
| Playback.PlaybackService.Pause | app/src/main/java/org/fasola/fasolaminutes/PlaybackService.java:232-240 | the session should not play; when prepared, the decoder stops playing, the notification is updated and PAUSED is broadcast; otherwise nothing else changes |
| Playback.PlaybackService.Stop | app/src/main/java/org/fasola/fasolaminutes/PlaybackService.java:246-258 | no song, decoder, focus or notification remains, the session leaves the foreground and asks to stop; stopping a stopped session changes nothing |
| Playback.PlaybackService.SeekTo | app/src/main/java/org/fasola/fasolaminutes/PlaybackService.java:270-276 | a prepared session moves to the position and updates the notification; an unprepared one is unchanged |
| Playback.PlaybackService.OnPrepared | app/src/main/java/org/fasola/fasolaminutes/PlaybackService.java:530-540 | the session becomes prepared with error count 0 and its song marked OK; PREPARED is broadcast; it starts exactly when it should play, otherwise focus and notification are untouched |
| Playback.PlaybackService.OnCompletion | app/src/main/java/org/fasola/fasolaminutes/PlaybackService.java:542-554 | COMPLETED is broadcast and the playlist advances; the next song is loaded, or at the end of the playlist the session is released |
| Playback.PlaybackService.OnError | app/src/main/java/org/fasola/fasolaminutes/PlaybackService.java:556-578 | the song is marked ERROR, the session is unprepared, ERROR is broadcast; below the limit a retry is posted and the error is handled; at the limit the counter resets and false is returned |
| Playback.PlaybackService.RunRetry | app/src/main/java/org/fasola/fasolaminutes/PlaybackService.java:570-576 | a posted retry prepares again only while the decoder exists; otherwise nothing but the retry count changes |
| Playback.PlaybackService.OnAudioFocusChange | app/src/main/java/org/fasola/fasolaminutes/PlaybackService.java:165-176 | a transient loss pauses, a gain starts, a loss stops; any other code changes nothing |
| Playback.PlaybackService.SetMainTaskRunning | app/src/main/java/org/fasola/fasolaminutes/PlaybackService.java:447-457 | closing the app while paused stops the session; otherwise a change of the flag switches the notification's back stack; no change leaves the session alone |
| Playback.PlaybackService.OnPlaylistChanged | app/src/main/java/org/fasola/fasolaminutes/PlaybackService.java:511-515 | the session pauses exactly when its song has left the playlist |
| Playback.PlaybackService.OnHeadsetPlug | app/src/main/java/org/fasola/fasolaminutes/PlaybackService.java:518-524 | unplugging (state 0) pauses; any other state changes nothing |
| Playback.PlaybackService.OnEnqueueLoadFinished | app/src/main/java/org/fasola/fasolaminutes/PlaybackService.java:361-390 | with the corrected lookup (see Findings): an empty result changes nothing; otherwise one song per argument, each a new song built from the last row with its key, or null; equal keys give the same song; with a play index the playlist is replaced and playback is prepared from that index, otherwise the songs are appended |
| Playback.PlaybackService.OnTransportAction | app/src/main/java/org/fasola/fasolaminutes/PlaybackService.java:139-150 | PLAY starts, PAUSE pauses, PLAY_PAUSE pauses exactly when playing and starts otherwise |
| Playback.PlaybackService.OnNavigationAction | app/src/main/java/org/fasola/fasolaminutes/PlaybackService.java:151-161 | NEXT and PREV move the playlist one step and prepare; CLOSE (the same string as STOP) stops |
| Playback.PlaybackService.OnStartCommand | app/src/main/java/org/fasola/fasolaminutes/PlaybackService.java:121-163 | enqueue and play intents only issue their enqueue request; each control action has its effect; a null or unknown action changes nothing |
| PlaybackControl.CanPause | app/src/main/java/org/fasola/fasolaminutes/PlaybackService.java:633-636 | pausing is possible exactly while the service runs |
| PlaybackControl.GetDuration | app/src/main/java/org/fasola/fasolaminutes/PlaybackService.java:667-670 | 0 when not running, else the session's duration |
| PlaybackControl.GetCurrentPosition | app/src/main/java/org/fasola/fasolaminutes/PlaybackService.java:672-675 | 0 when not running, else the session's position |
| PlaybackControl.IsPlaying | app/src/main/java/org/fasola/fasolaminutes/PlaybackService.java:682-685 | playing exactly when running and the session plays |
| PlaybackControl.GetBufferPercentage | app/src/main/java/org/fasola/fasolaminutes/PlaybackService.java:687-690 | always 0 |
| PlaybackControl.CanSeek | app/src/main/java/org/fasola/fasolaminutes/PlaybackService.java:692-700 | seeking is possible exactly when running and prepared |
| PlaybackControl.GetAudioSessionId | app/src/main/java/org/fasola/fasolaminutes/PlaybackService.java:702-705 | always 0 |
| PlaybackControl.PrevStepAt | app/src/main/java/org/fasola/fasolaminutes/PlaybackService.java:623 | "previous" restarts the song exactly above RESTART_THRESHOLD (15000 ms) |
| PlaybackControl.RestartOnlyWhenPrepared | app/src/main/java/org/fasola/fasolaminutes/PlaybackService.java:623-624 | a restart happens only on a running, prepared session past the threshold |
| PlaybackControl.SeekTo | app/src/main/java/org/fasola/fasolaminutes/PlaybackService.java:677-680 | seeks a running, prepared session and updates its notification; song, decoder, focus, broadcasts, error counter, retries and stop request stay; otherwise nothing changes |
| PlaybackControl.Pause | app/src/main/java/org/fasola/fasolaminutes/PlaybackService.java:662-665 | pauses a running session; its song, decoder source and position, focus, error counter, retries and stop request stay |
| PlaybackControl.Next | app/src/main/java/org/fasola/fasolaminutes/PlaybackService.java:607-614 | the playlist advances, and a running session prepares; focus, error counter, duration, retries and stop request stay |
| PlaybackControl.Prev | app/src/main/java/org/fasola/fasolaminutes/PlaybackService.java:620-631 | past the threshold, the song restarts at 0 and the playlist, song, decoder and broadcasts are untouched; otherwise the playlist steps back and a running session prepares; focus, error counter, duration, retries and stop request always stay |
| PlaybackControl.Start | app/src/main/java/org/fasola/fasolaminutes/PlaybackService.java:638-648 | a running session starts, with its error counter, duration, retries and stop request kept; otherwise a service start with ACTION_PLAY is requested |
| PlaybackControl.PrepareAndStart | app/src/main/java/org/fasola/fasolaminutes/PlaybackService.java:655-660 | on a running session at pos: a song there is loaded with LOADING broadcast twice, the decoder reset and not playing, the focus kept; a null entry on a prepared session clears the song but resumes the previous decoder, taking the focus and broadcasting PLAYING exactly when the focus is granted; a null entry on an unprepared session falls back to the first entry, and when that is null too the decoder is left as it was; the notification is shown either way |
| PlaybackControl.StartAt | app/src/main/java/org/fasola/fasolaminutes/PlaybackService.java:655-660 | a position outside the playlist is an error and changes nothing; otherwise the playlist moves there, and a running session goes through PrepareAndStart's three cases (a song loaded twice; a null entry resuming a prepared decoder on the previous song; a null entry sending an unprepared session to the first entry), with the notification shown and the error counter, duration, retries and stop request kept |
| ListFragments.FilterDisplayed | app/src/main/java/org/fasola/fasolaminutes/CursorListFragment.java:422-428 | the filtered columns are no more than the given ones |
| ListFragments.FilterDisplayedExact | app/src/main/java/org/fasola/fasolaminutes/CursorListFragment.java:424-427 | a name survives the filter exactly when it is given and is neither the index column nor "__"-prefixed |
| ListFragments.DisplayColumnsExact | app/src/main/java/org/fasola/fasolaminutes/CursorListFragment.java:418-430 | a name is displayed exactly when some column after the first carries it and passes the test |
| ListFragments.AudioColumnHidden | app/src/main/java/org/fasola/fasolaminutes/CursorListFragment.java:40 | the audio column is never displayed |
| ListFragments.GetFrom | app/src/main/java/org/fasola/fasolaminutes/CursorListFragment.java:418-430 | the loop returns exactly the display columns, in order |
| ListFragments.TextView | app/src/main/java/org/fasola/fasolaminutes/CursorListFragment.java:436-448 | display columns 0, 1 and 2 have a (set) text view, and no later one does |
| ListFragments.GetTo | app/src/main/java/org/fasola/fasolaminutes/CursorListFragment.java:433-452 | succeeds exactly for at most three items, each mapped to its text view; more items fail the assertion |
| ListFragments.NonNull | app/src/main/java/org/fasola/fasolaminutes/CursorListFragment.java:340-346 | the collected urls are no more than the rows |
| ListFragments.NonNullMembers | app/src/main/java/org/fasola/fasolaminutes/CursorListFragment.java:341-342 | the urls collected are exactly the non-null ones of the column |
| ListFragments.NonNullPrefix | app/src/main/java/org/fasola/fasolaminutes/CursorListFragment.java:343-344 | a row with a url appears in the list at the count of urls before it |
| ListFragments.PlayIndexInRange | app/src/main/java/org/fasola/fasolaminutes/CursorListFragment.java:339-346 | the play index always names a url of the list, and it names the clicked row's url when that row has one |
| ListFragments.PlayRequestEnqueues | app/src/main/java/org/fasola/fasolaminutes/CursorListFragment.java:348-352 | the session turns the request into an enqueue of exactly those urls, played from that index |
| ListFragments.PlaySongs | app/src/main/java/org/fasola/fasolaminutes/CursorListFragment.java:325-352 | nothing for an empty result or a first row without url; a missing audio column throws; otherwise every non-null url in row order and the clicked row's index among them |
| ListFragments.FirstMatch | app/src/main/java/org/fasola/fasolaminutes/CursorListFragment.java:251-257 | the first row whose value equals the target, with non-null mismatches before it; a null met first throws; -1 when no row matches |
| ListFragments.FirstMatchFinds | app/src/main/java/org/fasola/fasolaminutes/CursorListFragment.java:251-257 | a match after only non-null mismatches is what the search returns |
| ListFragments.HighlightByLongValue | app/src/main/java/org/fasola/fasolaminutes/CursorListFragment.java:249-254 | a Long value finds the row holding its decimal string |
| ListFragments.SetHighlight | app/src/main/java/org/fasola/fasolaminutes/CursorListFragment.java:246-258 | -1 for a null or empty cursor; a null value or a missing column throws; otherwise the first matching row, where the cursor is left |
| ListFragments.AppliedIndexer | app/src/main/java/org/fasola/fasolaminutes/CursorListFragment.java:380-386 | a deferred range or string type builds its indexer over the loaded result; with none, the deferred indexer (if any) is applied |
| ListFragments.SuppliedIndexerSticks | app/src/main/java/org/fasola/fasolaminutes/CursorListFragment.java:208-212 | an indexer given to setIndexer is applied by the next load, and later loads never replace it |
| ListFragments.NoIndexerKeeps | app/src/main/java/org/fasola/fasolaminutes/CursorListFragment.java:385-388 | with nothing deferred, loads leave the adapter's indexer alone |
| ListFragments.DeferredTypeFollowsLastLoad | app/src/main/java/org/fasola/fasolaminutes/CursorListFragment.java:380-383 | with a deferred type, the adapter's indexer is always built over the latest result |
| ListFragments.CursorListFragment.constructor | app/src/main/java/org/fasola/fasolaminutes/CursorListFragment.java:43-45 | a new fragment has no deferred type, no deferred indexer, and an adapter without indexer or cursor |
| ListFragments.CursorListFragment.SetIndexer | app/src/main/java/org/fasola/fasolaminutes/CursorListFragment.java:208-212 | the indexer is kept for the next load, and any deferred type is dropped |
| ListFragments.CursorListFragment.SetKnownRangeIndexer | app/src/main/java/org/fasola/fasolaminutes/CursorListFragment.java:228-230 | a range indexer with the given bounds is kept for the next load |
| ListFragments.CursorListFragment.SetRangeIndexer | app/src/main/java/org/fasola/fasolaminutes/CursorListFragment.java:233-235 | the next loads build a range indexer |
| ListFragments.CursorListFragment.SetStringIndexer | app/src/main/java/org/fasola/fasolaminutes/CursorListFragment.java:238-240 | the next loads build a string indexer |
| ListFragments.CursorListFragment.OnLoadFinished | app/src/main/java/org/fasola/fasolaminutes/CursorListFragment.java:377-396 | the deferred indexer is applied and cleared; no columns give no cursor; otherwise the cursor with its display columns and their views, or an assertion failure for more than three display columns, with the old cursor kept |
| LetterIndexers.Reverse | app/src/main/java/org/fasola/fasolaminutes/LetterIndexer.java:58 | the reversal has the same length, with entry i taken from the mirrored position |
| LetterIndexers.ReverseReverse | app/src/main/java/org/fasola/fasolaminutes/LetterIndexer.java:55-64 | reversing twice restores the original |
| LetterIndexers.Letters | app/src/main/java/org/fasola/fasolaminutes/LetterIndexer.java:17 | one single-letter section header per alphabet letter |
| LetterIndexers.LettersReverse | app/src/main/java/org/fasola/fasolaminutes/LetterIndexer.java:55-64 | reversing the alphabet reverses its section headers, so the two stay aligned |
| LetterIndexers.AlphabetDescending | app/src/main/java/org/fasola/fasolaminutes/LetterIndexer.java:18 | an alphabet is judged descending only when it has at least two letters |
| LetterIndexers.ParseNullable | app/src/main/java/org/fasola/fasolaminutes/LetterIndexer.java:50 | a null string never parses |
| LetterIndexers.IsDescending | app/src/main/java/org/fasola/fasolaminutes/LetterIndexer.java:47-53 | a null value throws NullPointer; values that both parse as integers are compared numerically |
| LetterIndexers.NumericColumnByValue | app/src/main/java/org/fasola/fasolaminutes/LetterIndexer.java:50 | integer data is judged by value, not by spelling |
| LetterIndexers.DescendingIsAsymmetric | app/src/main/java/org/fasola/fasolaminutes/LetterIndexer.java:52 | data descending from first to last is not descending from last to first |
| LetterIndexers.DataDirection | app/src/main/java/org/fasola/fasolaminutes/LetterIndexer.java:41-53 | the direction is read from the first and last rows; an empty result or a missing column throws |
| LetterIndexers.Oriented | app/src/main/java/org/fasola/fasolaminutes/LetterIndexer.java:55-64 | the new direction is the data's; alphabet and sections are reversed exactly when the direction flips |
| LetterIndexers.OrientedIdempotent | app/src/main/java/org/fasola/fasolaminutes/LetterIndexer.java:55 | setting the same data twice changes nothing the second time |
| LetterIndexers.OrientedFlipBack | app/src/main/java/org/fasola/fasolaminutes/LetterIndexer.java:55-64 | data in the opposite direction, then back, restores alphabet and sections |
| LetterIndexers.ConstructedMatches | app/src/main/java/org/fasola/fasolaminutes/LetterIndexer.java:18 | an indexer built with a descending alphabet needs no reversal for descending data |
| LetterIndexers.LetterIndexer.constructor | app/src/main/java/org/fasola/fasolaminutes/LetterIndexer.java:16-19 | the sections are the alphabet's letters, and the direction is that of the alphabet |
| LetterIndexers.LetterIndexer.SetColumnIndex | app/src/main/java/org/fasola/fasolaminutes/LetterIndexer.java:26-28 | the column index is set |
| LetterIndexers.LetterIndexer.ReverseSections | app/src/main/java/org/fasola/fasolaminutes/LetterIndexer.java:60-63 | the section array is reversed in place |
| LetterIndexers.LetterIndexer.SetCursor | app/src/main/java/org/fasola/fasolaminutes/LetterIndexer.java:37-66 | the cursor is recorded; a null cursor changes nothing else; a failed read throws with the direction kept; otherwise the cursor returns to its position and the state is oriented to the data's direction |
| LetterIndexers.LetterIndexer.SetCursorAt | app/src/main/java/org/fasola/fasolaminutes/LetterIndexer.java:21-24 | as SetCursor, over the given column |
| LetterIndexers.LetterIndexer.SetSections | app/src/main/java/org/fasola/fasolaminutes/LetterIndexer.java:31-33 | a null or over-long source throws and nothing is copied; otherwise the source overwrites the front of the sections |
| Java.ParseInt | app/src/main/java/org/fasola/fasolaminutes/LetterIndexer.java:50 | a parsed value fits in 32 bits and comes from a string starting with a sign or a digit |
| Java.LongToString | app/src/main/java/org/fasola/fasolaminutes/CursorListFragment.java:249 | the decimal form: digits, with a leading '-' exactly for negative values |
| Java.ParseIntOfToString | app/src/main/java/org/fasola/fasolaminutes/LetterIndexer.java:50 | parseInt reads back toString for every 32-bit value |
| Java.CompareToAntisymmetric | app/src/main/java/org/fasola/fasolaminutes/LetterIndexer.java:52 | swapping compareTo's arguments negates the result |
| Java.CompareToZero | app/src/main/java/org/fasola/fasolaminutes/LetterIndexer.java:52 | compareTo is zero exactly for equal strings |
| Cursors.Table.ColumnIndex | app/src/main/java/org/fasola/fasolaminutes/CursorListFragment.java:250 | the first column with the name, or -1 exactly when there is none |
| Cursors.Cursor.MoveToPosition | app/src/main/java/org/fasola/fasolaminutes/LetterIndexer.java:46 | succeeds exactly for a row index; other targets park the cursor before or after the rows |
| Cursors.Cursor.MoveToFirst | app/src/main/java/org/fasola/fasolaminutes/LetterIndexer.java:42 | goes to row 0; succeeds exactly for a non-empty result |
| Cursors.Cursor.MoveToLast | app/src/main/java/org/fasola/fasolaminutes/LetterIndexer.java:44 | goes to the last row; succeeds exactly for a non-empty result |
| Cursors.Cursor.MoveToNext | app/src/main/java/org/fasola/fasolaminutes/CursorListFragment.java:256 | advances one row; fails, parked after the rows, past the last one |
| Cursors.Cursor.GetString | app/src/main/java/org/fasola/fasolaminutes/CursorListFragment.java:252 | returns the value exactly on a row and an existing column; otherwise it throws |
| Playlists.Playlist.Current | app/src/main/java/org/fasola/fasolaminutes/PlaybackService.java:324 | a current song sits at the current position |
| Playlists.Playlist.MoveToNext | app/src/main/java/org/fasola/fasolaminutes/PlaybackService.java:548 | advances one entry; past the last entry there is no current position |
| Playlists.Playlist.MoveToPrev | app/src/main/java/org/fasola/fasolaminutes/PlaybackService.java:156 | steps back one entry; before the first there is no current position |
| Playlists.Playlist.MoveToFirst | app/src/main/java/org/fasola/fasolaminutes/PlaybackService.java:226 | goes to entry 0 when there is one |
| Playlists.Playlist.MoveToPosition | app/src/main/java/org/fasola/fasolaminutes/PlaybackService.java:385 | moves exactly to an index inside the entries; another index moves nothing |
| Playlists.Playlist.ReplaceWith | app/src/main/java/org/fasola/fasolaminutes/PlaybackService.java:384 | the entries become the songs, with no current position |
| Playlists.Playlist.AddAll | app/src/main/java/org/fasola/fasolaminutes/PlaybackService.java:389 | the songs are appended |
| Playlists.Song.constructor | app/src/main/java/org/fasola/fasolaminutes/PlaybackService.java:372 | a song is built from its row, with unknown status |
| MinutesUpdate.JoinKeepsAll | minutes_update.py:238-240 | every element of a join appears in the joined string |
| MinutesUpdate.Kept | minutes_update.py:233-236 | no more names are kept than there are arguments, and every kept name is non-empty |
| MinutesUpdate.KeptMembers | minutes_update.py:233-236 | a name is kept exactly when it is a non-empty argument |
| MinutesUpdate.NameListJoin | minutes_update.py:231-240 | no names give "", one gives itself, two give "a & b" |
| MinutesUpdate.NameListJoinThree | minutes_update.py:232-240 | the documented "a, b & c" for three non-empty names |
| MinutesUpdate.NameListJoinLastAfterAmpersand | minutes_update.py:232-240 | with three or more names, the line ends in " & " and the last name, and every other name comes before it |
| MinutesUpdate.NameListJoinKeepsNames | minutes_update.py:231-240 | every non-empty argument appears in the corrected line |
| MinutesUpdate.NameListJoinAgreesUpToThree | minutes_update.py:237-240 | with at most three arguments, as makenames passes them, the line as written equals the corrected one |
| MinutesUpdate.KeptAllNames | minutes_update.py:234-236 | when every argument is a non-empty name, all are kept in order |
| MinutesUpdate.NameListJoinAsWrittenDropsName | minutes_update.py:237-238 | as written, four names give "A, B & D": the third name is lost |
| MinutesUpdate.NameListJoinAsWrittenFour | minutes_update.py:237-238 | as written, four non-empty names a, b, c, d give "a, b & d" |
| MinutesUpdate.NameListJoinKeepsFour | minutes_update.py:231-232 | corrected, four non-empty names a, b, c, d give "a, b, c & d" |
| MinutesUpdate.NameJoin | minutes_update.py:244-245 | a TypeError exactly when a part is None; a space only between two non-empty parts; otherwise the one part that is there |
| MinutesUpdate.NameJoinEmpty | minutes_update.py:244-245 | a joined name is empty exactly when both parts are |
| MinutesUpdate.MakeNames | minutes_update.py:242-258 | a TypeError exactly for a None name part, or both dates with neither second name nor book; without a first date, the joined names; with only the first date, the names and that date; with both, each name with its own date, the book standing in for a missing second name |
| MinutesUpdate.MakeNamesSingle | minutes_update.py:242-258 | a single composer with a date gives "First Last, date" |
| MinutesUpdate.MakeNamesIgnoresLoneSecondDate | minutes_update.py:251-257 | a second date without a first is never shown |
| MinutesUpdate.TrailingStart | minutes_update.py:132 | where the trailing whitespace begins |
| MinutesUpdate.WordStart | minutes_update.py:132 | where the word before the trailing whitespace begins |
| MinutesUpdate.LastName | minutes_update.py:132 | AttributeError exactly for a NULL name; IndexError exactly for one of only whitespace; otherwise a non-empty word without whitespace that ends the name, followed only by whitespace |
| MinutesUpdate.LastNameOfFullName | minutes_update.py:132 | the last name of "first last" is "last" |
| MinutesUpdate.PyStr | minutes_update.py:148 | "%s" of a column value is never empty and has no '_' |
| MinutesUpdate.PyStrInjective | minutes_update.py:148 | different column values format differently |
| MinutesUpdate.SongSingingInjective | minutes_update.py:148-149 | two rows have the same key exactly when song and singing are both equal |
| MinutesUpdate.AssignLeadIds | minutes_update.py:144-156 | the updates are the rows' ids in order, each with one more than the number of lead changes up to it |
| MinutesUpdate.KeyChangesAtLead | minutes_update.py:148-151 | comparing neighbouring keys detects exactly a change of song or singing, and the count of changes grows by one exactly there |
| MinutesUpdate.LeadIdsStep | minutes_update.py:149-151 | the id rises by one exactly where song or singing changes, and otherwise stays |
| MinutesUpdate.SameLeadIdIffSameRun | minutes_update.py:144-156 | two rows share a lead id exactly when every row between them continues the same lead |
| MinutesUpdate.ChangesMonotone | minutes_update.py:144-156 | lead ids never decrease along the rows |
| MinutesUpdate.CountMapCovers | minutes_update.py:176-188 | the pre-filled count map has every song and year of the tables, each with its number of lead rows |
| MinutesUpdate.CountLeads | minutes_update.py:176-188 | a KeyError exactly when a lead row names an unknown song or year; otherwise every song and year is counted with its number of lead rows |
| MinutesUpdate.Distinct | minutes_update.py:178-179 | each song once, and no other |
| MinutesUpdate.InsertAsc | minutes_update.py:198 | inserting keeps the list sorted and adds exactly the element, which or the old head leads the result |
| MinutesUpdate.SortAsc | minutes_update.py:198 | sorted(): an ascending permutation |
| MinutesUpdate.InsertDesc | minutes_update.py:195 | inserting keeps the list in descending tuple order and adds exactly the element, which or the old head leads the result |
| MinutesUpdate.SortDesc | minutes_update.py:194-195 | sort(reverse=True): a permutation in descending (count, song) order |
| MinutesUpdate.RunStartFacts | minutes_update.py:199-204 | the run of an entry starts at or before it, holds only its count, and cannot be extended backwards |
| MinutesUpdate.RankYear | minutes_update.py:199-205 | each entry is ranked one past the start of its run of equal counts |
| MinutesUpdate.RanksAreCompetition | minutes_update.py:199-205 | in a descending list, exactly rank - 1 entries have a larger count ("1224" ranking) |
| MinutesUpdate.RanksBounded | minutes_update.py:199-205 | ranks start at 1, never decrease, and never exceed the position |
| MinutesUpdate.Entries | minutes_update.py:191-193 | one (count, song) entry per song for the year |
| MinutesUpdate.YearRowsCounts | minutes_update.py:190-205 | a year has one row per song, each with that song's count for the year |
| MinutesUpdate.StatsRowsCounts | minutes_update.py:197-205 | every row names a song and a visited year, and carries the count of that song in that year |
| MinutesUpdate.YearValues | minutes_update.py:194-205 | a year's rows: its entries sorted descending, then ranked |
| MinutesUpdate.YearOrderMembers | minutes_update.py:198 | the years visited are years of the table |
| MinutesUpdate.GatherRows | minutes_update.py:197-205 | the rows gathered year by year equal the stats rows of the model |
| MinutesUpdate.SongStats | minutes_update.py:176-205 | a KeyError exactly for an unknown song or year; otherwise the rows, year by ascending year |

## Left out

- The Android framework itself is not modelled: MediaPlayer, AudioManager,
  NotificationManager, RemoteViews, PendingIntent, TaskStackBuilder and
  LocalBroadcastManager. They appear only as the session state described above.
- Threads, the loader and Handler.postDelayed are not modelled. A posted retry is a
  counter, and it runs when `RunRetry` is called. The 500 ms delay is a constant only.
- The enqueue query (`Playlist.getSongQuery`, `MinutesLoader`) is given as its rows. SQL.java
  and Playlist.java are not part of this model.
- `Playlists.Playlist.MoveToPosition`: Playlist.java is not part of this model. That an
  out-of-range index moves nothing and is reported (IllegalArgument at the call sites) is
  an assumption.
- `Playback.PlaybackService.OnCompletion` and `OnError` also clear the decoder's playing
  flag. A decoder that has completed or failed is not playing, although the Java code does
  not say so itself.
- The notification's bitmaps and intents are not modelled. Only its texts, button state and
  back-stack kind are.
- `onCreate`'s receiver registration, `onDestroy` and `getInstance` are not modelled. The
  singleton is the `svc` parameter of the Control methods.
- CursorListFragment's UI is not modelled: views, the options menu, search, the
  `setHighlight(int)` list view, fast scroll, list state, Toast and `onLoaderReset`.
- `setAlphabet` and `setBins` are not modelled. They only call `setIndexer` with a new indexer.
- RangeIndexer, StringIndexer and BinIndexer are not part of this model. An indexer records
  only its kind and the result it was built over.
- `IndexedCursorAdapter.getIndexColumn` and SQL.INDEX_COLUMN are not modelled. SQL.java is not
  part of this model; the fragment's `indexColumn` stands for the index column.
- `Java.ParseInt`: only the ASCII digits '0' to '9' are read as digits. `Integer.parseInt`
  also accepts other Unicode decimal digits (Arabic-Indic, fullwidth, ...), so a column of
  such numbers is judged by `String.compareTo` in `LetterIndexers.IsDescending`,
  `DataDirection` and `LetterIndexer.SetCursor`, where the Java compares their values.
- `Cursors.Table.ColumnIndex`: Android's `getColumnIndex` is matched exactly. Its case-insensitive
  fallback is not modelled.
- AlphabetIndexer's `getSectionForPosition` and `getPositionForSection` are not modelled:
  LetterIndexer does not change them.
- Java strings are Dafny strings. UTF-16 surrogate pairs are not distinguished, so
  `StringBuilder.reverse` and `compareTo` are per character.
- minutes_update.py:
  - SQLite, `parse_text`, the vertical-tab fixes, `col_exists`, RecordingCt and the other
    column additions are not modelled; only the computations named above are;
  - the rows the script reads are parameters, and its UPDATE and INSERT statements are
    the returned sequences;
  - SELECT's row order is the given order.
- `Playback.OrderSongs` and `Playback.PlaybackService.OnEnqueueLoadFinished`: both look each
  argument up under its string form, the corrected lookup of the lead-id finding below. As
  written, a lead-id argument (a boxed Long) matches no String key, so the playlist gets null
  and prepare() loads nothing. Only the pure `Playback.OrderAsWritten` and
  `Playback.LeadIdEnqueueAsWrittenMisses` state that behaviour; for url arguments the two
  agree (`Playback.UrlOrderUnchanged`).
- `Playback.PlaybackService.OnPrepared`, `OnCompletion` and `OnError` require a decoder
  (`hasPlayer`): a released MediaPlayer delivers no callbacks, so none is modelled for one.
- `MinutesUpdate.LeadRow` and `MinutesUpdate.StatRow` hold song ids and years as integers. A
  NULL song id or `minutes.Year` (a `None` dict key, which Python 2's `sorted` puts first) is
  not modelled.
- `MinutesUpdate.SongStats`: Python's dict iteration order within a year is replaced by the
  songs' first-seen order. Each year's list is sorted by distinct (count, song) pairs, so the
  order does not reach the result.
- `MinutesUpdate.SortDesc` and `SortAsc`: the in-place `list.sort` is modelled on values as
  an insertion sort. The result is the same sorted permutation.

## Findings

| source | as written | input that shows it | evidently intended | confidence | as-written member | corrected member |
|---|---|---|---|---|---|---|
| app/src/main/java/org/fasola/fasolaminutes/PlaybackService.java:370-378 | the song map's keys are the key column's Strings, but an EXTRA_LEAD_ID intent passes a boxed Long (line 132), which equals no String, so `songMap.get` returns null | an ACTION_PLAY_MEDIA intent with EXTRA_LEAD_ID 5 whose query returns the row with lead id "5" | the lead's song is put in the playlist and played | high (not executed) | Playback.LeadIdEnqueueAsWrittenMisses | Playback.OrderRows |
| minutes_update.py:237-238 | with more than two names, `names[:2]` keeps only the first two before the last | `namelistjoin("A", "B", "C", "D")` gives "A, B & D" | "A, B, C & D", every name but the last before the "&", as the docstring shows; makenames passes three names, so its lines are not affected | high (not executed) | MinutesUpdate.NameListJoinAsWrittenDropsName | MinutesUpdate.NameListJoinKeepsFour |
