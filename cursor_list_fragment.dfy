/**
 * CursorListFragment: the list screen over a query result. Modelled here are its
 * helpers over the loaded cursor (the display columns, the view ids they go to, the
 * play request of the play button, the highlight search) and the deferred indexer,
 * which is only applied once a load has finished so that it never indexes the
 * previous query's rows.
 *
 * The list adapter is reduced to the two things the fragment hands it: its indexer
 * and its cursor with columns. SQL.INDEX_COLUMN (SQL.java is not part of this model)
 * is the fragment's `indexColumn`.
 */
module ListFragments {
  import opened Wrappers
  import opened Java
  import opened Cursors
  import opened LetterIndexers
  import opened Playback

  /** The column holding a row's audio url; its "__" prefix keeps it off the screen. */
  const AUDIO_COLUMN: string := "__sql_audio_column"

  predicate StartsWith(s: string, prefix: string) {
    |prefix| <= |s| && s[..|prefix|] == prefix
  }

  /** getFrom's test: the index column and names starting with "__" are not displayed. */
  predicate Displayed(name: string, indexColumn: string) {
    name != indexColumn && !StartsWith(name, "__")
  }

  /** The names that pass the display test, in order. */
  function FilterDisplayed(names: seq<string>, indexColumn: string): (r: seq<string>)
    ensures |r| <= |names|
  {
    if names == [] then []
    else FilterDisplayed(names[..|names| - 1], indexColumn) +
         (if Displayed(names[|names| - 1], indexColumn) then [names[|names| - 1]] else [])
  }

  /** The display columns of a result: every column after the first (the id) that passes the test. */
  function DisplayColumns(names: seq<string>, indexColumn: string): seq<string> {
    if |names| <= 1 then [] else FilterDisplayed(names[1..], indexColumn)
  }

  lemma {:induction false} FilterDisplayedExact(names: seq<string>, indexColumn: string)
    ensures forall x :: x in FilterDisplayed(names, indexColumn) <==> x in names && Displayed(x, indexColumn)
  {
    if names != [] {
      var init := names[..|names| - 1];
      FilterDisplayedExact(init, indexColumn);
      assert names == init + [names[|names| - 1]];
    }
  }

  /**
   * A name is displayed exactly when some column after the first carries it and
   * passes the test; in particular the id column's name shows only if repeated later.
   */
  lemma DisplayColumnsExact(names: seq<string>, indexColumn: string)
    ensures forall x :: x in DisplayColumns(names, indexColumn) <==>
              Displayed(x, indexColumn) && exists i :: 1 <= i < |names| && names[i] == x
  {
    if |names| > 1 {
      FilterDisplayedExact(names[1..], indexColumn);
      forall x | x in names[1..]
        ensures exists i :: 1 <= i < |names| && names[i] == x
      {
        var k :| 0 <= k < |names[1..]| && names[1..][k] == x;
        assert names[k + 1] == x;
      }
    }
  }

  /** The audio column is never a display column. */
  lemma AudioColumnHidden(indexColumn: string)
    ensures !Displayed(AUDIO_COLUMN, indexColumn)
  {
    assert AUDIO_COLUMN[..2] == "__";
  }

  /** getFrom: the loop over columns 1 to n-1, skipping those not displayed. */
  method GetFrom(names: seq<string>, indexColumn: string) returns (from: seq<string>)
    ensures from == DisplayColumns(names, indexColumn)
  {
    from := [];
    var i := 1;
    while i < |names|
      invariant 1 <= i <= |names| || (|names| <= 1 && i == 1)
      invariant from == if |names| <= 1 then [] else FilterDisplayed(names[1..i], indexColumn)
    {
      assert names[1..i + 1][..i - 1] == names[1..i];
      if Displayed(names[i], indexColumn) {
        from := from + [names[i]];
      }
      i := i + 1;
    }
    if |names| > 1 {
      assert names[1..i] == names[1..];
    }
  }

  /** The list item's text views; Unset is an int array's initial 0. */
  datatype ViewId = Unset | Text1 | Text2 | Text3

  /** The view for display column i: text1, text2 and text3 exist, nothing past them. */
  function TextView(i: nat): (v: Option<ViewId>)
    ensures v.Some? <==> i < 3
    ensures v.Some? ==> v.value != Unset
  {
    if i == 0 then Some(Text1) else if i == 1 then Some(Text2) else if i == 2 then Some(Text3) else None
  }

  /** getTo: an array of n view ids filled in order; Assert.fail at the first index without a view. */
  method GetTo(n: nat) returns (r: Result<seq<ViewId>>)
    ensures r.Return? <==> n <= 3
    ensures r.Throw? ==> r.error == AssertionFailed
    ensures r.Return? ==> |r.value| == n && forall i :: 0 <= i < n ==> TextView(i) == Some(r.value[i])
  {
    var to := new ViewId[n](_ => Unset);
    for i := 0 to n
      invariant i <= 3
      invariant forall k :: 0 <= k < i ==> TextView(k) == Some(to[k])
    {
      if i == 0 {
        to[i] := Text1;
      } else if i == 1 {
        to[i] := Text2;
      } else if i == 2 {
        to[i] := Text3;
      } else {
        return Throw(AssertionFailed);
      }
    }
    return Return(to[..]);
  }

  // ---------------------------------------------------------------------------------
  // playSongs
  // ---------------------------------------------------------------------------------

  /** The non-null values of a column, in row order. */
  function NonNull(col: seq<Option<string>>): (r: seq<string>)
    ensures |r| <= |col|
  {
    if col == [] then []
    else NonNull(col[..|col| - 1]) + (if col[|col| - 1].Some? then [col[|col| - 1].value] else [])
  }

  lemma {:induction false} NonNullMembers(col: seq<Option<string>>)
    ensures forall x :: x in NonNull(col) <==> Some(x) in col
  {
    if col != [] {
      NonNullMembers(col[..|col| - 1]);
      assert col == col[..|col| - 1] + [col[|col| - 1]];
    }
  }

  /** The request playSongs sends: ACTION_PLAY_MEDIA with a url list and a play index. */
  datatype PlayRequest = PlayRequest(urls: seq<string>, playIndex: int)

  /** The index in the url list of row `position`'s url; 0 when that row has none. */
  function PlayIndex(col: seq<Option<string>>, position: int): int {
    if 0 <= position < |col| && col[position].Some? then |NonNull(col[..position])| else 0
  }

  /**
   * What playSongs sends for a result and a clicked position: nothing for an empty
   * result or a first row without url; an error when there is no audio column (reading
   * column -1); otherwise every non-null url in order, and the clicked row's index among them.
   */
  function PlaySongsResult(t: Table, position: int): Result<Option<PlayRequest>>
    requires t.WellFormed()
  {
    var c := t.ColumnIndex(AUDIO_COLUMN);
    if t.Count() == 0 then Return(None)
    else if c < 0 then Throw(IllegalState)
    else
      var col := t.Column(c);
      if col[0].None? then Return(None)
      else Return(Some(PlayRequest(NonNull(col), PlayIndex(col, position))))
  }

  lemma {:induction false} NonNullPrefix(col: seq<Option<string>>, k: nat)
    requires k < |col| && col[k].Some?
    ensures |NonNull(col[..k])| < |NonNull(col)|
    ensures NonNull(col)[|NonNull(col[..k])|] == col[k].value
  {
    if k < |col| - 1 {
      NonNullPrefix(col[..|col| - 1], k);
      assert col[..|col| - 1][..k] == col[..k];
    } else {
      assert col[..|col| - 1] == col[..k];
    }
  }

  /** The play index always names a url of the list, and it is the clicked row's url when it has one. */
  lemma PlayIndexInRange(t: Table, position: int)
    requires t.WellFormed()
    requires PlaySongsResult(t, position).Return? && PlaySongsResult(t, position).value.Some?
    ensures var req := PlaySongsResult(t, position).value.value;
            0 <= req.playIndex < |req.urls|
    ensures var col := t.Column(t.ColumnIndex(AUDIO_COLUMN));
            var req := PlaySongsResult(t, position).value.value;
            0 <= position < |col| && col[position].Some? ==> req.urls[req.playIndex] == col[position].value
  {
    var col := t.Column(t.ColumnIndex(AUDIO_COLUMN));
    NonNullPrefix(col, 0);
    if 0 <= position < |col| && col[position].Some? {
      NonNullPrefix(col, position);
    }
  }

  /** The playback session turns the request into an enqueue of exactly those urls, played from that index. */
  lemma PlayRequestEnqueues(req: PlayRequest)
    ensures MediaRequest(true, Extras(None, None, Some(req.urls), Some(req.playIndex))) ==
            Some(EnqueueRequest(req.playIndex, AudioUrlColumn, StrValues(req.urls)))
  {
  }

  /** playSongs: walk the cursor from the first row, collecting the non-null urls. */
  method PlaySongs(cursor: Cursor, position: int) returns (r: Result<Option<PlayRequest>>)
    requires cursor.Valid()
    modifies cursor
    ensures cursor.Valid()
    ensures r == PlaySongsResult(cursor.table, position)
  {
    var urlColumn := cursor.table.ColumnIndex(AUDIO_COLUMN);
    var ok := cursor.MoveToFirst();
    if !ok {
      return Return(None);
    }
    var first := cursor.GetString(urlColumn);
    if first.Throw? {
      return Throw(first.error);
    }
    if first.value.None? {
      return Return(None);
    }
    ghost var col := cursor.table.Column(urlColumn);
    assert col[..1] == [col[0]];
    var urls := [first.value.value];
    var playIndex := 0;
    var more := cursor.MoveToNext();
    while more
      invariant cursor.Valid() && 1 <= cursor.position <= cursor.table.Count()
      invariant more <==> cursor.position < cursor.table.Count()
      invariant urls == NonNull(col[..cursor.position])
      invariant playIndex == if 0 < position < cursor.position then PlayIndex(col, position) else 0
      decreases cursor.table.Count() - cursor.position
    {
      var v := cursor.GetString(urlColumn);
      assert col[..cursor.position + 1][..cursor.position] == col[..cursor.position];
      if v.value.Some? {
        urls := urls + [v.value.value];
        if cursor.position == position {
          playIndex := |urls| - 1;
        }
      }
      more := cursor.MoveToNext();
    }
    assert col[..cursor.position] == col;
    return Return(Some(PlayRequest(urls, playIndex)));
  }

  // ---------------------------------------------------------------------------------
  // setHighlight(cursor, column, value)
  // ---------------------------------------------------------------------------------

  /**
   * The first row from k on whose value equals val; a null value met before a match
   * throws (getString(...).equals on null); -1 after the last row.
   */
  function FirstMatch(col: seq<Option<string>>, val: string, k: nat): (r: Result<int>)
    requires k <= |col|
    ensures r.Return? && r.value >= 0 ==>
              k <= r.value < |col| && col[r.value] == Some(val)
              && forall j :: k <= j < r.value ==> col[j].Some? && col[j] != Some(val)
    ensures r.Return? && r.value < 0 ==> r.value == -1 && forall j :: k <= j < |col| ==> col[j].Some? && col[j] != Some(val)
    ensures r.Throw? ==> r.error == NullPointer && exists j :: k <= j < |col| && col[j].None?
    decreases |col| - k
  {
    if k == |col| then Return(-1)
    else if col[k].None? then Throw(NullPointer)
    else if col[k].value == val then Return(k)
    else FirstMatch(col, val, k + 1)
  }

  /**
   * setHighlight's result: -1 for a null or empty cursor; a null value throws; a
   * missing column throws on the first read; otherwise the first matching row.
   */
  function HighlightResult(t: Option<Table>, column: string, value: Option<Value>): Result<int>
    requires t.Some? ==> t.value.WellFormed()
  {
    if t.None? || t.value.Count() == 0 then Return(-1)
    else if value.None? then Throw(NullPointer)
    else
      var c := t.value.ColumnIndex(column);
      if c < 0 then Throw(IllegalState)
      else FirstMatch(t.value.Column(c), ToString(value.value), 0)
  }

  /** A match at i, after non-null mismatches only, is what the search finds from any k <= i. */
  lemma {:induction false} FirstMatchFinds(col: seq<Option<string>>, val: string, k: nat, i: nat)
    requires k <= i < |col| && col[i] == Some(val)
    requires forall j :: k <= j < i ==> col[j].Some? && col[j] != Some(val)
    ensures FirstMatch(col, val, k) == Return(i)
    decreases i - k
  {
    if k < i {
      FirstMatchFinds(col, val, k + 1, i);
    }
  }

  /** A lead id passed as a Long finds the row holding its decimal string. */
  lemma HighlightByLongValue(t: Table, column: string, n: int, i: nat)
    requires t.WellFormed() && i < t.Count() && 0 <= t.ColumnIndex(column)
    requires t.rows[i][t.ColumnIndex(column)] == Some(LongToString(n))
    requires forall j :: 0 <= j < i ==>
               t.rows[j][t.ColumnIndex(column)].Some? && t.rows[j][t.ColumnIndex(column)] != Some(LongToString(n))
    ensures HighlightResult(Some(t), column, Some(Long(n))) == Return(i)
  {
    FirstMatchFinds(t.Column(t.ColumnIndex(column)), LongToString(n), 0, i);
  }

  method SetHighlight(cursor: Cursor?, column: string, value: Option<Value>) returns (r: Result<int>)
    requires cursor != null ==> cursor.Valid()
    modifies cursor
    ensures cursor != null ==> cursor.Valid()
    ensures r == HighlightResult(if cursor == null then None else Some(cursor.table), column, value)
    ensures cursor != null && r.Return? && r.value >= 0 ==> cursor.position == r.value
  {
    if cursor == null {
      return Return(-1);
    }
    var ok := cursor.MoveToFirst();
    if !ok {
      return Return(-1);
    }
    if value.None? {
      return Throw(NullPointer);   // value.toString()
    }
    var val := ToString(value.value);
    var columnIndex := cursor.table.ColumnIndex(column);
    ghost var col := if columnIndex < 0 then [] else cursor.table.Column(columnIndex);
    var more := true;
    while more
      invariant cursor.Valid() && 0 <= cursor.position <= cursor.table.Count()
      invariant more <==> cursor.position < cursor.table.Count()
      invariant more ==> HighlightResult(Some(cursor.table), column, value) ==
                           (if columnIndex < 0 then Throw(IllegalState) else FirstMatch(col, val, cursor.position))
      invariant !more ==> columnIndex >= 0 && FirstMatch(col, val, cursor.position) == Return(-1)
                          && HighlightResult(Some(cursor.table), column, value) == Return(-1)
      decreases cursor.table.Count() - cursor.position
    {
      var s := cursor.GetString(columnIndex);
      if s.Throw? {
        return Throw(s.error);
      }
      if s.value.None? {
        return Throw(NullPointer);   // null.equals(val)
      }
      if s.value.value == val {
        // setHighlight(position) updates the list view
        return Return(cursor.position);
      }
      more := cursor.MoveToNext();
    }
    return Return(-1);
  }

  // ---------------------------------------------------------------------------------
  // The deferred indexer
  // ---------------------------------------------------------------------------------

  /** mDeferredIndexerType: NO_INDEXER, RANGE_INDEXER, STRING_INDEXER. */
  datatype IndexerType = NoIndexer | RangeIndexer | StringIndexer

  /**
   * A section indexer: one given to setIndexer, a range given its bounds, or one of
   * the two kinds built from a loaded result. RangeIndexer and StringIndexer are not
   * part of this model; only which kind was built and from which result is kept.
   */
  datatype Indexer =
    | Supplied(indexer: LetterIndexer)
    | FixedRange(min: int, max: int)
    | RangeOver(data: Table)
    | StringsOver(data: Table)

  /** The adapter's cursor and the columns it shows. */
  datatype AdapterCursor = NoCursor | Columns(data: Table, from: seq<string>, to: seq<ViewId>)

  /** The indexer a load of t hands to the adapter, if any: a deferred type builds one every time. */
  function AppliedIndexer(kind: IndexerType, deferred: Option<Indexer>, t: Table): (r: Option<Indexer>)
    ensures kind == RangeIndexer ==> r == Some(RangeOver(t))
    ensures kind == StringIndexer ==> r == Some(StringsOver(t))
    ensures kind == NoIndexer ==> r == deferred
  {
    match kind
    case RangeIndexer => Some(RangeOver(t))
    case StringIndexer => Some(StringsOver(t))
    case NoIndexer => deferred
  }

  /**
   * The adapter's indexer after a series of loads, starting from the fragment's
   * deferred type and indexer and the adapter's current indexer.
   */
  function IndexerAfterLoads(kind: IndexerType, deferred: Option<Indexer>, adapter: Option<Indexer>,
                             loads: seq<Table>): Option<Indexer>
    decreases |loads|
  {
    if loads == [] then adapter
    else
      var applied := AppliedIndexer(kind, deferred, loads[0]);
      IndexerAfterLoads(kind, None, if applied.Some? then applied else adapter, loads[1..])
  }

  /**
   * An indexer given to setIndexer is applied by the first load and stays through
   * every later load: it is never applied to a previous query, nor replaced.
   */
  lemma {:induction false} SuppliedIndexerSticks(deferred: Option<Indexer>, adapter: Option<Indexer>,
                                                 loads: seq<Table>)
    requires |loads| > 0
    ensures IndexerAfterLoads(NoIndexer, deferred, adapter, loads) == if deferred.Some? then deferred else adapter
  {
    var next := if deferred.Some? then deferred else adapter;
    NoIndexerKeeps(next, loads[1..]);
  }

  lemma {:induction false} NoIndexerKeeps(adapter: Option<Indexer>, loads: seq<Table>)
    ensures IndexerAfterLoads(NoIndexer, None, adapter, loads) == adapter
    decreases |loads|
  {
    if loads != [] {
      NoIndexerKeeps(adapter, loads[1..]);
    }
  }

  /** With a deferred type, the indexer is rebuilt by every load, so it is always over the latest result. */
  lemma {:induction false} DeferredTypeFollowsLastLoad(kind: IndexerType, deferred: Option<Indexer>,
                                                       adapter: Option<Indexer>, loads: seq<Table>)
    requires kind != NoIndexer && |loads| > 0
    ensures IndexerAfterLoads(kind, deferred, adapter, loads) == AppliedIndexer(kind, None, loads[|loads| - 1])
    decreases |loads|
  {
    if |loads| > 1 {
      DeferredTypeFollowsLastLoad(kind, None, AppliedIndexer(kind, deferred, loads[0]), loads[1..]);
    }
  }

  class CursorListFragment {
    const indexColumn: string
    var mDeferredIndexerType: IndexerType
    var mDeferredIndexer: Option<Indexer>
    var adapterIndexer: Option<Indexer>
    var adapterCursor: AdapterCursor

    constructor (indexColumn: string)
      ensures this.indexColumn == indexColumn
      ensures mDeferredIndexerType == NoIndexer && mDeferredIndexer == None
      ensures adapterIndexer == None && adapterCursor == NoCursor
    {
      this.indexColumn := indexColumn;
      mDeferredIndexerType := NoIndexer;
      mDeferredIndexer := None;
      adapterIndexer := None;
      adapterCursor := NoCursor;
    }

    /** setIndexer: keep the indexer for the next load, and drop any deferred type. */
    method SetIndexer(indexer: Option<Indexer>)
      modifies this`mDeferredIndexerType, this`mDeferredIndexer
      ensures mDeferredIndexerType == NoIndexer && mDeferredIndexer == indexer
    {
      mDeferredIndexerType := NoIndexer;
      mDeferredIndexer := indexer;
    }

    /** setRangeIndexer(min, max): a range indexer with known bounds. */
    method SetKnownRangeIndexer(min: int, max: int)
      modifies this`mDeferredIndexerType, this`mDeferredIndexer
      ensures mDeferredIndexerType == NoIndexer && mDeferredIndexer == Some(FixedRange(min, max))
    {
      SetIndexer(Some(FixedRange(min, max)));
    }

    /** setRangeIndexer(): build a range indexer from each loaded result. */
    method SetRangeIndexer()
      modifies this`mDeferredIndexerType
      ensures mDeferredIndexerType == RangeIndexer
    {
      mDeferredIndexerType := RangeIndexer;
    }

    /** setStringIndexer(): build a string indexer from each loaded result. */
    method SetStringIndexer()
      modifies this`mDeferredIndexerType
      ensures mDeferredIndexerType == StringIndexer
    {
      mDeferredIndexerType := StringIndexer;
    }

    /**
     * onLoadFinished: apply the deferred indexer, if there is one, and clear it; then
     * give the adapter the cursor with its display columns, or no cursor for a result
     * without columns. getTo's failure (more than three display columns) is thrown
     * after the indexer was applied, and leaves the adapter's cursor as it was.
     */
    method OnLoadFinished(t: Table) returns (r: Result<()>)
      requires t.WellFormed()
      modifies this`mDeferredIndexer, this`adapterIndexer, this`adapterCursor
      ensures mDeferredIndexer == None
      ensures var applied := AppliedIndexer(mDeferredIndexerType, old(mDeferredIndexer), t);
              adapterIndexer == if applied.Some? then applied else old(adapterIndexer)
      ensures t.ColumnCount() == 0 ==> r == Return(()) && adapterCursor == NoCursor
      ensures t.ColumnCount() > 0 ==>
                var from := DisplayColumns(t.columnNames, indexColumn);
                && (|from| <= 3 ==> r == Return(()) && adapterCursor.Columns? && adapterCursor.data == t
                                    && adapterCursor.from == from && |adapterCursor.to| == |from|
                                    && forall i :: 0 <= i < |from| ==> TextView(i) == Some(adapterCursor.to[i]))
                && (|from| > 3 ==> r == Throw(AssertionFailed) && adapterCursor == old(adapterCursor))
    {
      if mDeferredIndexerType == RangeIndexer {
        mDeferredIndexer := Some(RangeOver(t));
      } else if mDeferredIndexerType == StringIndexer {
        mDeferredIndexer := Some(StringsOver(t));
      }
      if mDeferredIndexer.Some? {
        adapterIndexer := mDeferredIndexer;
        mDeferredIndexer := None;
      }
      if t.ColumnCount() == 0 {
        adapterCursor := NoCursor;
        return Return(());
      }
      var from := GetFrom(t.columnNames, indexColumn);
      var to := GetTo(|from|);
      if to.Throw? {
        return Throw(to.error);
      }
      adapterCursor := Columns(t, from, to.value);
      return Return(());
    }
  }
}
