/**
 * LetterIndexer: an AlphabetIndexer whose alphabet and section headers follow the
 * sort direction of the data. The direction is judged from the first and last values
 * of the indexed column; when it differs from the current one, the alphabet and the
 * section array are reversed in place.
 *
 * AlphabetIndexer's own state is kept as far as the subclass touches it: the
 * alphabet, the section-header array (one string per alphabet letter), the indexed
 * column and the data cursor.
 */
module LetterIndexers {
  import opened Wrappers
  import opened Java
  import opened Cursors

  function Reverse<T>(s: seq<T>): (r: seq<T>)
    ensures |r| == |s|
    ensures forall i :: 0 <= i < |s| ==> r[i] == s[|s| - 1 - i]
  {
    if s == [] then [] else Reverse(s[1..]) + [s[0]]
  }

  lemma ReverseReverse<T>(s: seq<T>)
    ensures Reverse(Reverse(s)) == s
  {
    assert forall i :: 0 <= i < |s| ==> Reverse(Reverse(s))[i] == s[i];
  }

  /** AlphabetIndexer's section headers: one single-letter string per alphabet letter. */
  function Letters(alphabet: string): (ss: seq<string>)
    ensures |ss| == |alphabet| && forall i :: 0 <= i < |alphabet| ==> ss[i] == [alphabet[i]]
  {
    seq(|alphabet|, i requires 0 <= i < |alphabet| => [alphabet[i]])
  }

  /** Reversing the alphabet reverses its section headers. */
  lemma LettersReverse(alphabet: string)
    ensures Letters(Reverse(alphabet)) == Reverse(Letters(alphabet))
  {
  }

  /** The constructor's direction: a non-empty alphabet whose first letter is after its last. */
  function AlphabetDescending(alphabet: string): (d: bool)
    ensures d ==> |alphabet| >= 2
  {
    |alphabet| > 0 && alphabet[0] > alphabet[|alphabet| - 1]
  }

  /** Integer.parseInt of a possibly-null string: null does not parse either. */
  function ParseNullable(s: Option<string>): (r: Option<int>)
    ensures r.Some? ==> s.Some? && r == ParseInt(s.value)
  {
    if s.None? then None else ParseInt(s.value)
  }

  /**
   * setCursor's direction test on the first and last values: as integers when both
   * parse, otherwise by String.compareTo, which throws on a null receiver or argument.
   */
  function IsDescending(first: Option<string>, last: Option<string>): (r: Result<bool>)
    ensures r.Throw? <==> first.None? || last.None?
    ensures r.Throw? ==> r.error == NullPointer
    ensures ParseNullable(first).Some? && ParseNullable(last).Some? ==>
              r == Return(ParseNullable(first).value > ParseNullable(last).value)
  {
    var a, b := ParseNullable(first), ParseNullable(last);
    if a.Some? && b.Some? then Return(a.value > b.value)
    else if first.None? || last.None? then Throw(NullPointer)
    else Return(CompareTo(first.value, last.value) > 0)
  }

  /** A numeric column is judged by value, not by spelling ("9" before "10" is ascending). */
  lemma NumericColumnByValue(first: int, last: int)
    requires INT_MIN <= first <= INT_MAX && INT_MIN <= last <= INT_MAX
    ensures IsDescending(Some(LongToString(first)), Some(LongToString(last))) == Return(first > last)
  {
    ParseIntOfToString(first);
    ParseIntOfToString(last);
  }

  /** Data descending from first to last is not descending from last to first. */
  lemma DescendingIsAsymmetric(first: string, last: string)
    requires IsDescending(Some(first), Some(last)) == Return(true)
    ensures IsDescending(Some(last), Some(first)) == Return(false)
  {
    CompareToAntisymmetric(first, last);
  }

  /**
   * The direction of the data in `column`, read as setCursor reads it: the first row,
   * then the last. An empty table fails on the first read (CursorIndexOutOfBounds), a
   * column the table does not have fails too (IllegalState).
   */
  function DataDirection(t: Table, column: int): (r: Result<bool>)
    requires t.WellFormed()
    ensures t.Count() == 0 ==> r == Throw(CursorIndexOutOfBounds)
    ensures t.Count() > 0 && !(0 <= column < t.ColumnCount()) ==> r == Throw(IllegalState)
    ensures t.Count() > 0 && 0 <= column < t.ColumnCount() ==>
              r == IsDescending(t.rows[0][column], t.rows[t.Count() - 1][column])
  {
    if t.Count() == 0 then Throw(CursorIndexOutOfBounds)
    else if !(0 <= column < t.ColumnCount()) then Throw(IllegalState)
    else IsDescending(t.rows[0][column], t.rows[t.Count() - 1][column])
  }

  /** The indexer's direction-dependent state. */
  datatype Orientation = Orientation(isDesc: bool, alphabet: string, sections: seq<string>)

  /** The state after data with direction d: reversed exactly when the direction flips. */
  function Oriented(o: Orientation, d: bool): (r: Orientation)
    ensures r.isDesc == d
    ensures o.isDesc == d ==> r == o
    ensures o.isDesc != d ==> r.alphabet == Reverse(o.alphabet) && r.sections == Reverse(o.sections)
  {
    if o.isDesc == d then o else Orientation(d, Reverse(o.alphabet), Reverse(o.sections))
  }

  /** Setting the same data twice changes nothing the second time. */
  lemma OrientedIdempotent(o: Orientation, d: bool)
    ensures Oriented(Oriented(o, d), d) == Oriented(o, d)
  {
  }

  /** Data in the opposite direction and back restores the original alphabet and sections. */
  lemma OrientedFlipBack(o: Orientation)
    ensures Oriented(Oriented(o, !o.isDesc), o.isDesc) == o
  {
    ReverseReverse(o.alphabet);
    ReverseReverse(o.sections);
  }

  /** An indexer built for a descending alphabet needs no reversal for descending data. */
  lemma ConstructedMatches(alphabet: string)
    requires AlphabetDescending(alphabet)
    ensures var o := Orientation(AlphabetDescending(alphabet), alphabet, Letters(alphabet));
            Oriented(o, true) == o
  {
  }

  class LetterIndexer {
    var mIsDesc: bool
    var mAlphabet: string
    var mColumnIndex: int
    var mDataCursor: Cursor?
    const sections: array<string>   // AlphabetIndexer's section array, returned by getSections()

    ghost predicate Valid()
      reads this
    {
      sections.Length == |mAlphabet|
    }

    ghost function State(): Orientation
      reads this, sections
    {
      Orientation(mIsDesc, mAlphabet, sections[..])
    }

    constructor (cursor: Cursor?, sortedColumnIndex: int, alphabet: string)
      ensures Valid() && fresh(sections)
      ensures mDataCursor == cursor && mColumnIndex == sortedColumnIndex && mAlphabet == alphabet
      ensures sections[..] == Letters(alphabet)
      ensures mIsDesc == AlphabetDescending(alphabet)
    {
      mDataCursor := cursor;
      mColumnIndex := sortedColumnIndex;
      mAlphabet := alphabet;
      sections := new string[|alphabet|](i requires 0 <= i < |alphabet| => [alphabet[i]]);
      mIsDesc := |alphabet| > 0 && alphabet[0] > alphabet[|alphabet| - 1];
    }

    method SetColumnIndex(column: int)
      modifies this`mColumnIndex
      ensures mColumnIndex == column
    {
      mColumnIndex := column;
    }

    /** The section array reversed in place (Collections.reverse over Arrays.asList). */
    method ReverseSections()
      modifies sections
      ensures sections[..] == Reverse(old(sections[..]))
    {
      var i, j := 0, sections.Length - 1;
      while i < j
        invariant 0 <= i <= j + 1 <= sections.Length
        invariant i + j == sections.Length - 1
        invariant forall k :: 0 <= k < i ==> sections[k] == old(sections[sections.Length - 1 - k])
        invariant forall k :: j < k < sections.Length ==> sections[k] == old(sections[sections.Length - 1 - k])
        invariant forall k :: i <= k <= j ==> sections[k] == old(sections[k])
      {
        sections[i], sections[j] := sections[j], sections[i];
        i, j := i + 1, j - 1;
      }
    }

    /**
     * setCursor(cursor): record the cursor; for a non-null one, judge the direction of
     * its data and reverse alphabet and sections when it differs from the current one,
     * leaving the cursor where it was. A failed read leaves the direction as it was.
     */
    method SetCursor(cursor: Cursor?) returns (r: Result<()>)
      requires Valid() && (cursor != null ==> cursor.Valid())
      modifies this`mDataCursor, this`mIsDesc, this`mAlphabet, sections, cursor
      ensures Valid() && mDataCursor == cursor
      ensures cursor != null ==> cursor.Valid()
      ensures cursor == null ==> r == Return(()) && State() == old(State())
      ensures cursor != null ==>
                var d := DataDirection(cursor.table, mColumnIndex);
                && (d.Throw? ==> r == Throw(d.error) && State() == old(State()))
                && (d.Return? ==> r == Return(()) && cursor.position == old(cursor.position)
                                  && State() == Oriented(old(State()), d.value))
    {
      mDataCursor := cursor;   // AlphabetIndexer.setCursor
      if cursor == null {
        return Return(());
      }
      var pos := cursor.position;
      ghost var d := DataDirection(cursor.table, mColumnIndex);
      var _ := cursor.MoveToFirst();
      var first := cursor.GetString(mColumnIndex);
      if first.Throw? {
        return Throw(first.error);
      }
      var _ := cursor.MoveToLast();
      var last := cursor.GetString(mColumnIndex);
      var _ := cursor.MoveToPosition(pos);
      var isDesc := IsDescending(first.value, last.value);
      assert isDesc == d;
      if isDesc.Throw? {
        return Throw(isDesc.error);
      }
      if mIsDesc != isDesc.value {
        mIsDesc := isDesc.value;
        mAlphabet := Reverse(mAlphabet);   // StringBuilder.reverse
        ReverseSections();
      }
      return Return(());
    }

    /** setCursor(cursor, column): index that column, then setCursor. */
    method SetCursorAt(cursor: Cursor?, column: int) returns (r: Result<()>)
      requires Valid() && (cursor != null ==> cursor.Valid())
      modifies this`mColumnIndex, this`mDataCursor, this`mIsDesc, this`mAlphabet, sections, cursor
      ensures Valid() && mDataCursor == cursor && mColumnIndex == column
      ensures cursor == null ==> r == Return(()) && State() == old(State())
      ensures cursor != null ==>
                var d := DataDirection(cursor.table, column);
                && (d.Throw? ==> r == Throw(d.error) && State() == old(State()))
                && (d.Return? ==> r == Return(()) && cursor.position == old(cursor.position)
                                  && State() == Oriented(old(State()), d.value))
    {
      mColumnIndex := column;
      r := SetCursor(cursor);
    }

    /**
     * setSections: System.arraycopy of src over the front of the section array. A null
     * source throws, and so does one longer than the section array, before anything is copied.
     */
    method SetSections(src: array?<string>) returns (r: Result<()>)
      requires Valid()
      modifies sections
      ensures src == null ==> r == Throw(NullPointer) && sections[..] == old(sections[..])
      ensures src != null && src.Length > sections.Length ==>
                r == Throw(ArrayIndexOutOfBounds) && sections[..] == old(sections[..])
      ensures src != null && src.Length <= sections.Length ==>
                r == Return(()) && sections[..] == old(src[..]) + old(sections[src.Length..])
    {
      if src == null {
        return Throw(NullPointer);
      }
      if src.Length > sections.Length {
        return Throw(ArrayIndexOutOfBounds);
      }
      var i := 0;
      while i < src.Length
        invariant 0 <= i <= src.Length
        invariant forall k :: 0 <= k < i ==> sections[k] == old(src[k])
        invariant forall k :: i <= k < sections.Length ==> sections[k] == old(sections[k])
        invariant forall k :: i <= k < src.Length ==> src[k] == old(src[k])
      {
        sections[i] := src[i];
        i := i + 1;
      }
      assert sections[..] == old(src[..]) + old(sections[src.Length..]);
      return Return(());
    }
  }
}
