/**
 * Query results as the Android code sees them: a table of nullable string values
 * (android.database.Cursor without the database), and a cursor object over such a
 * table whose only state is its row position.
 */
module Cursors {
  import opened Wrappers
  import opened Java

  /** Column names and rows; every value is a string or SQL NULL. */
  datatype Table = Table(columnNames: seq<string>, rows: seq<seq<Option<string>>>) {

    predicate WellFormed() {
      forall i :: 0 <= i < |rows| ==> |rows[i]| == |columnNames|
    }

    function ColumnCount(): nat {
      |columnNames|
    }

    function Count(): nat {
      |rows|
    }

    /** Cursor.getColumnIndex: the first column with this name, or -1 if there is none. */
    function ColumnIndex(name: string): (i: int)
      ensures -1 <= i < |columnNames|
      ensures i >= 0 ==> columnNames[i] == name && forall j :: 0 <= j < i ==> columnNames[j] != name
      ensures i == -1 <==> name !in columnNames
    {
      FirstIndexFrom(columnNames, name, 0)
    }

    /** The values of column c, in row order. */
    function Column(c: nat): (values: seq<Option<string>>)
      requires WellFormed() && c < |columnNames|
      ensures |values| == |rows|
      ensures forall i :: 0 <= i < |rows| ==> values[i] == rows[i][c]
    {
      seq(|rows|, i requires 0 <= i < |rows| => rows[i][c])
    }
  }

  function FirstIndexFrom(names: seq<string>, name: string, k: nat): (i: int)
    requires k <= |names|
    requires forall j :: 0 <= j < k ==> names[j] != name
    ensures -1 <= i < |names|
    ensures i >= 0 ==> k <= i && names[i] == name && forall j :: 0 <= j < i ==> names[j] != name
    ensures i == -1 <==> name !in names
    decreases |names| - k
  {
    if k == |names| then -1
    else if names[k] == name then k
    else FirstIndexFrom(names, name, k + 1)
  }

  /**
   * A cursor over a table. The position runs from -1 (before the first row) to
   * Count() (after the last row), as in android.database.AbstractCursor.
   */
  class Cursor {
    const table: Table
    var position: int

    ghost predicate Valid()
      reads this
    {
      table.WellFormed() && -1 <= position <= table.Count()
    }

    constructor (t: Table)
      requires t.WellFormed()
      ensures Valid() && table == t && position == -1
    {
      table := t;
      position := -1;
    }

    /** Moves to row p; a target outside the rows parks the cursor before or after them. */
    method MoveToPosition(p: int) returns (ok: bool)
      requires Valid()
      modifies this`position
      ensures Valid()
      ensures ok <==> 0 <= p < table.Count()
      ensures position == if p >= table.Count() then table.Count() else if p < 0 then -1 else p
    {
      if p >= table.Count() {
        position := table.Count();
        return false;
      }
      if p < 0 {
        position := -1;
        return false;
      }
      position := p;
      return true;
    }

    method MoveToFirst() returns (ok: bool)
      requires Valid()
      modifies this`position
      ensures Valid()
      ensures ok <==> table.Count() > 0
      ensures position == 0
    {
      ok := MoveToPosition(0);
    }

    method MoveToLast() returns (ok: bool)
      requires Valid()
      modifies this`position
      ensures Valid()
      ensures ok <==> table.Count() > 0
      ensures position == table.Count() - 1
    {
      ok := MoveToPosition(table.Count() - 1);
    }

    method MoveToNext() returns (ok: bool)
      requires Valid()
      modifies this`position
      ensures Valid()
      ensures ok <==> old(position) + 1 < table.Count()
      ensures position == if old(position) + 1 >= table.Count() then table.Count() else old(position) + 1
    {
      ok := MoveToPosition(position + 1);
    }

    /** Cursor.getString on the current row. */
    function GetString(column: int): (r: Result<Option<string>>)
      requires Valid()
      reads this
      ensures r.Return? <==> 0 <= position < table.Count() && 0 <= column < table.ColumnCount()
    {
      if position < 0 || position >= table.Count() then Throw(CursorIndexOutOfBounds)
      else if column < 0 || column >= table.ColumnCount() then Throw(IllegalState)
      else Return(table.rows[position][column])
    }
  }
}
