/** The list view that receives tab-separated output: a cursor (row and
    column) that moves as cells are appended, wrapping to the next row after
    the last column or on a newline, and the column widths it sets when the
    first row appears or the control is resized. The control itself belongs
    to the OS; what its calls return is passed in. */
module ListViews {
  import opened CppInt
  import opened Win32

  /** The cursor after one cell: nothing moves without columns; otherwise a
      newline returns to column 0 and any other cell moves one column on,
      wrapping modulo the column count, and the row advances exactly when
      the column comes back to 0. */
  function Advance(row: int, col: int, numColumns: int, hasNewline: bool): (r: (int, int))
    ensures numColumns == 0 ==> r == (row, col)
    ensures numColumns != 0 && hasNewline ==> r == (row + 1, 0)
    ensures numColumns > 0 && col >= 0 && !hasNewline ==> r.1 == (col + 1) % numColumns
  {
    if numColumns == 0 then (row, col)
    else
      var c := if hasNewline then 0 else Rem(col + 1, numColumns);
      (if c == 0 then row + 1 else row, c)
  }

  /** A column in range stays in range, and one past the end comes back into range. */
  lemma AdvanceKeepsColumnInRange(row: int, col: int, numColumns: int, hasNewline: bool)
    requires 0 <= col && 0 < numColumns
    ensures 0 <= Advance(row, col, numColumns, hasNewline).1 < numColumns
    ensures Advance(row, col, numColumns, hasNewline).0 == row + 1 <==> Advance(row, col, numColumns, hasNewline).1 == 0
    ensures Advance(row, col, numColumns, hasNewline).0 != row + 1 ==> Advance(row, col, numColumns, hasNewline).0 == row
  {
  }

  /** Inside the row the cursor moves one column right. */
  lemma AdvanceWithinRow(row: int, col: int, numColumns: int)
    requires 0 <= col && col + 1 < numColumns
    ensures Advance(row, col, numColumns, false) == (row, col + 1)
  {
    DivUnique(col + 1, numColumns, 0);
  }

  /** From the last column the cursor wraps to column 0 of the next row. */
  lemma AdvanceFromLastColumn(row: int, numColumns: int)
    requires 0 < numColumns
    ensures Advance(row, numColumns - 1, numColumns, false) == (row + 1, 0)
  {
    DivUnique(numColumns, numColumns, 1);
  }

  /** The cursor after `k` cells without a newline. */
  function AdvanceTimes(row: int, col: int, numColumns: int, k: nat): (int, int)
    decreases k
  {
    if k == 0 then (row, col)
    else
      var next := Advance(row, col, numColumns, false);
      AdvanceTimes(next.0, next.1, numColumns, k - 1)
  }

  /** `k` cells, fewer than the column count, from the start of a row fill its first `k` columns. */
  lemma {:induction false} PartialRow(row: int, col: int, numColumns: int, k: nat)
    requires 0 <= col && col + k < numColumns
    ensures AdvanceTimes(row, col, numColumns, k) == (row, col + k)
    decreases k
  {
    if k > 0 {
      AdvanceWithinRow(row, col, numColumns);
      PartialRow(row, col + 1, numColumns, k - 1);
    }
  }

  /** A full row of cells, one per column, ends at column 0 of the next row. */
  lemma FullRowWraps(row: int, numColumns: int)
    requires 0 < numColumns
    ensures AdvanceTimes(row, 0, numColumns, numColumns) == (row + 1, 0)
  {
    PartialRow(row, 0, numColumns, numColumns - 1);
    AdvanceTimesLast(row, 0, numColumns, numColumns);
    AdvanceFromLastColumn(row, numColumns);
  }

  /** `AdvanceTimes` peels its last step off the end. */
  lemma {:induction false} AdvanceTimesLast(row: int, col: int, numColumns: int, k: nat)
    requires k > 0
    ensures var before := AdvanceTimes(row, col, numColumns, k - 1);
            AdvanceTimes(row, col, numColumns, k) == Advance(before.0, before.1, numColumns, false)
    decreases k
  {
    if k > 1 {
      var next := Advance(row, col, numColumns, false);
      AdvanceTimesLast(next.0, next.1, numColumns, k - 1);
    }
  }

  /** The width every column gets: the window width split evenly, truncated
      toward zero. A non-negative width is filled to within less than one
      pixel per column without being exceeded; a negative one is never
      undershot, by less than one pixel per column. */
  function ColumnWidth(windowWidth: int, numColumns: int): (w: int)
    requires numColumns > 0
    ensures windowWidth >= 0 ==> w >= 0 && w * numColumns <= windowWidth < w * numColumns + numColumns
    ensures windowWidth < 0 ==> w <= 0 && w * numColumns - numColumns < windowWidth <= w * numColumns
  {
    if windowWidth >= 0 then
      DivNonNegative(windowWidth, numColumns);
      Div(windowWidth, numColumns)
    else
      DivNonNegative(-windowWidth, numColumns);
      DivNegate(windowWidth, numColumns);
      Div(windowWidth, numColumns)
  }

  /** The column indices `0 .. numColumns - 1`. */
  function ColumnIndices(numColumns: int): (s: set<int>)
    ensures forall i :: i in s <==> 0 <= i < numColumns
    decreases numColumns
  {
    if numColumns <= 0 then {} else ColumnIndices(numColumns - 1) + {numColumns - 1}
  }

  /** The column widths after `ResizeColumns`: with columns and a window
      rectangle, columns 0 to `numColumns - 1` get the even share; otherwise
      nothing changes. */
  function ResizedWidths(widths: map<int, int>, numColumns: int, windowRect: Option<WinRect>): (r: map<int, int>)
    requires windowRect.Some? && numColumns > 0 ==> InInt32(windowRect.value.right - windowRect.value.left)
    ensures numColumns > 0 && windowRect.Some? ==>
              forall i :: 0 <= i < numColumns ==>
                i in r && r[i] == ColumnWidth(windowRect.value.right - windowRect.value.left, numColumns)
    ensures forall i :: i in r <==> i in widths || (numColumns > 0 && windowRect.Some? && 0 <= i < numColumns)
    ensures forall i :: i in widths && !(numColumns > 0 && windowRect.Some? && 0 <= i < numColumns) ==>
              r[i] == widths[i]
  {
    if numColumns <= 0 || windowRect.None? then widths
    else
      var w := ColumnWidth(windowRect.value.right - windowRect.value.left, numColumns);
      widths + map i | i in ColumnIndices(numColumns) :: w
  }

  /** Resizing again to the same window changes nothing more. */
  lemma ResizedWidthsIdempotent(widths: map<int, int>, numColumns: int, windowRect: Option<WinRect>)
    requires windowRect.Some? && numColumns > 0 ==> InInt32(windowRect.value.right - windowRect.value.left)
    ensures var once := ResizedWidths(widths, numColumns, windowRect);
            ResizedWidths(once, numColumns, windowRect) == once
  {
    var once := ResizedWidths(widths, numColumns, windowRect);
    var twice := ResizedWidths(once, numColumns, windowRect);
    assert twice.Keys == once.Keys;
    assert forall i | i in once :: twice[i] == once[i];
  }

  /** `text` without one trailing newline, and whether there was one. */
  function StripNewline(text: string): (r: (string, bool))
    ensures r.1 <==> |text| > 0 && text[|text| - 1] == '\n'
    ensures r.0 + (if r.1 then "\n" else "") == text
  {
    if |text| > 0 && text[|text| - 1] == '\n' then (text[..|text| - 1], true) else (text, false)
  }

  /** Only one newline is removed: a cell ending in two keeps the first. */
  lemma StripNewlineRemovesOne(body: string)
    ensures StripNewline(body + "\n\n") == (body + "\n", true)
  {
    assert (body + "\n\n")[..|body| + 1] == body + "\n";
  }

  class ListView {
    /** `mNextColIndex`, which `mNumColumns` refers to: the column count. */
    var nextColIndex: int
    var curRow: int
    var curCol: int
    /** The widths the control was told to use, by column index. */
    var columnWidths: map<int, int>

    ghost predicate Valid()
      reads this
    {
      0 <= nextColIndex && 0 <= curRow && 0 <= curCol
    }

    /** A new list view: no columns, cursor at row 0, column 0. */
    constructor ()
      ensures Valid()
      ensures nextColIndex == 0 && curRow == 0 && curCol == 0 && columnWidths == map[]
    {
      nextColIndex, curRow, curCol := 0, 0, 0;
      columnWidths := map[];
    }

    /** `InsertColumn()`: `osIndex` is the index the control reports for the
        new column. A negative index is a failure and changes nothing;
        otherwise the column count becomes one past it. */
    method InsertColumn(osIndex: int) returns (ok: bool)
      requires Valid() && INT32_MIN <= osIndex < INT32_MAX
      modifies this
      ensures Valid()
      ensures ok <==> osIndex >= 0
      ensures nextColIndex == if ok then osIndex + 1 else old(nextColIndex)
      ensures curRow == old(curRow) && curCol == old(curCol) && columnWidths == old(columnWidths)
    {
      var newIndex := osIndex;
      if newIndex < 0 {
        return false;
      }
      nextColIndex := newIndex + 1;
      return true;
    }

    /** `IncrementCurRowCol(hasNewline)`. */
    method IncrementCurRowCol(hasNewline: bool)
      requires Valid() && InInt32(curRow + 1) && InInt32(curCol + 1)
      modifies this
      ensures Valid()
      ensures (curRow, curCol) == Advance(old(curRow), old(curCol), nextColIndex, hasNewline)
      ensures nextColIndex == old(nextColIndex) && columnWidths == old(columnWidths)
      ensures nextColIndex > 0 ==> curCol < nextColIndex
    {
      if nextColIndex == 0 {
        return;
      }
      if hasNewline {
        curCol := 0;
      } else {
        curCol := Rem(curCol + 1, nextColIndex);
      }
      if curCol == 0 {
        curRow := curRow + 1;
      }
    }

    /** `ResizeColumns()`: `windowRect` is what the window-rectangle query
        returns, `None` when it fails. */
    method ResizeColumns(windowRect: Option<WinRect>)
      requires Valid()
      requires windowRect.Some? ==> InInt32(windowRect.value.right - windowRect.value.left)
      modifies this
      ensures Valid()
      ensures columnWidths == ResizedWidths(old(columnWidths), nextColIndex, windowRect)
      ensures nextColIndex == old(nextColIndex) && curRow == old(curRow) && curCol == old(curCol)
    {
      if nextColIndex == 0 {
        return;
      }
      if windowRect.None? {
        return;
      }
      var colWidth := Div(windowRect.value.right - windowRect.value.left, nextColIndex);
      var i := 0;
      while i < nextColIndex
        invariant 0 <= i <= nextColIndex
        invariant columnWidths == old(columnWidths) + map j | j in ColumnIndices(i) :: colWidth
        invariant nextColIndex == old(nextColIndex) && curRow == old(curRow) && curCol == old(curCol)
      {
        columnWidths := columnWidths[i := colWidth];
        i := i + 1;
      }
    }

    /** `InsertCell(text)` (a null text is the empty string). At column 0 a
        new row is inserted, `insertIndex` being the row index the control
        reports: a negative one is a failure that changes nothing, row 0 is
        the first row and triggers `ResizeColumns`, and the cursor row
        becomes the reported index before it advances. At any other column
        the cell is set on the current row, `setItemOk` telling whether that
        succeeded; a failure changes nothing. */
    method InsertCell(text: string, insertIndex: int, setItemOk: bool, windowRect: Option<WinRect>)
      returns (ok: bool)
      requires Valid() && InInt32(curRow + 1) && InInt32(curCol + 1)
      requires INT32_MIN <= insertIndex < INT32_MAX
      requires windowRect.Some? ==> InInt32(windowRect.value.right - windowRect.value.left)
      modifies this
      ensures Valid()
      ensures nextColIndex == old(nextColIndex)
      ensures old(curCol) == 0 ==> (ok <==> insertIndex >= 0)
      ensures old(curCol) != 0 ==> ok == setItemOk
      ensures !ok ==> curRow == old(curRow) && curCol == old(curCol) && columnWidths == old(columnWidths)
      ensures ok && old(curCol) == 0 ==>
                (curRow, curCol) == Advance(insertIndex, 0, nextColIndex, StripNewline(text).1)
      ensures ok && old(curCol) != 0 ==>
                (curRow, curCol) == Advance(old(curRow), old(curCol), nextColIndex, StripNewline(text).1)
      ensures columnWidths == if ok && old(curCol) == 0 && insertIndex == 0
                              then ResizedWidths(old(columnWidths), nextColIndex, windowRect)
                              else old(columnWidths)
    {
      var strText := text;
      var hasNewline := |strText| > 0 && strText[|strText| - 1] == '\n';
      if hasNewline {
        strText := strText[..|strText| - 1];
      }
      assert (strText, hasNewline) == StripNewline(text);

      if curCol == 0 {
        var newIndex := insertIndex;
        if newIndex < 0 {
          return false;
        }
        if newIndex == 0 {
          ResizeColumns(windowRect);
        }
        curRow := newIndex;
        IncrementCurRowCol(hasNewline);
        return true;
      }

      if !setItemOk {
        return false;
      }
      IncrementCurRowCol(hasNewline);
      return true;
    }

    /** `Resize(cx, cy)`: the control is moved to the new size (OS side) and
        the columns are re-split over the window rectangle reported after the move. */
    method Resize(windowRect: Option<WinRect>)
      requires Valid()
      requires windowRect.Some? ==> InInt32(windowRect.value.right - windowRect.value.left)
      modifies this
      ensures Valid()
      ensures columnWidths == ResizedWidths(old(columnWidths), nextColIndex, windowRect)
      ensures nextColIndex == old(nextColIndex) && curRow == old(curRow) && curCol == old(curCol)
    {
      ResizeColumns(windowRect);
    }
  }
}
