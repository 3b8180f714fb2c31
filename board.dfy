// The Board class: a 6-by-7 grid updated in place by gravity placement and
// read by the column, win and tie queries.

module Boards {
  import opened Grids
  import opened Lines
  import opened Gravity

  class Board {
    /** `@state`: cell (r, c) is row r (row 0 at the bottom), column c. */
    var state: array2<Cell>

    ghost predicate Valid()
      reads this
    {
      state.Length0 == Rows && state.Length1 == Columns
    }

    /** The board's contents as a grid value. */
    function Cells(): (g: Grid)
      reads this, state
      requires Valid()
      ensures WellFormed(g)
      ensures forall r, c :: InBoard(r, c) ==> g[r][c] == state[r, c]
    {
      var a := state;
      seq(Rows, r requires 0 <= r < Rows reads a =>
        seq(Columns, c requires 0 <= c < Columns reads a => a[r, c]))
    }

    /** `initialize`: six rows of seven empty cells. */
    constructor ()
      ensures Valid() && fresh(state)
      ensures Cells() == Empty()
    {
      state := new Cell[Rows, Columns]((r, c) => None);
      new;
      SameCells(Cells(), Empty());
    }

    /**
     * `update_state`: walk the rows of `column` upward and put `piece` into
     * the first empty cell; a full column is left as it is.
     */
    method UpdateState(piece: Symbol, column: int)
      requires Valid() && 0 <= column < Columns
      modifies state
      ensures Valid()
      ensures Cells() == Place(old(Cells()), piece, column)
      ensures forall r, c :: InBoard(r, c) && old(state[r, c]).Some? ==> state[r, c] == old(state[r, c])
      ensures Stacked(old(Cells())) ==> Stacked(Cells())
    {
      ghost var g := Cells();
      var r := 0;
      while r < Rows
        invariant 0 <= r <= Rows
        invariant Cells() == g
        invariant forall k :: 0 <= k < r ==> state[k, column].Some?
      {
        if state[r, column].None? {
          state[r, column] := Some(piece);
          assert FirstEmptyFrom(g, column, 0) == Some(r);
          SameCells(Cells(), Place(g, piece, column));
          break;
        }
        r := r + 1;
      }
      PlaceKeepsPieces(g, piece, column);
      if Stacked(g) {
        PlaceKeepsStacked(g, piece, column);
      }
    }

    /** `column_full?`: no row of `column` is nil. */
    method ColumnFull(column: int) returns (full: bool)
      requires Valid() && 0 <= column < Columns
      ensures full <==> ColumnFilled(Cells(), column)
    {
      full := true;
      var r := 0;
      while r < Rows
        invariant 0 <= r <= Rows
        invariant forall k :: 0 <= k < r ==> state[k, column].Some?
      {
        if state[r, column].None? {
          full := false;
          break;
        }
        r := r + 1;
      }
    }

    /** `valid_column?`: the columns are numbered 0 to 6. */
    function ValidColumn(column: int): (valid: bool)
      ensures valid <==> 0 <= column < Columns
    {
      column >= 0 && column < 7
    }

    /** `@state[r][c]` with Ruby's indexing: nil off the top or right edge, wrapping for a negative column. */
    function At(r: int, c: int): (cell: Cell)
      reads this, state
      requires Valid()
      ensures cell == CellAt(Cells(), r, c)
    {
      match RubyIndex(Rows, r)
      case None => None
      case Some(i) =>
        match RubyIndex(Columns, c)
        case None => None
        case Some(j) => state[i, j]
    }

    /** `row.all? { |cell| cell.nil? }` for row i. */
    function RowBlank(i: int): (blank: bool)
      reads this, state
      requires Valid() && 0 <= i < Rows
      ensures blank ==> forall j :: 0 <= j < Columns ==> Cells()[i][j].None?
    {
      forall j :: 0 <= j < Columns ==> state[i, j].None?
    }

    /**
     * The test inside the scanners' loops at cell (i, j): the cell is not nil,
     * the next three cells in direction (dr, dc) are not nil, and their pieces
     * have the cell's symbol.
     */
    function HitAt(i: int, j: int, dr: int, dc: int): (hit: bool)
      reads this, state
      requires Valid() && InBoard(i, j)
      ensures hit <==> Hit(Cells(), i, j, dr, dc)
    {
      var cell := state[i, j];
      if cell.Some? && At(i + dr, j + dc).Some? && At(i + 2 * dr, j + 2 * dc).Some? && At(i + 3 * dr, j + 3 * dc).Some? then
        var symbol := cell.value;
        At(i + dr, j + dc).value == symbol && At(i + 2 * dr, j + 2 * dc).value == symbol && At(i + 3 * dr, j + 3 * dc).value == symbol
      else
        false
    }

    /**
     * The loop the four scanners share: visit the rows bottom-up, skip a row
     * with no piece, visit its cells left to right, and stop at the first cell
     * whose next three cells in direction (dr, dc) hold pieces of its symbol.
     */
    method Scan(dr: int, dc: int) returns (win: bool)
      requires Valid()
      ensures win <==> Scans(Cells(), dr, dc)
    {
      ghost var g := Cells();
      win := false;
      var i := 0;
      while i < Rows
        invariant 0 <= i <= Rows
        invariant !win
        invariant forall i', j' :: 0 <= i' < i && 0 <= j' < Columns ==> !Hit(g, i', j', dr, dc)
      {
        if !RowBlank(i) {
          var j := 0;
          while j < Columns
            invariant 0 <= j <= Columns
            invariant !win
            invariant forall j' :: 0 <= j' < j ==> !Hit(g, i, j', dr, dc)
          {
            if HitAt(i, j, dr, dc) {
              win := true;
              return;
            }
            j := j + 1;
          }
        }
        i := i + 1;
      }
    }

    /** `row_win?`: some row holds four pieces of one symbol in consecutive columns. */
    method RowWin() returns (win: bool)
      requires Valid()
      ensures win <==> RowFour(Cells())
    {
      win := Scan(0, 1);
      RowScan(Cells());
    }

    /** `column_win?`: some column holds four pieces of one symbol in consecutive rows. */
    method ColumnWin() returns (win: bool)
      requires Valid()
      ensures win <==> ColumnFour(Cells())
    {
      win := Scan(1, 0);
      ColumnScan(Cells());
    }

    /** `diagonal_right_win?`: some diagonal going up and right holds four pieces of one symbol. */
    method DiagonalRightWin() returns (win: bool)
      requires Valid()
      ensures win <==> RightDiagonalFour(Cells())
    {
      win := Scan(1, 1);
      RightDiagonalScan(Cells());
    }

    /**
     * `diagonal_left_win?`: a diagonal going up and left holds four pieces of
     * one symbol, its columns read modulo 7 because Ruby wraps negative indices.
     * Every ordinary up-left four is found.
     */
    method DiagonalLeftWin() returns (win: bool)
      requires Valid()
      ensures win <==> CylinderLeftDiagonalFour(Cells())
      ensures LeftDiagonalFour(Cells()) ==> win
    {
      win := Scan(1, -1);
      LeftDiagonalScan(Cells());
    }

    /** `win?`: the disjunction of the four directional checks, in the source's order. */
    method Win() returns (win: bool)
      requires Valid()
      ensures win <==> RowFour(Cells()) || ColumnFour(Cells()) || RightDiagonalFour(Cells()) || CylinderLeftDiagonalFour(Cells())
    {
      win := RowWin();
      if !win {
        win := ColumnWin();
      }
      if !win {
        win := DiagonalRightWin();
      }
      if !win {
        win := DiagonalLeftWin();
      }
    }

    /** `tie?`: every one of the 42 cells holds a piece, whether or not the board is won. */
    function Tie(): (tie: bool)
      reads this, state
      requires Valid()
      ensures tie <==> forall r, c :: InBoard(r, c) ==> state[r, c].Some?
    {
      Grids.Tie(Cells())
    }
  }
}
