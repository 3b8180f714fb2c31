// Whole-board outcomes: the empty board, boards that are full, and the
// up-left scan's wrap-around across the side edges.

module Outcomes {
  import opened Grids
  import opened Lines

  /** A new board has no four in any direction, as any scanner reads it, and is no tie. */
  lemma EmptyBoardQuiet()
    ensures !Scans(Empty(), 0, 1) && !Scans(Empty(), 1, 0) && !Scans(Empty(), 1, 1) && !Scans(Empty(), 1, -1)
    ensures !RowFour(Empty()) && !ColumnFour(Empty()) && !RightDiagonalFour(Empty()) && !CylinderLeftDiagonalFour(Empty())
    ensures !Tie(Empty())
  {
    assert Empty()[0][0].None?;
  }

  /** The grid holding X in every cell. */
  function AllX(): (g: Grid)
    ensures WellFormed(g)
  {
    seq(Rows, _ => seq(Columns, _ => Some(X)))
  }

  /** `tie?` ignores wins: a full board can be won at the same time. */
  lemma FullAndWon()
    ensures exists g :: WellFormed(g) && Tie(g) && RowFour(g) && ColumnFour(g)
  {
    var g: Grid := AllX();
    assert FourFrom(g, 0, 0, 0, 1);
    assert FourFrom(g, 0, 0, 1, 0);
  }

  /** Columns 0..6 of the even rows of a drawn board; the odd rows swap X and O. */
  const DrawnRow: seq<Cell> := [Some(X), Some(X), Some(O), Some(O), Some(X), Some(X), Some(O)]

  function Swap(cell: Cell): Cell
  {
    match cell
    case Some(X) => Some(O)
    case Some(O) => Some(X)
    case None => None
  }

  /**
   * A full board with no four in any direction, even on the cylinder that
   * the up-left scan reads.
   */
  function Drawn(): (g: Grid)
    ensures WellFormed(g)
  {
    var odd := seq(Columns, c requires 0 <= c < Columns => Swap(DrawnRow[c]));
    [DrawnRow, odd, DrawnRow, odd, DrawnRow, odd]
  }

  lemma DrawnRows(r: int, c: int)
    requires InBoard(r, c)
    ensures Drawn()[r][c] == if r % 2 == 0 then DrawnRow[c] else Swap(DrawnRow[c])
  {
  }

  lemma DrawnNoRow(r: int, c: int)
    requires InBoard(r, c)
    ensures !FourFrom(Drawn(), r, c, 0, 1)
  {
  }

  lemma DrawnNoColumn(r: int, c: int)
    requires InBoard(r, c)
    ensures !FourFrom(Drawn(), r, c, 1, 0)
  {
  }

  lemma DrawnNoRightDiagonal(r: int, c: int)
    requires InBoard(r, c)
    ensures !FourFrom(Drawn(), r, c, 1, 1)
  {
  }

  lemma DrawnNoCylinderLeft(r: int, c: int)
    requires InBoard(r, c)
    ensures !CylinderLeftFour(Drawn(), r, c)
  {
  }

  /** A completely filled board with no four-in-a-row is a tie and no win. */
  lemma FullWithoutWin()
    ensures exists g: Grid ::
              WellFormed(g) && Tie(g) &&
              !RowFour(g) && !ColumnFour(g) && !RightDiagonalFour(g) && !CylinderLeftDiagonalFour(g)
  {
    var g: Grid := Drawn();
    forall r, c | InBoard(r, c)
      ensures g[r][c].Some?
      ensures !FourFrom(g, r, c, 0, 1) && !FourFrom(g, r, c, 1, 0) && !FourFrom(g, r, c, 1, 1) && !CylinderLeftFour(g, r, c)
    {
      DrawnRows(r, c);
      DrawnNoRow(r, c);
      DrawnNoColumn(r, c);
      DrawnNoRightDiagonal(r, c);
      DrawnNoCylinderLeft(r, c);
    }
  }

  /** Pieces of symbol X at (0, 0), (1, 6), (2, 5) and (3, 4), and nothing else. */
  function Wrapped(): (g: Grid)
    ensures WellFormed(g)
  {
    seq(Rows, r => seq(Columns, c =>
      if (r == 0 && c == 0) || (r == 1 && c == 6) || (r == 2 && c == 5) || (r == 3 && c == 4)
      then Some(X) else None))
  }

  /**
   * Ruby's negative indices make the up-left scan report a four that is not on
   * the board: (0, 0), (1, 6), (2, 5), (3, 4) pass its test, although no four
   * cells in any direction hold pieces of one symbol.
   */
  lemma LeftScanWraps()
    ensures exists g: Grid ::
              WellFormed(g) && Scans(g, 1, -1) &&
              !RowFour(g) && !ColumnFour(g) && !RightDiagonalFour(g) && !LeftDiagonalFour(g)
  {
    var g: Grid := Wrapped();
    assert Hit(g, 0, 0, 1, -1);
    forall r, c | InBoard(r, c) && g[r][c].Some?
      ensures !FourFrom(g, r, c, 0, 1) && !FourFrom(g, r, c, 1, 0) && !FourFrom(g, r, c, 1, 1) && !FourFrom(g, r, c, 1, -1)
    {
      assert (r == 0 && c == 0) || (r == 1 && c == 6) || (r == 2 && c == 5) || (r == 3 && c == 4);
    }
  }
}
