// Four-in-a-row: the test the Ruby scanners apply at each start cell, the
// geometric fours they are meant to find, and the lemmas relating the two.

module Lines {
  import opened Grids

  /**
   * The scanners' test at start cell (i, j) in direction (dr, dc): the cell
   * holds a piece, the next three cells in that direction, read with Ruby's
   * indexing, are not nil, and their pieces carry the start cell's symbol.
   */
  predicate Hit(g: Grid, i: int, j: int, dr: int, dc: int)
    requires WellFormed(g) && InBoard(i, j)
    ensures Hit(g, i, j, dr, dc) <==>
              g[i][j].Some? &&
              CellAt(g, i + dr, j + dc) == g[i][j] &&
              CellAt(g, i + 2 * dr, j + 2 * dc) == g[i][j] &&
              CellAt(g, i + 3 * dr, j + 3 * dc) == g[i][j]
  {
    var n1, n2, n3 := CellAt(g, i + dr, j + dc), CellAt(g, i + 2 * dr, j + 2 * dc), CellAt(g, i + 3 * dr, j + 3 * dc);
    g[i][j].Some? && n1.Some? && n2.Some? && n3.Some? &&
    n1.value == g[i][j].value && n2.value == g[i][j].value && n3.value == g[i][j].value
  }

  /** Some start cell of the board passes the test in direction (dr, dc). */
  ghost predicate Scans(g: Grid, dr: int, dc: int)
    requires WellFormed(g)
  {
    exists i, j :: InBoard(i, j) && Hit(g, i, j, dr, dc)
  }

  /**
   * The four cells (r, c), (r + dr, c + dc), (r + 2dr, c + 2dc), (r + 3dr, c + 3dc)
   * all lie on the board and hold pieces with one symbol.
   */
  predicate FourFrom(g: Grid, r: int, c: int, dr: int, dc: int)
    requires WellFormed(g)
  {
    InBoard(r, c) && InBoard(r + 3 * dr, c + 3 * dc) &&
    g[r][c].Some? &&
    g[r + dr][c + dc] == g[r][c] &&
    g[r + 2 * dr][c + 2 * dc] == g[r][c] &&
    g[r + 3 * dr][c + 3 * dc] == g[r][c]
  }

  /** Four of a kind in cells (r, c..c+3) of one row. */
  ghost predicate RowFour(g: Grid)
    requires WellFormed(g)
  {
    exists r, c :: 0 <= r < Rows && 0 <= c <= Columns - 4 && FourFrom(g, r, c, 0, 1)
  }

  /** Four of a kind in cells (r..r+3, c) of one column. */
  ghost predicate ColumnFour(g: Grid)
    requires WellFormed(g)
  {
    exists r, c :: 0 <= r <= Rows - 4 && 0 <= c < Columns && FourFrom(g, r, c, 1, 0)
  }

  /** Four of a kind on a diagonal going up and right: cells (r + k, c + k). */
  ghost predicate RightDiagonalFour(g: Grid)
    requires WellFormed(g)
  {
    exists r, c :: 0 <= r <= Rows - 4 && 0 <= c <= Columns - 4 && FourFrom(g, r, c, 1, 1)
  }

  /** Four of a kind on a diagonal going up and left: cells (r + k, c - k). */
  ghost predicate LeftDiagonalFour(g: Grid)
    requires WellFormed(g)
  {
    exists r, c :: 0 <= r <= Rows - 4 && 3 <= c < Columns && FourFrom(g, r, c, 1, -1)
  }

  /**
   * Four of a kind at (r + k, (c - k) mod 7) for k = 0..3: the up-left
   * diagonal on a board whose left edge is glued to its right edge, which is
   * how Ruby's negative indices make `diagonal_left_win?` read the board.
   */
  predicate CylinderLeftFour(g: Grid, r: int, c: int)
    requires WellFormed(g)
  {
    0 <= r && r + 3 < Rows && 0 <= c < Columns &&
    g[r][c].Some? &&
    g[r + 1][(c - 1) % Columns] == g[r][c] &&
    g[r + 2][(c - 2) % Columns] == g[r][c] &&
    g[r + 3][(c - 3) % Columns] == g[r][c]
  }

  /** What `diagonal_left_win?` looks for: a cylinder up-left four from any start column. */
  ghost predicate CylinderLeftDiagonalFour(g: Grid)
    requires WellFormed(g)
  {
    exists r, c :: 0 <= r <= Rows - 4 && 0 <= c < Columns && CylinderLeftFour(g, r, c)
  }

  /** In a direction that never decreases an index, the test at a cell finds exactly a four from it. */
  lemma HitForward(g: Grid, i: int, j: int, dr: int, dc: int)
    requires WellFormed(g) && InBoard(i, j)
    requires 0 <= dr <= 1 && 0 <= dc <= 1
    ensures Hit(g, i, j, dr, dc) <==> FourFrom(g, i, j, dr, dc)
  {
  }

  /** Going up and left, the test at a cell finds exactly a cylinder four from it. */
  lemma HitLeft(g: Grid, i: int, j: int)
    requires WellFormed(g) && InBoard(i, j)
    ensures Hit(g, i, j, 1, -1) <==> CylinderLeftFour(g, i, j)
  {
  }

  /** From a start column 3..6 no index wraps, and the cylinder four is an ordinary one. */
  lemma CylinderLeftInside(g: Grid, r: int, c: int)
    requires WellFormed(g) && 3 <= c < Columns
    ensures CylinderLeftFour(g, r, c) <==> FourFrom(g, r, c, 1, -1)
  {
  }

  /** `row_win?` is true exactly when some row holds four of a kind in consecutive columns. */
  lemma RowScan(g: Grid)
    requires WellFormed(g)
    ensures Scans(g, 0, 1) <==> RowFour(g)
  {
    forall i, j | InBoard(i, j)
      ensures Hit(g, i, j, 0, 1) <==> FourFrom(g, i, j, 0, 1)
    {
      HitForward(g, i, j, 0, 1);
    }
  }

  /** `column_win?` is true exactly when some column holds four of a kind in consecutive rows. */
  lemma ColumnScan(g: Grid)
    requires WellFormed(g)
    ensures Scans(g, 1, 0) <==> ColumnFour(g)
  {
    forall i, j | InBoard(i, j)
      ensures Hit(g, i, j, 1, 0) <==> FourFrom(g, i, j, 1, 0)
    {
      HitForward(g, i, j, 1, 0);
    }
  }

  /** `diagonal_right_win?` is true exactly when some up-right diagonal holds four of a kind. */
  lemma RightDiagonalScan(g: Grid)
    requires WellFormed(g)
    ensures Scans(g, 1, 1) <==> RightDiagonalFour(g)
  {
    forall i, j | InBoard(i, j)
      ensures Hit(g, i, j, 1, 1) <==> FourFrom(g, i, j, 1, 1)
    {
      HitForward(g, i, j, 1, 1);
    }
  }

  /**
   * `diagonal_left_win?` is true exactly when there is a cylinder up-left four;
   * every ordinary up-left four is one, so the scan never misses a real win.
   */
  lemma LeftDiagonalScan(g: Grid)
    requires WellFormed(g)
    ensures Scans(g, 1, -1) <==> CylinderLeftDiagonalFour(g)
    ensures LeftDiagonalFour(g) ==> Scans(g, 1, -1)
  {
    forall i, j | InBoard(i, j)
      ensures Hit(g, i, j, 1, -1) <==> CylinderLeftFour(g, i, j)
    {
      HitLeft(g, i, j);
    }
    if LeftDiagonalFour(g) {
      var r, c :| 0 <= r <= Rows - 4 && 3 <= c < Columns && FourFrom(g, r, c, 1, -1);
      CylinderLeftInside(g, r, c);
      assert Hit(g, r, c, 1, -1);
    }
  }
}
