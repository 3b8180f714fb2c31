// Gravity placement: where `update_state` puts a piece, what it leaves alone,
// and how a column fills up under repeated placements.

module Gravity {
  import opened Grids

  /** Every row of `column` holds a piece. */
  predicate ColumnFilled(g: Grid, column: int)
    requires WellFormed(g) && 0 <= column < Columns
  {
    forall r :: 0 <= r < Rows ==> g[r][column].Some?
  }

  /**
   * The first empty row of `column` at or above row `from`, found by walking
   * the rows upward as `update_state` does; None when every such row is taken.
   */
  function FirstEmptyFrom(g: Grid, column: int, from: int): (r: Option<int>)
    requires WellFormed(g) && 0 <= column < Columns && 0 <= from <= Rows
    ensures r.None? <==> forall k :: from <= k < Rows ==> g[k][column].Some?
    ensures r.Some? ==> from <= r.value < Rows && g[r.value][column].None?
    ensures r.Some? ==> forall k :: from <= k < r.value ==> g[k][column].Some?
    decreases Rows - from
  {
    if from == Rows then None
    else if g[from][column].None? then Some(from)
    else FirstEmptyFrom(g, column, from + 1)
  }

  /** The grid after `update_state(piece, column)`. */
  function Place(g: Grid, piece: Symbol, column: int): (h: Grid)
    requires WellFormed(g) && 0 <= column < Columns
    ensures WellFormed(h)
  {
    match FirstEmptyFrom(g, column, 0)
    case None => g
    case Some(r) => g[r := g[r][column := Some(piece)]]
  }

  /**
   * Placing into a full column changes nothing; otherwise the piece lands in
   * the lowest empty row of the column, every row below it being occupied,
   * and no other cell changes.
   */
  lemma PlaceDrops(g: Grid, piece: Symbol, column: int)
    requires WellFormed(g) && 0 <= column < Columns
    ensures ColumnFilled(g, column) ==> Place(g, piece, column) == g
    ensures !ColumnFilled(g, column) ==>
      exists r :: 0 <= r < Rows && g[r][column].None? &&
        (forall k :: 0 <= k < r ==> g[k][column].Some?) &&
        Place(g, piece, column)[r][column] == Some(piece) &&
        forall r', c' :: InBoard(r', c') && (r', c') != (r, column) ==> Place(g, piece, column)[r'][c'] == g[r'][c']
  {
  }

  /** A piece already on the board is never overwritten or removed. */
  lemma PlaceKeepsPieces(g: Grid, piece: Symbol, column: int)
    requires WellFormed(g) && 0 <= column < Columns
    ensures forall r, c :: InBoard(r, c) && g[r][c].Some? ==> Place(g, piece, column)[r][c] == g[r][c]
  {
  }

  /** In every column the occupied cells form one run starting at row 0. */
  ghost predicate Stacked(g: Grid)
    requires WellFormed(g)
  {
    forall r, c :: InBoard(r, c) && 0 < r && g[r][c].Some? ==> g[r - 1][c].Some?
  }

  /** Placement keeps every column stacked from the bottom. */
  lemma PlaceKeepsStacked(g: Grid, piece: Symbol, column: int)
    requires WellFormed(g) && 0 <= column < Columns && Stacked(g)
    ensures Stacked(Place(g, piece, column))
  {
  }

  /** The grid after placing `pieces` one after another into `column`. */
  function PlaceAll(g: Grid, pieces: seq<Symbol>, column: int): (h: Grid)
    requires WellFormed(g) && 0 <= column < Columns
    ensures WellFormed(h)
    decreases |pieces|
  {
    if pieces == [] then g else PlaceAll(Place(g, pieces[0], column), pieces[1..], column)
  }

  /** A placement into a column whose rows 0..n-1 are exactly the taken ones fills row n and nothing else. */
  lemma PlaceOnTop(g: Grid, piece: Symbol, column: int, n: int)
    requires WellFormed(g) && 0 <= column < Columns && 0 <= n < Rows
    requires forall r :: 0 <= r < Rows ==> (g[r][column].Some? <==> r < n)
    ensures forall r, c :: InBoard(r, c) ==>
      Place(g, piece, column)[r][c] == if r == n && c == column then Some(piece) else g[r][c]
  {
  }

  /**
   * If rows 0..n-1 of `column` are occupied and the rows above are empty,
   * placing up to 6 - n pieces stacks them in order on rows n, n+1, ...,
   * leaves the rows above empty and every other column as it was.
   */
  lemma {:induction false} PlaceAllStacks(g: Grid, pieces: seq<Symbol>, column: int, n: int)
    requires WellFormed(g) && 0 <= column < Columns
    requires 0 <= n && n + |pieces| <= Rows
    requires forall r :: 0 <= r < Rows ==> (g[r][column].Some? <==> r < n)
    ensures forall r :: 0 <= r < Rows ==>
      PlaceAll(g, pieces, column)[r][column] ==
        if r < n then g[r][column]
        else if r < n + |pieces| then Some(pieces[r - n])
        else None
    ensures forall r, c :: InBoard(r, c) && c != column ==> PlaceAll(g, pieces, column)[r][c] == g[r][c]
    decreases |pieces|
  {
    if pieces != [] {
      var g1 := Place(g, pieces[0], column);
      PlaceOnTop(g, pieces[0], column, n);
      PlaceAllStacks(g1, pieces[1..], column, n + 1);
      assert PlaceAll(g, pieces, column) == PlaceAll(g1, pieces[1..], column);
    }
  }

  /**
   * Starting from an empty column, the column is full after exactly six
   * placements into it, not after fewer, and holds the pieces bottom-up in
   * the order they were placed.
   */
  lemma FillColumn(g: Grid, pieces: seq<Symbol>, column: int)
    requires WellFormed(g) && 0 <= column < Columns
    requires forall r :: 0 <= r < Rows ==> g[r][column].None?
    requires |pieces| <= Rows
    ensures ColumnFilled(PlaceAll(g, pieces, column), column) <==> |pieces| == Rows
    ensures forall r :: 0 <= r < |pieces| ==> PlaceAll(g, pieces, column)[r][column] == Some(pieces[r])
  {
    PlaceAllStacks(g, pieces, column, 0);
    if |pieces| < Rows {
      assert PlaceAll(g, pieces, column)[Rows - 1][column].None?;
    }
  }

  /** A placement into a full column, a seventh one included, leaves the grid unchanged. */
  lemma {:induction false} PlaceAllFull(g: Grid, pieces: seq<Symbol>, column: int)
    requires WellFormed(g) && 0 <= column < Columns && ColumnFilled(g, column)
    ensures PlaceAll(g, pieces, column) == g
    decreases |pieces|
  {
    if pieces != [] {
      PlaceDrops(g, pieces[0], column);
      PlaceAllFull(g, pieces[1..], column);
    }
  }
}
