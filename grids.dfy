// The board's contents as a value: pieces, cells, the 6-by-7 grid, Ruby's
// array indexing on it, and the "no empty cell left" test behind `tie?`.

module Grids {

  datatype Option<+T> = None | Some(value: T)

  /** The symbol a piece carries; the game gives player 1 X and player 2 O. */
  datatype Symbol = X | O

  /** One slot of the board: None for Ruby's nil, otherwise the symbol of the piece in it. */
  type Cell = Option<Symbol>

  /** The rows of the board, row 0 at the bottom; row r lists the cells of columns 0..6. */
  type Grid = seq<seq<Cell>>

  const Rows: int := 6
  const Columns: int := 7

  predicate InBoard(r: int, c: int)
  {
    0 <= r < Rows && 0 <= c < Columns
  }

  predicate WellFormed(g: Grid)
  {
    |g| == Rows && forall r :: 0 <= r < |g| ==> |g[r]| == Columns
  }

  /** The grid a new board starts with: six rows of seven nils. */
  function Empty(): (g: Grid)
    ensures WellFormed(g)
    ensures forall r, c :: InBoard(r, c) ==> g[r][c].None?
  {
    seq(Rows, _ => seq(Columns, _ => None))
  }

  /** Two well-formed grids that agree cell by cell are equal. */
  lemma SameCells(a: Grid, b: Grid)
    requires WellFormed(a) && WellFormed(b)
    requires forall r, c :: InBoard(r, c) ==> a[r][c] == b[r][c]
    ensures a == b
  {
    forall r | 0 <= r < Rows
      ensures a[r] == b[r]
    {
      assert forall c :: 0 <= c < Columns ==> a[r][c] == b[r][c];
    }
  }

  /**
   * The position Ruby's `a[i]` selects in an array of length `len`: an index
   * in [-len, len) selects the position congruent to it modulo `len` (so a
   * negative index counts back from the end); any other index selects nothing.
   */
  function RubyIndex(len: int, i: int): (k: Option<int>)
    requires len > 0
    ensures k.Some? <==> -len <= i < len
    ensures k.Some? ==> 0 <= k.value < len && k.value % len == i % len
  {
    if 0 <= i < len then Some(i)
    else if -len <= i < 0 then Some(len + i)
    else None
  }

  /**
   * What `@state[r][c]` yields: nil when row r does not exist (the scanners
   * test the row for nil before indexing into it) and otherwise row r's
   * element at Ruby index c.
   */
  function CellAt(g: Grid, r: int, c: int): (cell: Cell)
    requires WellFormed(g)
    ensures InBoard(r, c) ==> cell == g[r][c]
    ensures r >= Rows || c >= Columns || r < -Rows || c < -Columns ==> cell.None?
    ensures 0 <= r < Rows && -Columns <= c < 0 ==> cell == g[r][c + Columns]
    ensures -Rows <= r < 0 && 0 <= c < Columns ==> cell == g[r + Rows][c]
  {
    match RubyIndex(Rows, r)
    case None => None
    case Some(i) =>
      match RubyIndex(Columns, c)
      case None => None
      case Some(j) => g[i][j]
  }

  /** Ruby's `flatten` on the rows: the cells of row 0, then of row 1, and so on. */
  function Flatten(g: Grid): (cells: seq<Cell>)
    ensures (forall r :: 0 <= r < |g| ==> |g[r]| == Columns) ==>
              |cells| == Columns * |g| &&
              forall r, c :: 0 <= r < |g| && 0 <= c < Columns ==> cells[Columns * r + c] == g[r][c]
  {
    if g == [] then [] else g[0] + Flatten(g[1..])
  }

  lemma {:induction false} FlattenHolds(g: Grid, x: Cell)
    ensures x in Flatten(g) <==> exists r, c :: 0 <= r < |g| && 0 <= c < |g[r]| && g[r][c] == x
  {
    if g != [] {
      FlattenHolds(g[1..], x);
      if x in Flatten(g) {
        if x in g[0] {
          var c :| 0 <= c < |g[0]| && g[0][c] == x;
          assert 0 < |g| && 0 <= c < |g[0]| && g[0][c] == x;
        } else {
          var r, c :| 0 <= r < |g[1..]| && 0 <= c < |g[1..][r]| && g[1..][r][c] == x;
          assert 0 <= r + 1 < |g| && 0 <= c < |g[r + 1]| && g[r + 1][c] == x;
        }
      }
      if exists r, c :: 0 <= r < |g| && 0 <= c < |g[r]| && g[r][c] == x {
        var r, c :| 0 <= r < |g| && 0 <= c < |g[r]| && g[r][c] == x;
        if r == 0 {
          assert g[0][c] in g[0];
        } else {
          assert g[1..][r - 1][c] == x;
        }
      }
    }
  }

  /** `tie?`: no element of the flattened board is nil, that is, all 42 cells hold a piece. */
  function Tie(g: Grid): (tie: bool)
    requires WellFormed(g)
    ensures tie <==> forall r, c :: InBoard(r, c) ==> g[r][c].Some?
  {
    FlattenHolds(g, None);
    None !in Flatten(g)
  }
}
