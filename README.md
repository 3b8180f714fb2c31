# Connect Four board, modelled in Dafny

This project models the `Board` class of a console Connect Four game
(`lib/board.rb`). The board is a fixed grid of 6 rows by 7 columns. Row 0 is
the bottom row. Each cell is empty (Ruby's `nil`) or holds a piece, and a
piece matters only through its symbol, `X` or `O`. The board offers:

- gravity placement (`update_state`);
- the column queries `column_full?` and `valid_column?`;
- four directional scanners for four pieces of one symbol in a row. `win?`
  combines them;
- the full-board test `tie?`.

Layout:

- `grids.dfy` (module `Grids`): symbols, cells, the grid value, Ruby's array
  indexing (`RubyIndex`, `CellAt`), and `flatten` / `none?` behind `tie?`.
- `lines.dfy` (module `Lines`): `Hit`, the test a scanner applies at one start
  cell. It also holds the geometric fours (`FourFrom`, `RowFour`,
  `ColumnFour`, `RightDiagonalFour`, `LeftDiagonalFour`, and the
  `CylinderLeft…` variants the left scanner really reads). Lemmas show that
  each scanner finds exactly its four.
- `gravity.dfy` (module `Gravity`): placement as a function on grids (`Place`)
  and what it guarantees: where the piece lands, nothing is overwritten,
  columns stay stacked, and how a column fills.
- `board.dfy` (module `Boards`): the class `Board`. It holds a
  `array2<Cell>` updated in place, with the source's loops as methods proved
  against the functions above.
- `outcomes.dfy` (module `Outcomes`): whole-board facts. They cover the empty
  board, a full board that is also won, a full board without a win, and the
  left scanner's wrap-around.

The four Ruby scanners are four copies of one nested loop; they differ only
in the offsets of the three neighbours they read. The model writes that loop
once, as `Board.Scan(dr, dc)`. Each scanner is a method that calls it with
its direction.

## Where the code and the game's rules disagree

In Connect Four a line of four never wraps from one side edge of the board to
the other. The comment at lib/board.rb:139-140 says the same: the scan looks
at "the next 3 cells going up and left". But `diagonal_left_win?` reads
`@state[i + k][j - k]` (lib/board.rb:141, :145). For a start column `j < 3`
the index `j - k` is negative, and Ruby then counts from the end of the row,
so column `7 + j - k` is read. The model follows the code:

- `Board.DiagonalLeftWin` is true exactly on a "cylinder" four:
  `(r + k, (c - k) mod 7)` for k = 0..3.
- Every ordinary up-left four (start column 3..6) is still found.
- `Outcomes.LeftScanWraps` exhibits a board where the scan reports a win that
  is not on the board: X at (0,0), (1,6), (2,5), (3,4).

Reads past the top or the right edge return `nil` and never wrap, so the
other three scanners find exactly the fours the rules describe.

## Model

| member | source | states |
|---|---|---|
| `Grids.RubyIndex` | lib/board.rb:141-145 | Ruby's `a[i]` selects a position only for `-len <= i < len`, namely the one congruent to `i` modulo `len` |
| `Grids.CellAt` | lib/board.rb:141 | `@state[r][c]` is the cell itself on the board; nil past the top row or the right edge, and for a row below -6 or a column below -7; column `c + 7` for -7 <= c < 0 and row `r + 6` for -6 <= r < 0 |
| `Grids.Empty` | lib/board.rb:5 | the initial grid: 6 rows of 7 cells, all empty |
| `Grids.Flatten` | lib/board.rb:157 | on rows of 7 cells, `flatten` has 7 cells per row, laid out row 0's cells, then row 1's, and so on: cell (r, c) is at position 7r + c |
| `Grids.FlattenHolds` | lib/board.rb:157 | a value occurs in the flattened rows iff it is in some cell |
| `Grids.Tie` | lib/board.rb:156-158 | `tie?` holds iff every one of the 42 cells holds a piece |
| `Lines.Hit` | lib/board.rb:116-120 | the scanners' per-cell test: the start cell holds a piece and the three cells read at the next steps (with Ruby's indexing) hold the same symbol; `HitForward` and `HitLeft` give its geometric meaning |
| `Lines.HitForward` | lib/board.rb:116-120 | in a direction with non-negative steps, the scanners' per-cell test succeeds iff four same-symbol pieces start at that cell inside the board (the walk off the top or the right edge reads nil) |
| `Lines.HitLeft` | lib/board.rb:141-145 | going up and left, the per-cell test succeeds iff the four cells with columns taken modulo 7 hold same-symbol pieces |
| `Lines.CylinderLeftInside` | lib/board.rb:141-145 | from start column 3..6 the wrapped four and the ordinary up-left four coincide |
| `Lines.RowScan` | lib/board.rb:60-81 | the row scan finds a hit iff some row r and column c <= 3 have four same-symbol pieces at (r, c..c+3) |
| `Lines.ColumnScan` | lib/board.rb:83-104 | the column scan finds a hit iff some r <= 2 and column c have four same-symbol pieces at (r..r+3, c) |
| `Lines.RightDiagonalScan` | lib/board.rb:107-129 | the up-right scan finds a hit iff some r <= 2 and c <= 3 have same-symbol pieces at (r+k, c+k), k = 0..3 |
| `Lines.LeftDiagonalScan` | lib/board.rb:132-154 | the up-left scan finds a hit iff there is a four at (r+k, (c-k) mod 7) with r <= 2; every ordinary four at (r+k, c-k), c >= 3, is found |
| `Gravity.FirstEmptyFrom` | lib/board.rb:11-16 | walking the rows upward from `from`: None iff every such row of the column is taken, otherwise an empty row with every row below it (from `from`) taken |
| `Gravity.Place` | lib/board.rb:8-17 | the grid after `update_state` is again a 6 by 7 grid |
| `Gravity.PlaceDrops` | lib/board.rb:8-17 | a full column is left unchanged; otherwise the piece lands in the lowest empty row of the column, all rows below it occupied, and no other cell changes |
| `Gravity.PlaceKeepsPieces` | lib/board.rb:11-16 | placement never overwrites or clears an occupied cell |
| `Gravity.PlaceKeepsStacked` | lib/board.rb:11-16 | if each column's pieces form a run from row 0 before a placement, they still do after it |
| `Gravity.PlaceAll` | lib/board.rb:8-17 | the grid after a sequence of `update_state` calls into one column is again a 6 by 7 grid |
| `Gravity.PlaceOnTop` | lib/board.rb:11-16 | in a column whose taken rows are exactly 0..n-1, a placement fills row n and changes no other cell |
| `Gravity.PlaceAllStacks` | lib/board.rb:11-16 | pieces placed into a column whose first n rows are taken land in order on rows n, n+1, ..., the rows above stay empty and other columns are untouched |
| `Gravity.FillColumn` | lib/board.rb:41-50 | from an empty column, the column is full after k <= 6 placements iff k = 6, and holds the pieces bottom-up in insertion order |
| `Gravity.PlaceAllFull` | lib/board.rb:11-16 | placements into a full column (a seventh one included) leave the grid unchanged |
| `Boards.Board.constructor` | lib/board.rb:4-6 | a new board is the empty 6 by 7 grid |
| `Boards.Board.UpdateState` | lib/board.rb:8-17 | the in-place loop leaves the grid `Place(old grid, piece, column)`, keeps every occupied cell and keeps columns stacked |
| `Boards.Board.ColumnFull` | lib/board.rb:41-50 | true iff all six rows of the column hold a piece |
| `Boards.Board.ValidColumn` | lib/board.rb:52-54 | true iff `0 <= column < 7`, for every integer |
| `Boards.Board.At` | lib/board.rb:116 | reading the array with Ruby's indexing gives `CellAt` of the board's grid |
| `Boards.Board.RowBlank` | lib/board.rb:63 | a row skipped as all-nil has no piece, so skipping it loses no hit |
| `Boards.Board.HitAt` | lib/board.rb:116-120 | the nested-if test on the array at (i, j) is exactly `Hit` on the board's grid |
| `Boards.Board.Scan` | lib/board.rb:60-154 | the shared nested loop returns true iff some start cell passes the per-cell test in direction (dr, dc) |
| `Boards.Board.RowWin` | lib/board.rb:60-81 | `row_win?` is true iff the board has a four in a row |
| `Boards.Board.ColumnWin` | lib/board.rb:83-104 | `column_win?` is true iff the board has a four in a column |
| `Boards.Board.DiagonalRightWin` | lib/board.rb:107-129 | `diagonal_right_win?` is true iff the board has a four on an up-right diagonal |
| `Boards.Board.DiagonalLeftWin` | lib/board.rb:132-154 | `diagonal_left_win?` is true iff there is a wrapped up-left four; any ordinary up-left four makes it true |
| `Boards.Board.Win` | lib/board.rb:56-58 | `win?` is exactly the disjunction of the four directional results |
| `Boards.Board.Tie` | lib/board.rb:156-158 | `tie?` is true iff no cell of the array is nil |
| `Outcomes.EmptyBoardQuiet` | lib/board.rb:4-6 | on the initial board no scanner finds a hit, no four exists and `tie?` is false |
| `Outcomes.FullAndWon` | lib/board.rb:156-158 | some board is a tie and has a row and a column win at once |
| `Outcomes.FullWithoutWin` | lib/board.rb:56-58 | some full board (a tie) has no four in any direction, wrapped ones included, so `win?` is false on it |
| `Outcomes.LeftScanWraps` | lib/board.rb:141-145 | some board passes the up-left scan although it has no four in any direction on the board |

## Left out

- `lib/game.rb` is not part of this model. The game loop, the turns and the
  prompts are console I/O around the board queries. Its one rule, that `win?`
  is asked before `tie?`, is sequencing, not logic.
- `display_blank_board` and the commented-out `display_board` are left out:
  they only print fixed text.
- `lib/player.rb` is not modelled: it is a record of a name and a symbol.
  `lib/piece.rb` is not part of this model. A piece is represented by its
  symbol.
- Symbols are modelled as the two values `X` and `O` the game hands out. The
  Ruby code compares arbitrary symbol strings with `==`, and two symbols only
  ever need to be compared for equality.
- Boards.Board.UpdateState and Boards.Board.ColumnFull require
  `0 <= column < 7`. With a column of 7 or more, Ruby would grow the row. With
  a negative column, it would wrap to the far end. The game calls both only
  after `valid_column?` has accepted the column.
- Boards.Board.Scan returns as soon as a hit is found. The Ruby code breaks out
  of the inner loop and then the outer one. The result is the same.
