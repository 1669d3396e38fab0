/**
 * The rules inside the board page: the 19x19 grid rebuilt from the two stone
 * lists after every fetch, whose turn the page shows, which clicks it sends
 * to the legacy engine, and the heading text.
 */
module BoardView {
  import opened Wrappers
  import opened WinRule
  import LegacyEngine

  /** `EMPTY = 0`, `BLACK = 1`, `WHITE = 2`. */
  datatype Cell = Empty | Black | White

  /** The body of `api.makeMove(x, y, player)`. */
  datatype MoveRequest = MoveRequest(x: int, y: int, player: string)

  /** JavaScript truthiness of the `winner` field: null and "" are false. */
  predicate Truthy(winner: Option<string>)
  {
    winner.Some? && winner.value != ""
  }

  /** What cell (x, y) shows: white over black over empty. */
  function Shown(black: seq<Coord>, white: seq<Coord>, x: int, y: int): (cell: Cell)
  {
    if (x, y) in white then White else if (x, y) in black then Black else Empty
  }

  /** The assignments `grid[y][x] = v` the `forEach` loops make, one per stone, in order. */
  function Writes(stones: seq<Coord>, v: Cell): (w: seq<(Coord, Cell)>)
    ensures |w| == |stones|
    ensures forall k :: 0 <= k < |stones| ==> w[k] == (stones[k], v)
  {
    seq(|stones|, k requires 0 <= k < |stones| => (stones[k], v))
  }

  /** The value cell (x, y) holds after `writes`, in a grid that started all Empty. */
  function LastWrite(writes: seq<(Coord, Cell)>, x: int, y: int): (cell: Cell)
  {
    if writes == [] then Empty
    else if writes[|writes| - 1].0 == (x, y) then writes[|writes| - 1].1
    else LastWrite(writes[..|writes| - 1], x, y)
  }

  lemma WritesSnoc(stones: seq<Coord>, c: Coord, v: Cell)
    ensures Writes(stones + [c], v) == Writes(stones, v) + [(c, v)]
  {
  }

  /** One more assignment overrides the cell it names and no other. */
  lemma LastWriteSnoc(writes: seq<(Coord, Cell)>, w: (Coord, Cell), x: int, y: int)
    ensures LastWrite(writes + [w], x, y) == if w.0 == (x, y) then w.1 else LastWrite(writes, x, y)
  {
    assert (writes + [w])[..|writes|] == writes;
  }

  /** Painting one colour's stones leaves exactly those cells in that colour. */
  lemma {:induction false} LastWriteOfStones(prior: seq<(Coord, Cell)>, stones: seq<Coord>, v: Cell, x: int, y: int)
    ensures LastWrite(prior + Writes(stones, v), x, y) == if (x, y) in stones then v else LastWrite(prior, x, y)
    decreases |stones|
  {
    if stones == [] {
      assert prior + Writes(stones, v) == prior;
    } else {
      var rest, c := stones[..|stones| - 1], stones[|stones| - 1];
      assert stones == rest + [c];
      WritesSnoc(rest, c, v);
      assert prior + Writes(stones, v) == (prior + Writes(rest, v)) + [(c, v)];
      LastWriteSnoc(prior + Writes(rest, v), (c, v), x, y);
      LastWriteOfStones(prior, rest, v, x, y);
    }
  }

  /**
   * Painting the black stones and then the white ones leaves every cell showing
   * white if it is in the white list, else black if in the black list, else
   * empty: a cell listed in both shows white.
   */
  lemma LastWriteIsShown(black: seq<Coord>, white: seq<Coord>, x: int, y: int)
    ensures LastWrite(Writes(black, Black) + Writes(white, White), x, y) == Shown(black, white, x, y)
  {
    LastWriteOfStones(Writes(black, Black), white, White, x, y);
    LastWriteOfStones([], black, Black, x, y);
    assert [] + Writes(black, Black) == Writes(black, Black);
  }

  /** Some stone has a row outside the grid, so `grid[y]` is undefined and the assignment throws. */
  predicate BadRow(stones: seq<Coord>)
  {
    exists k :: 0 <= k < |stones| && !(0 <= stones[k].1 < BoardSize)
  }

  /**
   * Builds the grid `fetchGame` shows: a stone `(x, y)` goes to row `y`,
   * column `x`, black stones first and white ones after. A stone whose row is
   * off the grid makes the page throw (None); one whose column is off the grid
   * changes no visible cell.
   */
  method BuildGrid(black: seq<Coord>, white: seq<Coord>) returns (r: Option<array2<Cell>>)
    ensures r.None? <==> BadRow(black) || BadRow(white)
    ensures r.Some? ==> r.value.Length0 == BoardSize && r.value.Length1 == BoardSize
    ensures r.Some? ==> forall row, col :: 0 <= row < BoardSize && 0 <= col < BoardSize ==>
                          r.value[row, col] == Shown(black, white, col, row)
  {
    var grid := new Cell[BoardSize, BoardSize]((_, _) => Empty);
    for k := 0 to |black|
      invariant forall j :: 0 <= j < k ==> 0 <= black[j].1 < BoardSize
      invariant forall row, col :: 0 <= row < BoardSize && 0 <= col < BoardSize ==>
                  grid[row, col] == LastWrite(Writes(black[..k], Black), col, row)
    {
      var x, y := black[k].0, black[k].1;
      if !(0 <= y < BoardSize) {
        return None;
      }
      if 0 <= x < BoardSize {
        grid[y, x] := Black;
      }
      assert black[..k + 1] == black[..k] + [black[k]];
      WritesSnoc(black[..k], black[k], Black);
    }
    assert black[..|black|] == black;
    assert Writes(black, Black) + Writes(white[..0], White) == Writes(black, Black);
    for k := 0 to |white|
      invariant forall j :: 0 <= j < k ==> 0 <= white[j].1 < BoardSize
      invariant forall row, col :: 0 <= row < BoardSize && 0 <= col < BoardSize ==>
                  grid[row, col] == LastWrite(Writes(black, Black) + Writes(white[..k], White), col, row)
    {
      var x, y := white[k].0, white[k].1;
      if !(0 <= y < BoardSize) {
        return None;
      }
      if 0 <= x < BoardSize {
        grid[y, x] := White;
      }
      assert white[..k + 1] == white[..k] + [white[k]];
      WritesSnoc(white[..k], white[k], White);
      assert Writes(black, Black) + Writes(white[..k + 1], White)
          == (Writes(black, Black) + Writes(white[..k], White)) + [(white[k], White)];
    }
    assert white[..|white|] == white;
    forall row, col | 0 <= row < BoardSize && 0 <= col < BoardSize
      ensures grid[row, col] == Shown(black, white, col, row)
    {
      LastWriteIsShown(black, white, col, row);
    }
    return Some(grid);
  }

  /**
   * The player the page shows after a fetch: kept as it was while there is a
   * winner, otherwise White exactly when black has more stones than white.
   */
  function CurrentPlayerAfterFetch(winner: Option<string>, current: Cell, blackCount: nat, whiteCount: nat): (p: Cell)
    ensures Truthy(winner) ==> p == current
    ensures !Truthy(winner) ==> p != Empty && (p == White <==> blackCount > whiteCount)
  {
    if !Truthy(winner) then (if blackCount > whiteCount then White else Black) else current
  }

  /** With black moving first and the colours alternating, the page shows Black after an even number of moves and White after an odd one. */
  lemma TurnAlternates(moves: nat, current: Cell)
    ensures CurrentPlayerAfterFetch(None, current, (moves + 1) / 2, moves / 2) == if moves % 2 == 0 then Black else White
  {
  }

  /**
   * `handleCellClick`: a click on an empty cell while there is no winner sends
   * a move with `x` the column and `y` the row, for the colour the page shows;
   * any other click sends nothing.
   */
  function HandleCellClick(board: array2<Cell>, winner: Option<string>, current: Cell, row: int, col: int)
    : (req: Option<MoveRequest>)
    reads board
    requires 0 <= row < board.Length0 && 0 <= col < board.Length1
    ensures req.Some? <==> board[row, col] == Empty && !Truthy(winner)
    ensures req.Some? ==> req.value.x == col && req.value.y == row
    ensures req.Some? ==> req.value.player == (if current == Black then "black" else "white")
  {
    if board[row, col] != Empty || Truthy(winner) then None
    else Some(MoveRequest(col, row, if current == Black then "black" else "white"))
  }

  /**
   * A click on an empty cell of the grid built from the engine's lists is
   * accepted by the legacy engine, and once the lists are fetched again the
   * new stone shows in the cell that was clicked.
   */
  lemma ClickedStoneAppears(black: seq<Coord>, white: seq<Coord>, current: Cell, row: int, col: int)
    requires 0 <= row < BoardSize && 0 <= col < BoardSize
    requires Shown(black, white, col, row) == Empty
    ensures var player := if current == Black then "black" else "white";
            && LegacyEngine.Accepts(black, white, player, col, row)
            && (player == "black" ==> Shown(black + [(col, row)], white, col, row) == Black)
            && (player == "white" ==> Shown(black, white + [(col, row)], col, row) == White)
  {
  }

  /** The heading: who won, or whose turn it is. */
  function PlayerTurnText(winner: Option<string>, current: Cell): (text: string)
    ensures Truthy(winner) && winner.value == "black" ==> text == "Black Wins!"
    ensures Truthy(winner) && winner.value != "black" ==> text == "White Wins!"
    ensures !Truthy(winner) ==> text == (if current == Black then "Black's Turn" else "White's Turn")
  {
    if Truthy(winner) then (if winner.value == "black" then "Black Wins!" else "White Wins!")
    else if current == Black then "Black's Turn" else "White's Turn"
  }
}
