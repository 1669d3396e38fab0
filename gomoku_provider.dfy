/**
 * The rule engine behind the game service (`Gomoku`): a board held as two
 * coordinate lists, a move check, in-place placement and the win check from
 * the last stone. Colours are the source's free strings: "black" selects the
 * black list and any other colour the white list, except when the board is
 * indexed by the colour name itself, where only "black" and "white" exist.
 */
module GomokuProvider {
  import opened Wrappers
  import opened WinRule

  /** `ValueError` raised by `move`, `KeyError` raised by `board[color]`. */
  datatype MoveError = InvalidMove | KeyError

  /** The board dictionary `{"black": [...], "white": [...]}`, updated in place. */
  class Board {
    var black: seq<Coord>
    var white: seq<Coord>

    constructor ()
      ensures black == [] && white == []
    {
      black := [];
      white := [];
    }
  }

  /** A new board with both stone lists empty. */
  method CreateBoard() returns (board: Board)
    ensures fresh(board)
    ensures board.black == [] && board.white == []
  {
    board := new Board();
  }

  /** The list `is_valid_move` and `move` use: the black list for "black", the white list otherwise. */
  function MoverList(board: Board, color: string): (stones: seq<Coord>)
    reads board
  {
    if color == "black" then board.black else board.white
  }

  /** The list `board[color]` names, if `color` is a key of the board. */
  function Pieces(board: Board, color: string): (stones: Option<seq<Coord>>)
    reads board
  {
    if color == "black" then Some(board.black)
    else if color == "white" then Some(board.white)
    else None
  }

  predicate InBounds(x: int, y: int)
  {
    0 <= x <= BoardSize - 1 && 0 <= y <= BoardSize - 1
  }

  /**
   * A move is valid when the cell is on the board and not already in the
   * mover's own list; the opponent's list is never looked at.
   */
  function IsValidMove(board: Board, color: string, x: int, y: int): (ok: bool)
    reads board
    ensures !InBounds(x, y) ==> !ok
    ensures InBounds(x, y) ==> (ok <==> (x, y) !in MoverList(board, color))
  {
    if x < 0 || x > BoardSize - 1 || y < 0 || y > BoardSize - 1 then false
    else if color == "black" then (x, y) !in board.black
    else (x, y) !in board.white
  }

  /** Validity does not depend on the opponent's stones: two boards that agree on the mover's list agree on it. */
  lemma ValidityIgnoresOpponent(b1: Board, b2: Board, color: string, x: int, y: int)
    requires MoverList(b1, color) == MoverList(b2, color)
    ensures IsValidMove(b1, color, x, y) == IsValidMove(b2, color, x, y)
  {
  }

  const ProviderDirections: seq<Coord> :=
    [(1, 0), (0, 1), (-1, 0), (0, -1), (1, 1), (-1, -1), (1, -1), (-1, 1)]

  /**
   * Walks the eight rays from the last stone, at most four cells each, and
   * reports a win when one ray holds four more of the mover's stones.
   * `probes` counts the cells looked up.
   */
  method CheckWinWithLastMove(board: Board, color: string, lastX: int, lastY: int)
    returns (r: Result<bool, MoveError>, ghost probes: nat)
    ensures Pieces(board, color).None? ==> r == Failure(KeyError)
    ensures Pieces(board, color).Some? ==> r == Success(WinAt(Pieces(board, color).value, lastX, lastY))
    ensures probes <= 32
  {
    probes := 0;
    if color != "black" && color != "white" {
      return Failure(KeyError), probes;
    }
    var pieces := if color == "black" then board.black else board.white;
    for k := 0 to |ProviderDirections|
      invariant probes <= 4 * k
      invariant forall j :: 0 <= j < k ==> !RayFull(pieces, lastX, lastY, ProviderDirections[j])
    {
      var d := ProviderDirections[k];
      var count := 1;
      for i := 1 to 5
        invariant count == i
        invariant forall j :: 1 <= j < i ==> Step(lastX, lastY, d, j) in pieces
        invariant probes <= 4 * k + i - 1
      {
        var x := lastX + d.0 * i;
        var y := lastY + d.1 * i;
        probes := probes + 1;
        if (x, y) in pieces {
          count := count + 1;
        } else {
          assert Step(lastX, lastY, d, i) !in pieces;
          break;
        }
      }
      if count >= 5 {
        assert RayFull(pieces, lastX, lastY, d) && d in Directions;
        return Success(true), probes;
      }
    }
    forall d | d in Directions
      ensures !RayFull(pieces, lastX, lastY, d)
    {
      assert d in ProviderDirections;
    }
    return Success(false), probes;
  }

  /**
   * Places a stone for `color` in place and reports whether it wins. An
   * invalid move raises and leaves the board alone; for a colour other than
   * "black" or "white" the stone is appended to the white list before the
   * win check raises `KeyError`.
   */
  method Move(board: Board, color: string, x: int, y: int) returns (r: Result<bool, MoveError>)
    modifies board
    ensures !old(IsValidMove(board, color, x, y)) ==>
              r == Failure(InvalidMove) && board.black == old(board.black) && board.white == old(board.white)
    ensures old(IsValidMove(board, color, x, y)) ==>
              && MoverList(board, color) == old(MoverList(board, color)) + [(x, y)]
              && (color == "black" ==> board.white == old(board.white))
              && (color != "black" ==> board.black == old(board.black))
              && r == (if Pieces(board, color).Some? then Success(WinAt(MoverList(board, color), x, y))
                       else Failure(KeyError))
    ensures old(IsValidMove(board, color, x, y)) ==> !IsValidMove(board, color, x, y)
  {
    if !IsValidMove(board, color, x, y) {
      return Failure(InvalidMove);
    }
    if color == "black" {
      board.black := board.black + [(x, y)];
    } else {
      board.white := board.white + [(x, y)];
    }
    ghost var probes;
    r, probes := CheckWinWithLastMove(board, color, x, y);
  }
}
