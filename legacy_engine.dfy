/**
 * The legacy engine behind `/game/board`, `/game/move` and `/game/reset`: one
 * process-wide game state holding the two stone lists and the winner.
 * `make_move` refuses a cell held by either colour and coordinates of 19 or
 * more (negative ones get through), appends the stone and records the mover as
 * winner when the win check succeeds. Turn order and moves after a win are not
 * checked.
 */
module LegacyEngine {
  import opened Wrappers
  import opened WinRule

  /** `getattr(board, player)` on a name that is neither list raises `AttributeError`. */
  datatype EngineError = AttributeError

  predicate NoDuplicates(s: seq<Coord>)
  {
    forall i, j :: 0 <= i < j < |s| ==> s[i] != s[j]
  }

  /** The player names that are attributes of the board. */
  predicate KnownPlayer(player: string)
  {
    player == "black" || player == "white"
  }

  predicate Occupied(black: seq<Coord>, white: seq<Coord>, x: int, y: int)
  {
    (x, y) in black || (x, y) in white
  }

  /** `make_move` appends the stone: the cell is free, the player known and both coordinates below 19. */
  predicate Accepts(black: seq<Coord>, white: seq<Coord>, player: string, x: int, y: int)
  {
    !Occupied(black, white, x, y) && KnownPlayer(player) && x < BoardSize && y < BoardSize
  }

  const LegacyDirections: seq<Coord> :=
    [(1, 0), (-1, 0), (0, 1), (0, -1), (1, 1), (-1, -1), (1, -1), (-1, 1)]

  /** The global `game_state`. */
  class GameState {
    var black: seq<Coord>
    var white: seq<Coord>
    var winner: Option<string>

    /** Neither list repeats a cell and no cell is in both. */
    ghost predicate Valid()
      reads this
    {
      NoDuplicates(black) && NoDuplicates(white) && forall c :: c in black ==> c !in white
    }

    /** The initial state: empty lists, no winner. */
    constructor ()
      ensures black == [] && white == [] && winner == None
      ensures Valid()
    {
      black, white, winner := [], [], None;
    }

    /** The list `getattr(game_state.board, player)` returns. */
    function PieceList(player: string): Option<seq<Coord>>
      reads this
    {
      if player == "black" then Some(black)
      else if player == "white" then Some(white)
      else None
    }

    /** Restores the empty board and clears the winner. */
    method ResetGame()
      modifies this
      ensures black == [] && white == [] && winner == None
      ensures Valid()
    {
      black, white, winner := [], [], None;
    }

    /**
     * Walks each of the eight rays from `(x, y)` through the player's stones
     * until a gap, returning as soon as a run reaches length 5. `steps` counts
     * the stones stepped over.
     */
    method CheckWin(player: string, x: int, y: int) returns (r: Result<bool, EngineError>, ghost steps: nat)
      ensures PieceList(player).None? ==> r == Failure(AttributeError)
      ensures PieceList(player).Some? ==> r == Success(WinAt(PieceList(player).value, x, y))
      ensures steps <= 32
    {
      steps := 0;
      if !KnownPlayer(player) {
        return Failure(AttributeError), steps;
      }
      var pieces := if player == "black" then black else white;
      for k := 0 to |LegacyDirections|
        invariant steps <= 4 * k
        invariant forall j :: 0 <= j < k ==> !RayFull(pieces, x, y, LegacyDirections[j])
      {
        var d := LegacyDirections[k];
        var length := 1;
        var cx, cy := x, y;
        while (cx + d.0, cy + d.1) in pieces
          invariant 1 <= length <= 4
          invariant (cx, cy) == Step(x, y, d, length - 1)
          invariant forall j :: 1 <= j < length ==> Step(x, y, d, j) in pieces
          invariant steps <= 4 * k + length - 1
          decreases 5 - length
        {
          assert (cx + d.0, cy + d.1) == Step(x, y, d, length);
          length := length + 1;
          cx, cy := cx + d.0, cy + d.1;
          steps := steps + 1;
          if length == 5 {
            assert RayFull(pieces, x, y, d) && d in Directions;
            return Success(true), steps;
          }
        }
        assert (cx + d.0, cy + d.1) == Step(x, y, d, length);
      }
      forall d | d in Directions
        ensures !RayFull(pieces, x, y, d)
      {
        assert d in LegacyDirections;
      }
      return Success(false), steps;
    }

    /**
     * `make_move`: returns false with nothing changed for an occupied cell or a
     * coordinate of 19 or more, raises for an unknown player, and otherwise
     * appends the stone, records the mover as winner when the stone wins and
     * returns true.
     */
    method MakeMove(player: string, x: int, y: int) returns (r: Result<bool, EngineError>)
      modifies this
      ensures Occupied(old(black), old(white), x, y) ==>
                r == Success(false) && black == old(black) && white == old(white) && winner == old(winner)
      ensures !Occupied(old(black), old(white), x, y) && !KnownPlayer(player) ==>
                r == Failure(AttributeError) && black == old(black) && white == old(white) && winner == old(winner)
      ensures !Occupied(old(black), old(white), x, y) && KnownPlayer(player) && (x >= BoardSize || y >= BoardSize) ==>
                r == Success(false) && black == old(black) && white == old(white) && winner == old(winner)
      ensures Accepts(old(black), old(white), player, x, y) ==>
                && r == Success(true)
                && (player == "black" ==> black == old(black) + [(x, y)] && white == old(white))
                && (player == "white" ==> white == old(white) + [(x, y)] && black == old(black))
                && winner == (if WinAt(PieceList(player).value, x, y) then Some(player) else old(winner))
      ensures old(Valid()) ==> Valid()
    {
      if (x, y) in black || (x, y) in white {
        return Success(false);
      }
      if !KnownPlayer(player) {
        return Failure(AttributeError);
      }
      if x >= BoardSize || y >= BoardSize {
        return Success(false);
      }
      if player == "black" {
        black := black + [(x, y)];
      } else {
        white := white + [(x, y)];
      }
      ghost var steps;
      var win;
      win, steps := CheckWin(player, x, y);
      if win == Success(true) {
        winner := Some(player);
      }
      return Success(true);
    }
  }

  /**
   * The recorded scenario: black plays (0..4, 0) and white (0..3, 1) in turn;
   * every move is accepted and black is the winner.
   */
  method WinScenario() returns (accepted: seq<Result<bool, EngineError>>, winner: Option<string>)
    ensures accepted == seq(9, _ => Success(true))
    ensures winner == Some("black")
  {
    var g := new GameState();
    accepted := [];
    for i := 0 to 5
      invariant |g.black| == i && forall k :: 0 <= k < i ==> g.black[k] == (k, 0)
      invariant |g.white| == (if i < 4 then i else 4) && forall k :: 0 <= k < |g.white| ==> g.white[k] == (k, 1)
      invariant |accepted| == i + (if i < 4 then i else 4)
      invariant accepted == seq(|accepted|, _ => Success(true))
      invariant i == 5 ==> g.winner == Some("black")
    {
      var r := g.MakeMove("black", i, 0);
      accepted := accepted + [r];
      if i == 4 {
        assert forall j :: 1 <= j <= 4 ==> Step(4, 0, (-1, 0), j) == g.black[4 - j];
        assert RayFull(g.black, 4, 0, (-1, 0));
      }
      if i < 4 {
        r := g.MakeMove("white", i, 1);
        accepted := accepted + [r];
      }
    }
    winner := g.winner;
  }

  /** The recorded first-moves scenario: black at (0, 0), then white at (1, 0), each landing in its own list. */
  method BasicMoveScenario() returns (r1: Result<bool, EngineError>, r2: Result<bool, EngineError>,
                                      black: seq<Coord>, white: seq<Coord>)
    ensures r1 == Success(true) && r2 == Success(true)
    ensures black == [(0, 0)] && white == [(1, 0)]
  {
    var g := new GameState();
    r1 := g.MakeMove("black", 0, 0);
    r2 := g.MakeMove("white", 1, 0);
    black, white := g.black, g.white;
  }

  /** The recorded conflict scenario: white may not take the cell black holds, and the board is unchanged. */
  method ConflictScenario() returns (r1: Result<bool, EngineError>, r2: Result<bool, EngineError>,
                                     black: seq<Coord>, white: seq<Coord>)
    ensures r1 == Success(true) && r2 == Success(false)
    ensures black == [(3, 3)] && white == []
  {
    var g := new GameState();
    r1 := g.MakeMove("black", 3, 3);
    r2 := g.MakeMove("white", 3, 3);
    black, white := g.black, g.white;
  }

  /** Only the upper bound is checked: a stone at (-1, 0) is accepted. */
  method NegativeCoordinateScenario() returns (r: Result<bool, EngineError>, black: seq<Coord>)
    ensures r == Success(true)
    ensures black == [(-1, 0)]
  {
    var g := new GameState();
    r := g.MakeMove("black", -1, 0);
    black := g.black;
  }
}
