/**
 * The five-in-a-row rule as both backend engines implement it: from the stone
 * just placed at (x, y), walk each of eight directions and report a win when the
 * four cells just beyond (x, y) in one direction all hold the mover's stones.
 * Opposite rays are never added together.
 */
module WinRule {

  /** Side length of the board (`BOARD_SIZE = 19` in both engines). */
  const BoardSize: int := 19

  /** A board coordinate `(x, y)`. */
  type Coord = (int, int)

  /** The eight directions both engines walk. */
  const Directions: set<Coord> :=
    {(1, 0), (0, 1), (-1, 0), (0, -1), (1, 1), (-1, -1), (1, -1), (-1, 1)}

  /** The cell `i` steps from `(x, y)` in direction `d`. */
  function Step(x: int, y: int, d: Coord, i: int): (c: Coord)
  {
    (x + d.0 * i, y + d.1 * i)
  }

  /** The four cells beyond `(x, y)` in direction `d` all hold one of `pieces`. */
  predicate RayFull(pieces: seq<Coord>, x: int, y: int, d: Coord)
  {
    forall i {:trigger Step(x, y, d, i)} :: 1 <= i <= 4 ==> Step(x, y, d, i) in pieces
  }

  /** The stone at `(x, y)` is reported as a win. */
  predicate WinAt(pieces: seq<Coord>, x: int, y: int)
  {
    exists d :: d in Directions && RayFull(pieces, x, y, d)
  }

  /** A reported win is a genuine five in a row: the placed stone and four more. */
  lemma WinIsFiveInRow(pieces: seq<Coord>, x: int, y: int)
    requires (x, y) in pieces
    requires WinAt(pieces, x, y)
    ensures exists d :: d in Directions && forall i :: 0 <= i < 5 ==> Step(x, y, d, i) in pieces
  {
    var d :| d in Directions && RayFull(pieces, x, y, d);
    forall i | 0 <= i < 5
      ensures Step(x, y, d, i) in pieces
    {
      if i == 0 {
        assert Step(x, y, d, 0) == (x, y);
      }
    }
  }

  /**
   * Witness that opposite rays are not summed: five black stones on row 0 with the
   * last one placed in the middle, at (2, 0), is not reported as a win.
   */
  lemma MiddleOfRunIsNotWin()
    ensures var pieces := [(0, 0), (1, 0), (3, 0), (4, 0), (2, 0)];
            && (0, 0) in pieces && (1, 0) in pieces && (2, 0) in pieces
            && (3, 0) in pieces && (4, 0) in pieces
            && !WinAt(pieces, 2, 0)
  {
    var pieces := [(0, 0), (1, 0), (3, 0), (4, 0), (2, 0)];
    forall d | d in Directions
      ensures !RayFull(pieces, 2, 0, d)
    {
      if d == (1, 0) {
        assert Step(2, 0, d, 3) == (5, 0);
      } else if d == (-1, 0) {
        assert Step(2, 0, d, 3) == (-1, 0);
      } else {
        assert Step(2, 0, d, 1).1 != 0;
      }
    }
  }

  /** The same stone seen once the 19x19 board is turned by 180 degrees. */
  function Rotate(c: Coord): (r: Coord)
  {
    (BoardSize - 1 - c.0, BoardSize - 1 - c.1)
  }

  /** Every stone of `pieces` turned by 180 degrees, in the same order. */
  function Rotated(pieces: seq<Coord>): (r: seq<Coord>)
    ensures |r| == |pieces|
    ensures forall k :: 0 <= k < |pieces| ==> r[k] == Rotate(pieces[k])
  {
    if pieces == [] then [] else [Rotate(pieces[0])] + Rotated(pieces[1..])
  }

  lemma RotatedMembership(pieces: seq<Coord>, c: Coord)
    ensures Rotate(c) in Rotated(pieces) <==> c in pieces
  {
    if c in pieces {
      var k :| 0 <= k < |pieces| && pieces[k] == c;
      assert Rotated(pieces)[k] == Rotate(c);
    }
    if Rotate(c) in Rotated(pieces) {
      var k :| 0 <= k < |pieces| && Rotated(pieces)[k] == Rotate(c);
      assert pieces[k] == c;
    }
  }

  lemma StepRotate(x: int, y: int, d: Coord, i: int)
    ensures Step(BoardSize - 1 - x, BoardSize - 1 - y, (-d.0, -d.1), i) == Rotate(Step(x, y, d, i))
  {
    assert -d.0 * i == -(d.0 * i) && -d.1 * i == -(d.1 * i);
  }

  lemma RayFullRotate(pieces: seq<Coord>, x: int, y: int, d: Coord)
    ensures RayFull(Rotated(pieces), BoardSize - 1 - x, BoardSize - 1 - y, (-d.0, -d.1)) <==> RayFull(pieces, x, y, d)
  {
    var rx, ry, e := BoardSize - 1 - x, BoardSize - 1 - y, (-d.0, -d.1);
    forall i | 1 <= i <= 4
      ensures Step(rx, ry, e, i) in Rotated(pieces) <==> Step(x, y, d, i) in pieces
    {
      StepRotate(x, y, d, i);
      RotatedMembership(pieces, Step(x, y, d, i));
    }
    if RayFull(pieces, x, y, d) {
      forall i | 1 <= i <= 4 ensures Step(rx, ry, e, i) in Rotated(pieces) {
        assert Step(x, y, d, i) in pieces;
      }
    }
    if RayFull(Rotated(pieces), rx, ry, e) {
      forall i | 1 <= i <= 4 ensures Step(x, y, d, i) in pieces {
        assert Step(rx, ry, e, i) in Rotated(pieces);
      }
    }
  }

  /** Win detection does not depend on which way up the board is. */
  lemma WinAtRotationInvariant(pieces: seq<Coord>, x: int, y: int)
    ensures WinAt(Rotated(pieces), BoardSize - 1 - x, BoardSize - 1 - y) <==> WinAt(pieces, x, y)
  {
    var rx, ry := BoardSize - 1 - x, BoardSize - 1 - y;
    if WinAt(pieces, x, y) {
      var d :| d in Directions && RayFull(pieces, x, y, d);
      RayFullRotate(pieces, x, y, d);
      assert (-d.0, -d.1) in Directions;
    }
    if WinAt(Rotated(pieces), rx, ry) {
      var e :| e in Directions && RayFull(Rotated(pieces), rx, ry, e);
      var d := (-e.0, -e.1);
      RayFullRotate(pieces, x, y, d);
      assert d in Directions && (-d.0, -d.1) == e;
    }
  }
}
