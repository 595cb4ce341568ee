/** The piece vocabulary of common/types.h and the movement tables of common/piece.c.

    The two rows of `piece_table` (white and black) hold the same offsets, so a piece
    is represented by its kind alone; the side it belongs to is stored on its square.
 */
module Pieces {

  datatype Option<+T> = None | Some(value: T)

  datatype Team = White | Black {
    function Opponent(): Team {
      if White? then Black else White
    }

    /** The direction in which the team's pawns advance. */
    function Forward(): int {
      if White? then 1 else -1
    }

    /** The rank on which the team's pawns start. */
    function PawnRank(): int {
      if White? then 1 else 6
    }
  }

  datatype Kind = Pawn | Knight | Bishop | Rook | Queen | King

  datatype Offset = Offset(x: int, y: int)

  const ALL_DIRECTIONS: seq<Offset> :=
    [Offset(1, 0), Offset(1, 1), Offset(0, 1), Offset(-1, 1),
     Offset(-1, 0), Offset(-1, -1), Offset(0, -1), Offset(1, -1)]

  const STRAIGHTS: seq<Offset> := [Offset(1, 0), Offset(0, 1), Offset(-1, 0), Offset(0, -1)]

  const DIAGONALS: seq<Offset> := [Offset(1, 1), Offset(-1, 1), Offset(-1, -1), Offset(1, -1)]

  const KNIGHT_JUMPS: seq<Offset> :=
    [Offset(1, 2), Offset(2, 1), Offset(2, -1), Offset(1, -2),
     Offset(-1, -2), Offset(-2, -1), Offset(-2, 1), Offset(-1, 2)]

  function Offsets(k: Kind): seq<Offset> {
    match k
    case Pawn => []
    case Knight => KNIGHT_JUMPS
    case Bishop => DIAGONALS
    case Rook => STRAIGHTS
    case Queen => ALL_DIRECTIONS
    case King => ALL_DIRECTIONS
  }

  predicate IsSlider(k: Kind) {
    k.Bishop? || k.Rook? || k.Queen?
  }

  predicate IsLeaper(k: Kind) {
    k.Knight? || k.King?
  }

  function Abs(n: int): nat {
    if n < 0 then -n else n
  }

  /** For counting. */
  function One(condition: bool): int {
    if condition then 1 else 0
  }

  function Sign(n: int): int {
    if n < 0 then -1 else if n == 0 then 0 else 1
  }

  /** `n` steps in the direction given by the sign `u`. */
  function Steps(u: int, n: int): int {
    if u > 0 then n else if u < 0 then -n else 0
  }

  /** The FIDE movement geometry of the non-pawn pieces, for a displacement (rx, ry). */
  predicate Geometry(k: Kind, rx: int, ry: int) {
    match k
    case Pawn => false
    case Knight => (Abs(rx) == 1 && Abs(ry) == 2) || (Abs(rx) == 2 && Abs(ry) == 1)
    case King => Abs(rx) <= 1 && Abs(ry) <= 1 && (rx != 0 || ry != 0)
    case Bishop => Abs(rx) == Abs(ry) && rx != 0
    case Rook => (rx == 0) != (ry == 0)
    case Queen => (Abs(rx) == Abs(ry) && rx != 0) || (rx == 0) != (ry == 0)
  }

  /** A leaper's table lists exactly the displacements its geometry allows. */
  lemma LeaperTable(k: Kind, rx: int, ry: int)
    requires IsLeaper(k)
    ensures Offset(rx, ry) in Offsets(k) <==> Geometry(k, rx, ry)
  {
    var t := Offsets(k);
    if Geometry(k, rx, ry) {
      assert exists i :: 0 <= i < 8 && t[i] == Offset(rx, ry) by {
        var o := Offset(rx, ry);
        assert t[0] == o || t[1] == o || t[2] == o || t[3] == o || t[4] == o || t[5] == o || t[6] == o || t[7] == o;
      }
    }
  }

  /** A slider's table lists exactly the unit steps of its lines. */
  lemma SliderTable(k: Kind, o: Offset)
    requires IsSlider(k)
    ensures o in Offsets(k) <==> Abs(o.x) <= 1 && Abs(o.y) <= 1 && Geometry(k, o.x, o.y)
  {
    var t := Offsets(k);
    if Abs(o.x) <= 1 && Abs(o.y) <= 1 && Geometry(k, o.x, o.y) {
      if k.Queen? {
        assert t[0] == o || t[1] == o || t[2] == o || t[3] == o || t[4] == o || t[5] == o || t[6] == o || t[7] == o;
      } else {
        assert t[0] == o || t[1] == o || t[2] == o || t[3] == o;
      }
    }
  }
}
