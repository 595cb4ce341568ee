/** The board and the rule state: `piecestate_t` and the maintained part of `game_t`
    (common/piece.h, common/rule.h), as values. */
module ChessBoard {
  import opened Pieces

  datatype Sq = Sq(x: int, y: int)

  datatype Move = Move(from: Sq, to: Sq)

  predicate InBoard(s: Sq) {
    0 <= s.x < 8 && 0 <= s.y < 8
  }

  /** One square. The code keeps a piece pointer and a separate death flag; both are kept
      here, because every test in the rules looks at one or the other. */
  datatype Cell = Cell(piece: Option<Kind>, team: Team, dead: bool, moved: bool)

  const EMPTY: Cell := Cell(None, White, true, false)

  /** Row-major, as C lays out `board[8][8]`: square (x, y) is element 8*y + x. */
  type Board = b: seq<Cell> | |b| == 64 witness seq(64, _ => EMPTY)

  function Index(s: Sq): (i: int)
    ensures InBoard(s) ==> 0 <= i < 64
  {
    8 * s.y + s.x
  }

  /** The square at `s`; beyond the edge everything reads as empty. */
  function At(b: Board, s: Sq): Cell {
    if InBoard(s) then b[Index(s)] else EMPTY
  }

  function Put(b: Board, s: Sq, c: Cell): (r: Board)
    requires InBoard(s)
    ensures forall q: Sq {:trigger At(r, q)} :: At(r, q) == if q == s then c else At(b, q)
  {
    b[Index(s) := c]
  }

  /** What the code does to a vacated or captured square: team and moved flag stay behind. */
  function Killed(c: Cell): Cell {
    c.(dead := true, piece := None)
  }

  function Kill(b: Board, s: Sq): Board
    requires InBoard(s)
  {
    Put(b, s, Killed(At(b, s)))
  }

  /** A live piece of team `t`. */
  predicate Owns(c: Cell, t: Team) {
    !c.dead && c.piece.Some? && c.team == t
  }

  predicate IsMan(c: Cell, k: Kind, t: Team) {
    Owns(c, t) && c.piece == Some(k)
  }

  /** `game_t` without the fields that the rules never maintain. */
  datatype Position = Position(
    board: Board,
    side: Team,
    clock: int,
    whiteKingside: bool,
    whiteQueenside: bool,
    blackKingside: bool,
    blackQueenside: bool,
    epX: int,
    epY: int)

  lemma BoardsEqual(a: Board, b: Board)
    requires forall s :: InBoard(s) ==> At(a, s) == At(b, s)
    ensures a == b
  {
    forall i | 0 <= i < 64 ensures a[i] == b[i] {
      var s := Sq(i % 8, i / 8);
      assert At(a, s) == At(b, s) && Index(s) == i;
    }
  }
}
