/** What the rule engine of common/rule.c decides and does, on values.

    The predicates are declarative: lines are described by direction, distance and the
    squares strictly between, with no reference to the offset tables, the ray walk or the
    division and alignment test of the code. The loops are in RuleEngine.dfy. */
module Rules {
  import opened Pieces
  import opened ChessBoard

  function Along(s: Sq, ux: int, uy: int, n: int): Sq {
    Sq(s.x + Steps(ux, n), s.y + Steps(uy, n))
  }

  function Distance(s: Sq, d: Sq): nat {
    var ax, ay := Abs(d.x - s.x), Abs(d.y - s.y);
    if ax < ay then ay else ax
  }

  /** The `n`-th square on the way from `s` towards `d`. */
  function Towards(s: Sq, d: Sq, n: int): Sq {
    Along(s, Sign(d.x - s.x), Sign(d.y - s.y), n)
  }

  /** No piece stands strictly between `s` and `d`. */
  predicate ClearLine(b: Board, s: Sq, d: Sq) {
    forall n :: 1 <= n < Distance(s, d) ==> At(b, Towards(s, d, n)).dead
  }

  predicate PawnCaptures(team: Team, s: Sq, d: Sq) {
    d.y == s.y + team.Forward() && Abs(d.x - s.x) == 1
  }

  /** The piece on `s` could capture on `d`, whatever stands there. */
  predicate Captures(b: Board, s: Sq, d: Sq) {
    var c := At(b, s);
    c.piece.Some? &&
    match c.piece.value
    case Pawn => PawnCaptures(c.team, s, d)
    case Knight => Geometry(Knight, d.x - s.x, d.y - s.y)
    case King => Geometry(King, d.x - s.x, d.y - s.y)
    case Bishop => Geometry(Bishop, d.x - s.x, d.y - s.y) && ClearLine(b, s, d)
    case Rook => Geometry(Rook, d.x - s.x, d.y - s.y) && ClearLine(b, s, d)
    case Queen => Geometry(Queen, d.x - s.x, d.y - s.y) && ClearLine(b, s, d)
  }

  predicate AttackedFrom(b: Board, s: Sq, t: Sq, team: Team) {
    InBoard(s) && Owns(At(b, s), team) && Captures(b, s, t)
  }

  ghost predicate Attacked(b: Board, t: Sq, team: Team) {
    exists s :: AttackedFrom(b, s, t, team)
  }

  predicate IsKing(b: Board, k: Sq, t: Team) {
    InBoard(k) && IsMan(At(b, k), King, t)
  }

  /** The order in which `is_in_check` looks at the squares: file by file. */
  predicate ScannedBefore(q: Sq, k: Sq) {
    q.x < k.x || (q.x == k.x && q.y < k.y)
  }

  ghost predicate FirstKing(b: Board, k: Sq, t: Team) {
    IsKing(b, k, t) && forall q :: IsKing(b, q, t) ==> q == k || ScannedBefore(k, q)
  }

  ghost predicate InCheck(b: Board, t: Team) {
    exists k :: FirstKing(b, k, t) && Attacked(b, k, t.Opponent())
  }

  predicate PawnStep(b: Board, s: Sq, d: Sq) {
    d == Sq(s.x, s.y + At(b, s).team.Forward()) && At(b, d).dead
  }

  predicate PawnDoubleStep(b: Board, s: Sq, d: Sq) {
    var f := At(b, s).team.Forward();
    d == Sq(s.x, s.y + 2 * f) && !At(b, s).moved && At(b, d).dead && At(b, Sq(s.x, s.y + f)).dead
  }

  predicate PawnTakes(p: Position, s: Sq, d: Sq) {
    var c, v := At(p.board, s), At(p.board, d);
    PawnCaptures(c.team, s, d) &&
    ((!v.dead && v.team != c.team) || (v.dead && d == Sq(p.epX, p.epY)))
  }

  /** The movement rule of the piece on `s`, without regard to check. */
  predicate PieceMay(p: Position, s: Sq, d: Sq) {
    var c := At(p.board, s);
    c.piece.Some? &&
    if c.piece.value.Pawn? then
      PawnStep(p.board, s, d) || PawnDoubleStep(p.board, s, d) || PawnTakes(p, s, d)
    else
      Captures(p.board, s, d)
  }

  predicate PseudoLegal(p: Position, s: Sq, d: Sq) {
    && InBoard(s) && InBoard(d)
    && Owns(At(p.board, s), p.side) && !Owns(At(p.board, d), p.side)
    && PieceMay(p, s, d)
  }

  ghost predicate Legal(p: Position, s: Sq, d: Sq) {
    PseudoLegal(p, s, d) && !InCheck(ApplyMove(p, s, d).board, p.side)
  }

  ghost predicate HasLegalMove(p: Position) {
    exists s, d :: Legal(p, s, d)
  }

  ghost predicate Checkmate(p: Position) {
    InCheck(p.board, p.side) && !HasLegalMove(p)
  }

  ghost predicate Stalemate(p: Position) {
    !InCheck(p.board, p.side) && !HasLegalMove(p)
  }

  predicate FiftyMoves(p: Position) {
    p.clock >= 100
  }

  // ----- apply_move, in the order of its assignments

  function TakeEnPassant(p: Position, s: Sq, d: Sq): Board
    requires InBoard(s) && InBoard(d)
  {
    if At(p.board, s).piece == Some(Pawn) && d == Sq(p.epX, p.epY)
    then Kill(p.board, Sq(d.x, s.y)) else p.board
  }

  function Relocate(b: Board, s: Sq, d: Sq): Board
    requires InBoard(s) && InBoard(d)
  {
    Kill(Put(b, d, At(b, s)), s)
  }

  predicate JumpsLikeCastling(b: Board, s: Sq, d: Sq) {
    At(b, d).piece == Some(King) && Abs(d.x - s.x) == 2
  }

  /** The rook's half of castling; reached by replaying unchecked text only. */
  function MoveRook(b: Board, s: Sq, d: Sq): Board
    requires InBoard(s) && InBoard(d)
  {
    if JumpsLikeCastling(b, s, d) then
      var kingside := d.x > s.x;
      var from := Sq(if kingside then 7 else 0, d.y);
      var to := Sq(if kingside then d.x - 1 else d.x + 1, d.y);
      Kill(Put(b, to, At(b, from)), from)
    else b
  }

  /** After the piece has arrived on `d`: which castling rights survive. */
  function DropRights(p: Position, c: Cell, s: Sq): Position {
    var king := c.piece == Some(King);
    var rook := c.piece == Some(Rook) && !c.moved;
    p.(whiteKingside := p.whiteKingside && !(c.team.White? && (king || (rook && s == Sq(7, 0)))),
       whiteQueenside := p.whiteQueenside && !(c.team.White? && (king || (rook && s == Sq(0, 0)))),
       blackKingside := p.blackKingside && !(c.team.Black? && (king || (rook && s == Sq(7, 7)))),
       blackQueenside := p.blackQueenside && !(c.team.Black? && (king || (rook && s == Sq(0, 7)))))
  }

  predicate JumpsLikePawn(c: Cell, s: Sq, d: Sq) {
    c.piece == Some(Pawn) && Abs(d.y - s.y) == 2
  }

  predicate Promotes(c: Cell, d: Sq) {
    c.piece == Some(Pawn) && (d.y == 7 || d.y == 0)
  }

  function Arrived(c: Cell, d: Sq): Cell {
    c.(piece := if Promotes(c, d) then Some(Queen) else c.piece, moved := true)
  }

  function ClockAfter(p: Position, s: Sq, d: Sq): int {
    if At(p.board, s).piece == Some(Pawn) || !At(p.board, d).dead then 0 else p.clock + 1
  }

  /** The clock, the en passant victim, the moving piece and a castling rook. */
  function Relocated(p: Position, s: Sq, d: Sq): Position
    requires InBoard(s) && InBoard(d)
  {
    p.(board := MoveRook(Relocate(TakeEnPassant(p, s, d), s, d), s, d), clock := ClockAfter(p, s, d))
  }

  /** En passant target, promotion, moved flag and side to move. */
  function Settled(p: Position, s: Sq, d: Sq): Position
    requires InBoard(s) && InBoard(d)
  {
    var c := At(p.board, d);
    var jump := JumpsLikePawn(c, s, d);
    p.(board := Put(p.board, d, Arrived(c, d)),
       side := p.side.Opponent(),
       epX := if jump then d.x else -1,
       epY := if jump then (s.y + d.y) / 2 else -1)
  }

  function ApplyMove(p: Position, s: Sq, d: Sq): Position {
    if !InBoard(s) || !InBoard(d) || At(p.board, s).piece.None? then p
    else
      var moved := Relocated(p, s, d);
      Settled(DropRights(moved, At(moved.board, d), s), s, d)
  }
}
