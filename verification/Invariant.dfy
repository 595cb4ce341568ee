/** The invariant of every position of a server game, and why a legal move keeps it. */
module Invariant {
  import opened Pieces
  import opened ChessBoard
  import opened Rules

  ghost predicate DeadIffNull(b: Board) {
    forall s :: At(b, s).dead <==> At(b, s).piece.None?
  }

  ghost predicate SoleKing(b: Board, k: Sq, t: Team) {
    IsKing(b, k, t) && forall q :: IsKing(b, q, t) ==> q == k
  }

  ghost predicate OneKing(b: Board, t: Team) {
    exists k :: SoleKing(b, k, t)
  }

  /** No pawn on the edge ranks; the unmoved pawns are those on their own second rank. */
  predicate PawnFits(c: Cell, y: int) {
    !c.dead && c.piece == Some(Pawn) ==> 1 <= y <= 6 && (!c.moved <==> y == c.team.PawnRank())
  }

  ghost predicate PawnsFit(b: Board) {
    forall s :: InBoard(s) ==> PawnFits(At(b, s), s.y)
  }

  /** A set en passant target is the empty square behind an enemy pawn that has just come
      from the empty square on the other side of it. */
  predicate JustDoubled(b: Board, t: Sq, mover: Team) {
    var f := mover.Forward();
    && InBoard(t) && t.y == mover.PawnRank() + f
    && At(b, t).dead && At(b, Sq(t.x, t.y - f)).dead
    && IsMan(At(b, Sq(t.x, t.y + f)), Pawn, mover)
  }

  predicate TargetFits(p: Position) {
    (p.epX == -1 && p.epY == -1) || JustDoubled(p.board, Sq(p.epX, p.epY), p.side.Opponent())
  }

  predicate KingAtHome(b: Board, t: Team) {
    var c := At(b, Sq(4, if t.White? then 0 else 7));
    IsMan(c, King, t) && !c.moved
  }

  predicate RightsFit(p: Position) {
    && (p.whiteKingside || p.whiteQueenside ==> KingAtHome(p.board, White))
    && (p.blackKingside || p.blackQueenside ==> KingAtHome(p.board, Black))
  }

  ghost predicate Inv(p: Position) {
    && DeadIffNull(p.board)
    && OneKing(p.board, White) && OneKing(p.board, Black)
    && PawnsFit(p.board)
    && TargetFits(p)
    && RightsFit(p)
    && p.clock >= 0
    && !InCheck(p.board, p.side.Opponent())
  }

  // ----- check, once there is one king

  lemma CheckMeansKingAttacked(b: Board, k: Sq, t: Team)
    requires SoleKing(b, k, t)
    ensures InCheck(b, t) <==> Attacked(b, k, t.Opponent())
  {
    assert FirstKing(b, k, t);
  }

  /** A move onto an enemy piece follows that piece's capture pattern. */
  lemma TakingIsCapturing(p: Position, s: Sq, d: Sq)
    requires PseudoLegal(p, s, d) && !At(p.board, d).dead
    ensures AttackedFrom(p.board, s, d, p.side)
  {
  }

  /** The two halves of the rule code agree: a square holding an enemy piece is attacked
      exactly when some piece of the side to move passes the movement rule onto it. */
  lemma AttackAgreesWithLegality(p: Position, d: Sq)
    requires InBoard(d) && Owns(At(p.board, d), p.side.Opponent())
    ensures Attacked(p.board, d, p.side) <==> exists s :: PseudoLegal(p, s, d)
  {
    if Attacked(p.board, d, p.side) {
      var s :| AttackedFrom(p.board, s, d, p.side);
      assert PseudoLegal(p, s, d);
    }
    if s :| PseudoLegal(p, s, d) {
      TakingIsCapturing(p, s, d);
    }
  }

  /** The enemy king is never on the target square. */
  lemma KingIsNotTaken(p: Position, s: Sq, d: Sq)
    requires Inv(p) && PseudoLegal(p, s, d)
    ensures !IsKing(p.board, d, p.side.Opponent())
  {
    var t := p.side.Opponent();
    if IsKing(p.board, d, t) {
      TakingIsCapturing(p, s, d);
      assert OneKing(p.board, t);
      var k :| SoleKing(p.board, k, t);
      CheckMeansKingAttacked(p.board, k, t);
      assert Attacked(p.board, d, p.side);
    }
  }

  // ----- the effect of a move on the board

  predicate IsEnPassant(p: Position, s: Sq, d: Sq) {
    At(p.board, s).piece == Some(Pawn) && d == Sq(p.epX, p.epY)
  }

  /** The removal in `apply_move` fires on a diagonal pawn move only, and what stands on
      (d.x, s.y) is the enemy pawn that has just advanced two squares. */
  lemma EnPassantVictim(p: Position, s: Sq, d: Sq)
    requires TargetFits(p) && PawnsFit(p.board) && PseudoLegal(p, s, d) && IsEnPassant(p, s, d)
    ensures PawnTakes(p, s, d) && At(p.board, d).dead
    ensures s.x != d.x && IsMan(At(p.board, Sq(d.x, s.y)), Pawn, p.side.Opponent())
    ensures JustDoubled(p.board, d, p.side.Opponent()) && s.y == d.y + p.side.Opponent().Forward()
  {
    assert JustDoubled(p.board, Sq(p.epX, p.epY), p.side.Opponent());
    assert PawnFits(At(p.board, s), s.y);
  }

  /** What every square holds after the move. */
  function CellAfter(p: Position, s: Sq, d: Sq, q: Sq): Cell {
    if q == d then Arrived(At(p.board, s), d)
    else if q == s || (IsEnPassant(p, s, d) && q == Sq(d.x, s.y)) then Killed(At(p.board, q))
    else At(p.board, q)
  }

  lemma KingStepsAreSingle(p: Position, s: Sq, d: Sq)
    requires PseudoLegal(p, s, d) && At(p.board, s).piece == Some(King)
    ensures Abs(d.x - s.x) <= 1 && Abs(d.y - s.y) <= 1
  {
  }

  lemma FrameWithoutCastling(p: Position, s: Sq, d: Sq)
    requires InBoard(s) && InBoard(d) && s != d && At(p.board, s).piece.Some?
    requires At(p.board, s).piece == Some(King) ==> Abs(d.x - s.x) != 2
    requires IsEnPassant(p, s, d) ==> s.x != d.x && s.y != d.y
    ensures forall q :: At(ApplyMove(p, s, d).board, q) == CellAfter(p, s, d, q)
    ensures ApplyMove(p, s, d).side == p.side.Opponent()
    ensures ApplyMove(p, s, d).clock == ClockAfter(p, s, d)
  {
    var b1 := TakeEnPassant(p, s, d);
    assert At(b1, s) == At(p.board, s);
    var b2 := Relocate(b1, s, d);
    assert At(b2, d) == At(p.board, s);
    assert MoveRook(b2, s, d) == b2;
  }

  /** The effect of a move that passes the movement rule: the piece is relocated (and promoted
      on the last rank), at most one further square, the en passant victim's, is emptied, and
      every other square is unchanged. */
  lemma MoveFrame(p: Position, s: Sq, d: Sq)
    requires TargetFits(p) && PawnsFit(p.board) && PseudoLegal(p, s, d)
    ensures s != d
    ensures forall q :: At(ApplyMove(p, s, d).board, q) == CellAfter(p, s, d, q)
    ensures ApplyMove(p, s, d).side == p.side.Opponent()
    ensures ApplyMove(p, s, d).clock == ClockAfter(p, s, d)
  {
    if IsEnPassant(p, s, d) { EnPassantVictim(p, s, d); }
    if At(p.board, s).piece == Some(King) { KingStepsAreSingle(p, s, d); }
    FrameWithoutCastling(p, s, d);
  }

  /** The piece that has moved is marked as moved; it keeps its side, and its kind unless it is a
      pawn on the last rank, which becomes a queen. All other marks stay. */
  lemma MovedPieceIsMarked(p: Position, s: Sq, d: Sq)
    requires TargetFits(p) && PawnsFit(p.board) && PseudoLegal(p, s, d)
    ensures var c, c' := At(p.board, s), At(ApplyMove(p, s, d).board, d);
            && c'.moved && c'.team == p.side && !c'.dead
            && c'.piece == (if c.piece == Some(Pawn) && (d.y == 0 || d.y == 7) then Some(Queen) else c.piece)
    ensures forall q :: q != d ==> At(ApplyMove(p, s, d).board, q).moved == At(p.board, q).moved
  {
    MoveFrame(p, s, d);
    assert At(ApplyMove(p, s, d).board, d) == CellAfter(p, s, d, d);
    forall q | q != d ensures At(ApplyMove(p, s, d).board, q).moved == At(p.board, q).moved {
      assert At(ApplyMove(p, s, d).board, q) == CellAfter(p, s, d, q);
    }
  }

  // ----- a legal move keeps the invariant

  lemma KeepsDeadIffNull(p: Position, s: Sq, d: Sq)
    requires Inv(p) && PseudoLegal(p, s, d)
    ensures DeadIffNull(ApplyMove(p, s, d).board)
  {
    MoveFrame(p, s, d);
  }

  /** The side that moves keeps its king, wherever it now stands. */
  lemma MoverKeepsKing(p: Position, s: Sq, d: Sq)
    requires Inv(p) && PseudoLegal(p, s, d)
    ensures OneKing(ApplyMove(p, s, d).board, p.side)
  {
    MoveFrame(p, s, d);
    if IsEnPassant(p, s, d) { EnPassantVictim(p, s, d); }
    var b := ApplyMove(p, s, d).board;
    assert OneKing(p.board, p.side);
    var k :| SoleKing(p.board, k, p.side);
    var k' := if k == s then d else k;
    forall q | IsKing(b, q, p.side) ensures q == k' {
      assert At(b, q) == CellAfter(p, s, d, q);
      assert IsKing(p.board, if q == d then s else q, p.side);
    }
    assert At(b, k') == CellAfter(p, s, d, k');
    assert SoleKing(b, k', p.side);
  }

  lemma OpponentKeepsKing(p: Position, s: Sq, d: Sq)
    requires Inv(p) && PseudoLegal(p, s, d)
    ensures OneKing(ApplyMove(p, s, d).board, p.side.Opponent())
  {
    MoveFrame(p, s, d);
    KingIsNotTaken(p, s, d);
    if IsEnPassant(p, s, d) { EnPassantVictim(p, s, d); }
    var t := p.side.Opponent();
    assert OneKing(p.board, t);
    var k :| SoleKing(p.board, k, t);
    var b := ApplyMove(p, s, d).board;
    forall q | IsKing(b, q, t) ensures q == k {
      assert At(b, q) == CellAfter(p, s, d, q);
      assert IsKing(p.board, q, t);
    }
    assert At(b, k) == CellAfter(p, s, d, k);
    assert SoleKing(b, k, t);
  }

  lemma KeepsPawnsFit(p: Position, s: Sq, d: Sq)
    requires Inv(p) && PseudoLegal(p, s, d)
    ensures PawnsFit(ApplyMove(p, s, d).board)
  {
    MoveFrame(p, s, d);
    var b := ApplyMove(p, s, d).board;
    forall q | InBoard(q) ensures PawnFits(At(b, q), q.y) {
      assert PawnFits(At(p.board, q), q.y) && PawnFits(At(p.board, s), s.y);
    }
  }

  lemma PieceArrives(p: Position, s: Sq, d: Sq)
    requires Inv(p) && PseudoLegal(p, s, d)
    ensures At(Relocated(p, s, d).board, d) == At(p.board, s)
  {
    if IsEnPassant(p, s, d) { EnPassantVictim(p, s, d); }
    if At(p.board, s).piece == Some(King) { KingStepsAreSingle(p, s, d); }
    var b1 := TakeEnPassant(p, s, d);
    assert At(b1, s) == At(p.board, s);
    assert At(Relocate(b1, s, d), d) == At(p.board, s);
  }

  /** When the moved pawn has jumped, the new target fits; otherwise it is cleared. */
  lemma KeepsTargetFits(p: Position, s: Sq, d: Sq)
    requires Inv(p) && PseudoLegal(p, s, d)
    ensures TargetFits(ApplyMove(p, s, d))
    ensures ApplyMove(p, s, d).epX != -1 <==> JumpsLikePawn(At(p.board, s), s, d)
    ensures JumpsLikePawn(At(p.board, s), s, d) ==>
              Sq(ApplyMove(p, s, d).epX, ApplyMove(p, s, d).epY) == Sq(d.x, s.y + p.side.Forward())
  {
    TargetAfter(p, s, d);
    if JumpsLikePawn(At(p.board, s), s, d) {
      MoveFrame(p, s, d);
      DoubleStepGeometry(p, s, d);
    }
  }

  lemma TargetAfter(p: Position, s: Sq, d: Sq)
    requires Inv(p) && PseudoLegal(p, s, d)
    ensures var p' := ApplyMove(p, s, d);
            if JumpsLikePawn(At(p.board, s), s, d) then p'.epX == d.x && p'.epY == (s.y + d.y) / 2
            else p'.epX == p'.epY == -1
  {
    PieceArrives(p, s, d);
  }

  lemma DoubleStepGeometry(p: Position, s: Sq, d: Sq)
    requires Inv(p) && PseudoLegal(p, s, d) && JumpsLikePawn(At(p.board, s), s, d)
    ensures s.y == p.side.PawnRank() && d == Sq(s.x, s.y + 2 * p.side.Forward())
    ensures At(p.board, Sq(s.x, s.y + p.side.Forward())).dead && !IsEnPassant(p, s, d)
  {
    assert PawnFits(At(p.board, s), s.y);
    if IsEnPassant(p, s, d) { EnPassantVictim(p, s, d); }
  }

  /** The unmoved rook of team `t` leaves the corner `corner`. */
  predicate LeavesCorner(p: Position, s: Sq, t: Team, corner: Sq) {
    IsMan(At(p.board, s), Rook, t) && !At(p.board, s).moved && s == corner
  }

  /** A castling right is lost exactly when its king moves or its unmoved rook leaves the corner;
      the capture of the rook does not touch it. */
  lemma RightsAfter(p: Position, s: Sq, d: Sq)
    requires Inv(p) && PseudoLegal(p, s, d)
    ensures var p', c := ApplyMove(p, s, d), At(p.board, s);
            && (p'.whiteKingside <==>
                  p.whiteKingside && !IsMan(c, King, White) && !LeavesCorner(p, s, White, Sq(7, 0)))
            && (p'.whiteQueenside <==>
                  p.whiteQueenside && !IsMan(c, King, White) && !LeavesCorner(p, s, White, Sq(0, 0)))
            && (p'.blackKingside <==>
                  p.blackKingside && !IsMan(c, King, Black) && !LeavesCorner(p, s, Black, Sq(7, 7)))
            && (p'.blackQueenside <==>
                  p.blackQueenside && !IsMan(c, King, Black) && !LeavesCorner(p, s, Black, Sq(0, 7)))
  {
    PieceArrives(p, s, d);
    hide Inv;
  }

  predicate Right(p: Position, t: Team, kingside: bool) {
    if t.White? then (if kingside then p.whiteKingside else p.whiteQueenside)
    else (if kingside then p.blackKingside else p.blackQueenside)
  }

  function Corner(t: Team, kingside: bool): Sq {
    Sq(if kingside then 7 else 0, if t.White? then 0 else 7)
  }

  predicate RookAtHome(b: Board, t: Team, kingside: bool) {
    IsMan(At(b, Corner(t, kingside)), Rook, t) && !At(b, Corner(t, kingside)).moved
  }

  /** A right with its rook at home turns into a right without exactly when the opponent moves onto
      the corner, that is, captures the rook. */
  lemma RightOutlivesRook(p: Position, s: Sq, d: Sq, t: Team, kingside: bool)
    requires Inv(p) && PseudoLegal(p, s, d) && Right(p, t, kingside) && RookAtHome(p.board, t, kingside)
    ensures var p' := ApplyMove(p, s, d);
            Right(p', t, kingside) && !RookAtHome(p'.board, t, kingside) <==> d == Corner(t, kingside)
  {
    hide Inv, ApplyMove, PieceMay, JustDoubled, At;
    RightsAfter(p, s, d);
    CornerAfter(p, s, d, t, kingside);
  }

  /** A move leaves every other square alone, unless a pawn stands there that is taken in passing. */
  lemma CellKept(p: Position, s: Sq, d: Sq, q: Sq)
    requires Inv(p) && PseudoLegal(p, s, d)
    ensures q != s && q != d && At(p.board, q).piece != Some(Pawn) ==>
              At(ApplyMove(p, s, d).board, q) == At(p.board, q)
    ensures At(ApplyMove(p, s, d).board, s).dead && At(ApplyMove(p, s, d).board, d).team == p.side
    ensures Owns(At(p.board, s), p.side) && !Owns(At(p.board, d), p.side)
  {
    MoveFrame(p, s, d);
    if IsEnPassant(p, s, d) { EnPassantVictim(p, s, d); }
    hide Inv, ApplyMove, PieceMay, JustDoubled;
    assert At(ApplyMove(p, s, d).board, q) == CellAfter(p, s, d, q);
    assert At(ApplyMove(p, s, d).board, s) == CellAfter(p, s, d, s);
    assert At(ApplyMove(p, s, d).board, d) == CellAfter(p, s, d, d);
  }

  /** A rook at home stays there unless it moves or is captured. */
  lemma CornerAfter(p: Position, s: Sq, d: Sq, t: Team, kingside: bool)
    requires Inv(p) && PseudoLegal(p, s, d) && RookAtHome(p.board, t, kingside)
    ensures var c := Corner(t, kingside);
            && (RookAtHome(ApplyMove(p, s, d).board, t, kingside) <==> c != s && c != d)
            && (c == s ==> t == p.side) && (c == d ==> t == p.side.Opponent())
  {
    hide Inv, ApplyMove, PseudoLegal, At;
    CellKept(p, s, d, Corner(t, kingside));
  }

  lemma KeepsKingAtHome(p: Position, s: Sq, d: Sq, t: Team)
    requires Inv(p) && PseudoLegal(p, s, d) && KingAtHome(p.board, t) && !IsMan(At(p.board, s), King, t)
    ensures KingAtHome(ApplyMove(p, s, d).board, t)
  {
    MoveFrame(p, s, d);
    KingIsNotTaken(p, s, d);
    if IsEnPassant(p, s, d) { EnPassantVictim(p, s, d); }
    var home := Sq(4, if t.White? then 0 else 7);
    assert IsKing(p.board, home, t);
  }

  lemma KeepsRightsFit(p: Position, s: Sq, d: Sq)
    requires Inv(p) && PseudoLegal(p, s, d)
    ensures RightsFit(ApplyMove(p, s, d))
  {
    RightsAfter(p, s, d);
    var p' := ApplyMove(p, s, d);
    if p'.whiteKingside || p'.whiteQueenside { KeepsKingAtHome(p, s, d, White); }
    if p'.blackKingside || p'.blackQueenside { KeepsKingAtHome(p, s, d, Black); }
  }

  /** Every legal move leads from a position satisfying the invariant to another. */
  lemma LegalMoveKeepsInv(p: Position, s: Sq, d: Sq)
    requires Inv(p) && Legal(p, s, d)
    ensures Inv(ApplyMove(p, s, d))
  {
    KeepsDeadIffNull(p, s, d);
    MoverKeepsKing(p, s, d);
    OpponentKeepsKing(p, s, d);
    KeepsPawnsFit(p, s, d);
    KeepsTargetFits(p, s, d);
    KeepsRightsFit(p, s, d);
    MoveFrame(p, s, d);
    assert p.side.White? || p.side.Black?;
  }

  // ----- castling, which only unchecked callers can make

  function KingTo(y: int, kingside: bool): Sq {
    Sq(if kingside then 6 else 2, y)
  }

  /** What castling on rank `y` leaves on square `q`. */
  function CastledCell(b: Board, y: int, kingside: bool, q: Sq): Cell {
    var s, corner := Sq(4, y), Sq(if kingside then 7 else 0, y);
    var inside := Sq(if kingside then 5 else 3, y);
    if q == KingTo(y, kingside) then At(b, s)
    else if q == inside then At(b, corner)
    else if q == s || q == corner then Killed(At(b, q))
    else At(b, q)
  }

  lemma CastledCells(b: Board, y: int, kingside: bool)
    requires 0 <= y < 8 && At(b, Sq(4, y)).piece == Some(King)
    ensures var s, d := Sq(4, y), KingTo(y, kingside);
            forall q :: At(MoveRook(Relocate(b, s, d), s, d), q) == CastledCell(b, y, kingside, q)
  {
    assert JumpsLikeCastling(Relocate(b, Sq(4, y), Sq(6, y)), Sq(4, y), Sq(6, y));
    assert JumpsLikeCastling(Relocate(b, Sq(4, y), Sq(2, y)), Sq(4, y), Sq(2, y));
  }

  /** Replaying a castling: the king lands on its square, the rook beside it on the inside, the
      two squares they left are empty, nothing else changes, and the rights are gone. */
  lemma ReplayedCastling(p: Position, t: Team, kingside: bool)
    requires IsMan(At(p.board, Sq(4, if t.White? then 0 else 7)), King, t)
    ensures var y := if t.White? then 0 else 7;
            var s, d := Sq(4, y), KingTo(y, kingside);
            var p' := ApplyMove(p, s, d);
            && (forall q :: At(p'.board, q) ==
                  if q == d then At(p.board, s).(moved := true) else CastledCell(p.board, y, kingside, q))
            && (if t.White? then !p'.whiteKingside && !p'.whiteQueenside else !p'.blackKingside && !p'.blackQueenside)
            && p'.side == p.side.Opponent()
  {
    var y := if t.White? then 0 else 7;
    var s, d := Sq(4, y), KingTo(y, kingside);
    CastledCells(p.board, y, kingside);
    assert CastledCell(p.board, y, kingside, d) == At(p.board, s);
    assert InBoard(s) && InBoard(d);
    KingArrives(p, s, d, t);
    hide Relocate, MoveRook, ApplyMove, CastledCell, KingTo, At, Put;
    PutCells(MoveRook(Relocate(p.board, s, d), s, d), d, At(p.board, s).(moved := true));
  }

  lemma PutCells(b: Board, d: Sq, c: Cell)
    requires InBoard(d)
    ensures forall q {:trigger At(Put(b, d, c), q)} :: At(Put(b, d, c), q) == if q == d then c else At(b, q)
  {
  }

  lemma KingArrives(p: Position, s: Sq, d: Sq, t: Team)
    requires InBoard(s) && InBoard(d) && IsMan(At(p.board, s), King, t)
    requires At(MoveRook(Relocate(p.board, s, d), s, d), d) == At(p.board, s)
    ensures var p' := ApplyMove(p, s, d);
            && p'.board == Put(MoveRook(Relocate(p.board, s, d), s, d), d, At(p.board, s).(moved := true))
            && (if t.White? then !p'.whiteKingside && !p'.whiteQueenside else !p'.blackKingside && !p'.blackQueenside)
            && p'.side == p.side.Opponent()
  {
    assert TakeEnPassant(p, s, d) == p.board;
    hide Relocate, MoveRook;
  }
}
