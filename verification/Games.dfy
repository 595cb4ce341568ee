/** Whole games: runs of legal moves from the start position. */
module Games {
  import opened Pieces
  import opened ChessBoard
  import opened Rules
  import opened Invariant

  function BackRank(x: int): Kind {
    if x == 0 || x == 7 then Rook
    else if x == 1 || x == 6 then Knight
    else if x == 2 || x == 5 then Bishop
    else if x == 3 then Queen
    else King
  }

  function StartCell(x: int, y: int): Cell {
    if y == 0 then Cell(Some(BackRank(x)), White, false, false)
    else if y == 1 then Cell(Some(Pawn), White, false, false)
    else if y == 6 then Cell(Some(Pawn), Black, false, false)
    else if y == 7 then Cell(Some(BackRank(x)), Black, false, false)
    else EMPTY
  }

  function StartBoard(): (b: Board)
    ensures forall s :: InBoard(s) ==> At(b, s) == StartCell(s.x, s.y)
  {
    seq(64, i => StartCell(i % 8, i / 8))
  }

  function Start(): Position {
    Position(StartBoard(), White, 0, true, true, true, true, -1, -1)
  }

  function Step(p: Position, m: Move): Position {
    ApplyMove(p, m.from, m.to)
  }

  ghost predicate LegalMove(p: Position, m: Move) {
    Legal(p, m.from, m.to)
  }

  function Play(p: Position, ms: seq<Move>): Position
    decreases |ms|
  {
    if ms == [] then p else Play(Step(p, ms[0]), ms[1..])
  }

  ghost predicate LegalRun(p: Position, ms: seq<Move>)
    decreases |ms|
  {
    ms == [] || (LegalMove(p, ms[0]) && LegalRun(Step(p, ms[0]), ms[1..]))
  }

  /** The conditions on which the server ends a game after a move. */
  ghost predicate GameOver(p: Position) {
    Checkmate(p) || Stalemate(p) || FiftyMoves(p)
  }

  /** The moves the server accepts in one game: every one is legal, and none is accepted in a
      position in which the game is over. */
  ghost predicate AcceptedRun(p: Position, ms: seq<Move>)
    decreases |ms|
  {
    ms == [] ||
    (!GameOver(p) && LegalMove(p, ms[0]) && AcceptedRun(Step(p, ms[0]), ms[1..]))
  }

  lemma {:induction false} RunCons(p: Position, m: Move, ms: seq<Move>)
    ensures Play(p, [m] + ms) == Play(Step(p, m), ms)
    ensures LegalRun(p, [m] + ms) <==> LegalMove(p, m) && LegalRun(Step(p, m), ms)
    ensures AcceptedRun(p, [m] + ms) <==> !GameOver(p) && LegalMove(p, m) && AcceptedRun(Step(p, m), ms)
  {
    hide Step, LegalMove, GameOver;
    assert ([m] + ms)[1..] == ms;
  }

  lemma {:induction false} AcceptedIsLegal(p: Position, ms: seq<Move>)
    requires AcceptedRun(p, ms)
    ensures LegalRun(p, ms)
    decreases |ms|
  {
    if ms != [] { AcceptedIsLegal(Step(p, ms[0]), ms[1..]); }
  }

  lemma {:induction false} PlayAppend(p: Position, ms: seq<Move>, m: Move)
    ensures Play(p, ms + [m]) == Step(Play(p, ms), m)
    decreases |ms|
  {
    if ms == [] {
      assert [] + [m] == [m] && [m][1..] == [];
    } else {
      assert (ms + [m])[1..] == ms[1..] + [m];
      PlayAppend(Step(p, ms[0]), ms[1..], m);
    }
  }

  lemma {:induction false} LegalRunAppend(p: Position, ms: seq<Move>, m: Move)
    ensures LegalRun(p, ms + [m]) <==> LegalRun(p, ms) && LegalMove(Play(p, ms), m)
    decreases |ms|
  {
    if ms == [] {
      assert [] + [m] == [m] && [m][1..] == [];
    } else {
      assert (ms + [m])[1..] == ms[1..] + [m];
      LegalRunAppend(Step(p, ms[0]), ms[1..], m);
    }
  }

  lemma {:induction false} AcceptedRunAppend(p: Position, ms: seq<Move>, m: Move)
    ensures AcceptedRun(p, ms + [m]) <==>
            AcceptedRun(p, ms) && !GameOver(Play(p, ms)) && LegalMove(Play(p, ms), m)
    decreases |ms|
  {
    if ms == [] {
      assert [] + [m] == [m] && [m][1..] == [];
    } else {
      assert (ms + [m])[1..] == ms[1..] + [m];
      AcceptedRunAppend(Step(p, ms[0]), ms[1..], m);
    }
  }

  // ----- the start position satisfies the invariant

  lemma StartKing(t: Team)
    ensures SoleKing(StartBoard(), Sq(4, if t.White? then 0 else 7), t)
  {
  }

  /** The second rank blocks every line from the first. */
  lemma StartLinesAreClosed(s: Sq, k: Sq)
    requires InBoard(s) && InBoard(k) && s.y == 0 && k.y == 7
    ensures !ClearLine(StartBoard(), s, k)
  {
    assert !At(StartBoard(), Towards(s, k, 1)).dead;
  }

  lemma BlockedPieceReachesNothing(b: Board, s: Sq, k: Sq)
    requires 0 <= s.y <= 1 && k.y == 7 && At(b, s) == StartCell(s.x, s.y)
    requires s.y == 0 ==> !ClearLine(b, s, k)
    ensures !Captures(b, s, k)
  {
  }

  lemma StartHasNoAttacker(s: Sq)
    ensures !AttackedFrom(StartBoard(), s, Sq(4, 7), White)
  {
    if InBoard(s) && s.y <= 1 {
      if s.y == 0 { StartLinesAreClosed(s, Sq(4, 7)); }
      BlockedPieceReachesNothing(StartBoard(), s, Sq(4, 7));
    }
  }

  lemma StartHasNoCheck()
    ensures !InCheck(StartBoard(), Black)
  {
    StartKing(Black);
    CheckMeansKingAttacked(StartBoard(), Sq(4, 7), Black);
    forall s ensures !AttackedFrom(StartBoard(), s, Sq(4, 7), White) {
      StartHasNoAttacker(s);
    }
  }

  lemma StartInv()
    ensures Inv(Start())
  {
    StartKing(White);
    StartKing(Black);
    StartHasNoCheck();
  }

  // ----- every reachable position satisfies it

  lemma {:induction false} RunKeepsInv(p: Position, ms: seq<Move>)
    requires Inv(p) && LegalRun(p, ms)
    ensures Inv(Play(p, ms))
    decreases |ms|
  {
    if ms != [] {
      LegalMoveKeepsInv(p, ms[0].from, ms[0].to);
      RunKeepsInv(Step(p, ms[0]), ms[1..]);
    }
  }

  /** In every position that legal moves reach from the start position there is one king of
      each side, the side that has just moved is not in check, no pawn stands on an edge rank,
      and the castling and en passant fields describe the board. */
  lemma {:induction false} ReachableInv(ms: seq<Move>)
    requires LegalRun(Start(), ms)
    ensures Inv(Play(Start(), ms))
  {
    StartInv();
    RunKeepsInv(Start(), ms);
  }

  /** In particular no legal move of a game ever captures a king. */
  lemma {:induction false} NoKingIsEverTaken(ms: seq<Move>, m: Move)
    requires LegalRun(Start(), ms + [m])
    ensures var p := Play(Start(), ms);
            forall k, t :: IsKing(p.board, k, t) ==> m.to != k
  {
    LegalRunAppend(Start(), ms, m);
    ReachableInv(ms);
    var p := Play(Start(), ms);
    KingIsNotTaken(p, m.from, m.to);
    forall k, t | IsKing(p.board, k, t) ensures m.to != k {
      assert t == p.side || t == p.side.Opponent();
    }
  }

  lemma StepTurns(p: Position, m: Move)
    requires Inv(p) && LegalMove(p, m)
    ensures Step(p, m).side == p.side.Opponent() && Inv(Step(p, m))
  {
    LegalMoveKeepsInv(p, m.from, m.to);
    MoveFrame(p, m.from, m.to);
  }

  // ----- the game can begin

  /** The seventh rank blocks every black line towards the first, whatever White has done
      with one pawn. */
  lemma BlackLinesAreClosed(b: Board, s: Sq, k: Sq)
    requires InBoard(s) && InBoard(k) && s.y == 7 && k.y == 0
    requires forall q :: InBoard(q) && q.y == 6 ==> !At(b, q).dead
    ensures !ClearLine(b, s, k)
  {
    assert !At(b, Towards(s, k, 1)).dead;
  }

  lemma BlackPieceReachesNothing(b: Board, s: Sq, k: Sq)
    requires 6 <= s.y <= 7 && k.y == 0 && At(b, s) == StartCell(s.x, s.y)
    requires s.y == 7 ==> !ClearLine(b, s, k)
    ensures !Captures(b, s, k)
  {
  }

  /** Every pawn of White may open the game with a double step. */
  lemma OpeningIsLegal(p: Position, x: int)
    requires p == Start() && 0 <= x < 8
    ensures Legal(p, Sq(x, 1), Sq(x, 3))
  {
    var s, d, k := Sq(x, 1), Sq(x, 3), Sq(4, 0);
    assert At(p.board, s) == StartCell(x, 1) && At(p.board, d) == StartCell(x, 3);
    assert At(p.board, Sq(x, 2)) == StartCell(x, 2);
    StartInv();
    assert PseudoLegal(p, s, d);
    OpeningIsSafe(p, s, d, k);
  }

  lemma OpeningIsSafe(p: Position, s: Sq, d: Sq, k: Sq)
    requires Inv(p) && PseudoLegal(p, s, d) && s.y == 1 && d.y == 3
    requires p.side.White? && SoleKing(p.board, Sq(4, 0), White)
    requires p.board == StartBoard() && k == Sq(4, 0) && !IsEnPassant(p, s, d)
    ensures !InCheck(ApplyMove(p, s, d).board, White)
  {
    var b := ApplyMove(p, s, d).board;
    MoveFrame(p, s, d);
    forall q | InBoard(q) && q.y != 1 && q.y != 3 ensures At(b, q) == StartCell(q.x, q.y) {
      assert At(b, q) == CellAfter(p, s, d, q);
    }
    MoverKeepsKing(p, s, d);
    var k' :| SoleKing(b, k', White);
    assert IsKing(b, k, White);
    CheckMeansKingAttacked(b, k, White);
    forall a ensures !AttackedFrom(b, a, k, Black) {
      if AttackedFrom(b, a, k, Black) {
        assert At(b, a) == CellAfter(p, s, d, a);
        assert At(p.board, a) == StartCell(a.x, a.y);
        if a.y == 7 { BlackLinesAreClosed(b, a, k); }
        BlackPieceReachesNothing(b, a, k);
      }
    }
  }

  lemma StartIsNotOver()
    ensures !GameOver(Start())
  {
    OpeningIsLegal(Start(), 4);
  }
}
