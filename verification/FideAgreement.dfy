/** The rule code plays by the FIDE Laws: on every position of a game it accepts exactly the
    moves of Articles 3.1 to 3.9 other than castling, and its positions follow the diagrams. */
module FideAgreement {
  import opened Pieces
  import opened ChessBoard
  import opened Rules
  import opened Invariant
  import opened Games
  import opened SampleGames
  import Fide

  ghost function DiagramOf(b: Board): Fide.Diagram {
    map x, y | 0 <= x < 8 && 0 <= y < 8 && !At(b, Sq(x, y)).dead && At(b, Sq(x, y)).piece.Some? ::
      Sq(x, y) := Fide.Man(At(b, Sq(x, y)).piece.value, At(b, Sq(x, y)).team)
  }

  ghost function View(p: Position): Fide.State {
    Fide.State(DiagramOf(p.board), p.side,
               if p.epX == -1 then None else Some(Sq(p.epX, p.epY + p.side.Opponent().Forward())))
  }

  lemma DiagramCell(b: Board, s: Sq)
    ensures s in DiagramOf(b) <==> InBoard(s) && !At(b, s).dead && At(b, s).piece.Some?
    ensures s in DiagramOf(b) ==> DiagramOf(b)[s] == Fide.Man(At(b, s).piece.value, At(b, s).team)
  {
    if InBoard(s) { assert s == Sq(s.x, s.y); }
  }

  lemma DiagramCells(b: Board)
    ensures forall s :: s in DiagramOf(b) <==> InBoard(s) && !At(b, s).dead && At(b, s).piece.Some?
    ensures forall s :: s in DiagramOf(b) ==> DiagramOf(b)[s] == Fide.Man(At(b, s).piece.value, At(b, s).team)
  {
    forall s {
      DiagramCell(b, s);
    }
  }

  // ----- lines

  /** The squares passed on an open line are those counted from its start. */
  lemma BetweenIsTowards(s: Sq, q: Sq, d: Sq)
    requires Fide.SameDiagonal(s, d) || Fide.SameFileOrRank(s, d)
    ensures Fide.Between(s, q, d) <==> 1 <= Distance(s, q) < Distance(s, d) && q == Towards(s, d, Distance(s, q))
  {
  }

  lemma TowardsDistance(s: Sq, d: Sq, n: int)
    requires s != d && n >= 1
    ensures Distance(s, Towards(s, d, n)) == n
  {
  }

  lemma TowardsInBoard(s: Sq, d: Sq, n: int)
    requires InBoard(s) && InBoard(d) && 0 <= n <= Distance(s, d)
    requires Fide.SameDiagonal(s, d) || Fide.SameFileOrRank(s, d)
    ensures InBoard(Towards(s, d, n))
  {
  }

  lemma ClearMeansNothingBetween(b: Board, s: Sq, d: Sq)
    requires DeadIffNull(b) && InBoard(s) && InBoard(d)
    requires Fide.SameDiagonal(s, d) || Fide.SameFileOrRank(s, d)
    ensures ClearLine(b, s, d) <==> Fide.NothingBetween(DiagramOf(b), s, d)
  {
    if ClearLine(b, s, d) {
      forall q | q in DiagramOf(b) ensures !Fide.Between(s, q, d) {
        DiagramCell(b, q);
        BetweenIsTowards(s, q, d);
      }
    }
    if Fide.NothingBetween(DiagramOf(b), s, d) {
      forall n | 1 <= n < Distance(s, d) ensures At(b, Towards(s, d, n)).dead {
        var q := Towards(s, d, n);
        TowardsDistance(s, d, n);
        TowardsInBoard(s, d, n);
        BetweenIsTowards(s, q, d);
        DiagramCell(b, q);
      }
    }
  }

  // ----- attacks and check

  lemma CapturesAgree(b: Board, s: Sq, t: Sq)
    requires DeadIffNull(b) && InBoard(t) && s in DiagramOf(b)
    ensures Captures(b, s, t) <==> Fide.Attacks(DiagramOf(b), s, t)
  {
    DiagramCell(b, s);
    if Fide.SameDiagonal(s, t) || Fide.SameFileOrRank(s, t) {
      ClearMeansNothingBetween(b, s, t);
    }
  }

  lemma AttacksAgree(b: Board, t: Sq, team: Team)
    requires DeadIffNull(b) && InBoard(t)
    ensures Attacked(b, t, team) <==> Fide.UnderAttack(DiagramOf(b), t, team)
  {
    var dg := DiagramOf(b);
    if Attacked(b, t, team) {
      var s :| AttackedFrom(b, s, t, team);
      DiagramCell(b, s);
      CapturesAgree(b, s, t);
    }
    if s :| s in dg && dg[s].team == team && Fide.Attacks(dg, s, t) {
      DiagramCell(b, s);
      CapturesAgree(b, s, t);
      assert AttackedFrom(b, s, t, team);
    }
  }

  lemma CheckAgrees(b: Board, team: Team)
    requires DeadIffNull(b) && OneKing(b, team)
    ensures InCheck(b, team) <==> Fide.InCheck(DiagramOf(b), team)
  {
    var k :| SoleKing(b, k, team);
    CheckMeansKingAttacked(b, k, team);
    AttacksAgree(b, k, team.Opponent());
    DiagramCell(b, k);
    var dg := DiagramOf(b);
    if j :| j in dg && dg[j] == Fide.Man(King, team) && Fide.UnderAttack(dg, j, team.Opponent()) {
      DiagramCell(b, j);
      assert IsKing(b, j, team);
    }
  }

  // ----- moves

  lemma PassingAgrees(p: Position, s: Sq, d: Sq)
    requires Inv(p) && InBoard(s) && InBoard(d) && IsMan(At(p.board, s), Pawn, p.side)
    ensures s in View(p).diagram
    ensures Fide.TakesInPassing(View(p), s, d) <==>
            PawnCaptures(p.side, s, d) && At(p.board, d).dead && d == Sq(p.epX, p.epY)
  {
    DiagramCell(p.board, s);
    DiagramCell(p.board, d);
  }

  lemma PawnsAgree(p: Position, s: Sq, d: Sq)
    requires Inv(p) && InBoard(s) && InBoard(d) && IsMan(At(p.board, s), Pawn, p.side)
    ensures s in View(p).diagram
    ensures PieceMay(p, s, d) <==> Fide.PawnMay(View(p), s, d)
  {
    PassingAgrees(p, s, d);
    DiagramCells(p.board);
    assert PawnFits(At(p.board, s), s.y);
  }

  lemma MovesAgree(p: Position, s: Sq, d: Sq)
    requires Inv(p)
    ensures PseudoLegal(p, s, d) <==> Fide.May(View(p), s, d)
  {
    DiagramCell(p.board, s);
    DiagramCell(p.board, d);
    if InBoard(s) && InBoard(d) && Owns(At(p.board, s), p.side) {
      if At(p.board, s).piece == Some(Pawn) {
        PawnsAgree(p, s, d);
      } else {
        CapturesAgree(p.board, s, d);
      }
    }
  }

  /** The code removes a bypassed pawn exactly when the Laws do. */
  lemma PassingIsEnPassant(p: Position, s: Sq, d: Sq)
    requires Inv(p) && PseudoLegal(p, s, d)
    ensures s in View(p).diagram
    ensures Fide.TakesInPassing(View(p), s, d) <==> IsEnPassant(p, s, d)
  {
    DiagramCell(p.board, s);
    if At(p.board, s).piece == Some(Pawn) {
      PassingAgrees(p, s, d);
      if IsEnPassant(p, s, d) { EnPassantVictim(p, s, d); }
    }
  }

  lemma DiagramOfTheLaws(st: Fide.State, s: Sq, d: Sq, q: Sq)
    requires s in st.diagram
    ensures var c := Fide.After(st, s, d).diagram;
            && (q in c <==>
                  q == d || (q in st.diagram && q != s && !(Fide.TakesInPassing(st, s, d) && q == Sq(d.x, s.y))))
            && (q in c ==> c[q] == if q == d then Fide.Promoted(st.diagram[s], d) else st.diagram[q])
  {
  }

  lemma DiagramOfTheCode(p: Position, s: Sq, d: Sq, q: Sq)
    requires Inv(p) && PseudoLegal(p, s, d) && s in View(p).diagram
    ensures var dg, a := DiagramOf(p.board), DiagramOf(ApplyMove(p, s, d).board);
            && (q in a <==> q == d || (q in dg && q != s && !(IsEnPassant(p, s, d) && q == Sq(d.x, s.y))))
            && (q in a ==> a[q] == if q == d then Fide.Promoted(dg[s], d) else dg[q])
  {
    MoveFrame(p, s, d);
    DiagramCell(ApplyMove(p, s, d).board, q);
    assert At(ApplyMove(p, s, d).board, q) == CellAfter(p, s, d, q);
    DiagramCell(p.board, q);
    DiagramCell(p.board, s);
  }

  lemma SquareAfter(p: Position, s: Sq, d: Sq, q: Sq)
    requires Inv(p) && PseudoLegal(p, s, d) && s in View(p).diagram
    ensures var a, c := DiagramOf(ApplyMove(p, s, d).board), Fide.After(View(p), s, d).diagram;
            (q in a <==> q in c) && (q in a ==> a[q] == c[q])
  {
    PassingIsEnPassant(p, s, d);
    DiagramOfTheCode(p, s, d, q);
    DiagramOfTheLaws(View(p), s, d, q);
  }

  /** The code's board follows the diagram. */
  lemma DiagramAfter(p: Position, s: Sq, d: Sq)
    requires Inv(p) && PseudoLegal(p, s, d)
    ensures s in View(p).diagram
    ensures DiagramOf(ApplyMove(p, s, d).board) == Fide.After(View(p), s, d).diagram
  {
    hide Inv, PseudoLegal, ApplyMove, DiagramOf, View, Fide.After, Fide.TakesInPassing, IsEnPassant;
    PassingIsEnPassant(p, s, d);
    var a, c := DiagramOf(ApplyMove(p, s, d).board), Fide.After(View(p), s, d).diagram;
    forall q ensures (q in a <==> q in c) && (q in a ==> a[q] == c[q]) {
      SquareAfter(p, s, d, q);
    }
  }

  /** A move made by the code is the move of the Laws. */
  lemma ViewAfter(p: Position, s: Sq, d: Sq)
    requires Inv(p) && PseudoLegal(p, s, d)
    ensures s in View(p).diagram
    ensures View(ApplyMove(p, s, d)) == Fide.After(View(p), s, d)
  {
    DiagramAfter(p, s, d);
    DiagramCell(p.board, s);
    MoveFrame(p, s, d);
    KeepsTargetFits(p, s, d);
    if JumpsLikePawn(At(p.board, s), s, d) { DoubleStepGeometry(p, s, d); }
  }

  /** The verdict of `is_move_legal` on a position of a game: exactly the Laws without castling. */
  lemma LegalIffFide(p: Position, s: Sq, d: Sq)
    requires Inv(p)
    ensures Legal(p, s, d) <==> Fide.Legal(View(p), s, d)
  {
    MovesAgree(p, s, d);
    if PseudoLegal(p, s, d) {
      DiagramAfter(p, s, d);
      KeepsDeadIffNull(p, s, d);
      MoverKeepsKing(p, s, d);
      CheckAgrees(ApplyMove(p, s, d).board, p.side);
    }
  }

  // ----- whole games

  /** The code and the Laws allow the same games, and show the same diagrams throughout. */
  lemma {:induction false} RunsAgree(p: Position, ms: seq<Move>)
    requires Inv(p)
    ensures LegalRun(p, ms) <==> Fide.Run(View(p), ms)
    ensures LegalRun(p, ms) ==> View(Play(p, ms)) == Fide.Play(View(p), ms)
    decreases |ms|
  {
    if ms != [] {
      var m := ms[0];
      LegalIffFide(p, m.from, m.to);
      if LegalMove(p, m) {
        ViewAfter(p, m.from, m.to);
        LegalMoveKeepsInv(p, m.from, m.to);
        RunsAgree(Step(p, m), ms[1..]);
      }
    }
  }

  /** From the start position: the games the server can play are the games of the Laws without
      castling. */
  lemma {:induction false} GamesAgree(ms: seq<Move>)
    ensures LegalRun(Start(), ms) <==> Fide.Run(View(Start()), ms)
    ensures LegalRun(Start(), ms) ==> View(Play(Start(), ms)) == Fide.Play(View(Start()), ms)
  {
    StartInv();
    RunsAgree(Start(), ms);
  }

  // ----- castling

  /** The code refuses every castling, so it departs from the Laws exactly on those moves,
      whichever castlings the player has not forfeited. */
  lemma DepartsExactlyOnCastling(p: Position, unmoved: Fide.Unmoved, s: Sq, d: Sq)
    requires Inv(p)
    ensures (Legal(p, s, d) <==> Fide.LegalOrCastles(View(p), unmoved, s, d))
       <==> !Fide.Castles(View(p), unmoved, s, d)
  {
    LegalIffFide(p, s, d);
    if Fide.Castles(View(p), unmoved, s, d) {
      DiagramCell(p.board, s);
      if PseudoLegal(p, s, d) { KingStepsAreSingle(p, s, d); }
    }
  }

  /** A short legal game after which the Laws allow White to castle and the program, although it
      promises castling and still holds the right to it, does not. */
  lemma CastlingIsRefused()
    ensures LegalRun(Start(), CastlingOpening())
    ensures var p := Play(Start(), CastlingOpening());
            && p.whiteKingside
            && Fide.Castles(View(p), Fide.Unmoved(p.whiteKingside, p.whiteQueenside), Sq(4, 0), Sq(6, 0))
            && !Legal(p, Sq(4, 0), Sq(6, 0))
  {
    CastlingOpeningIsLegal();
    var p := Play(Start(), CastlingOpening());
    hide Play, LegalRun;
    MayCastle(p);
    if PseudoLegal(p, Sq(4, 0), Sq(6, 0)) { KingStepsAreSingle(p, Sq(4, 0), Sq(6, 0)); }
  }

  lemma MayCastle(p: Position)
    requires Opening(p, White, 6, Castle6())
    ensures Fide.CastlesTo(View(p), Fide.Unmoved(p.whiteKingside, p.whiteQueenside), Sq(4, 0), Sq(6, 0), true)
  {
    ReadyToCastle(p);
    var dg := DiagramOf(p.board);
    DiagramCells(p.board);
    AttacksAgree(p.board, Sq(4, 0), Black);
    AttacksAgree(p.board, Sq(5, 0), Black);
    AttacksAgree(p.board, Sq(6, 0), Black);
    WayIsFree(dg);
    assert At(p.board, Sq(4, 0)) == At(p.board, Home(White));
    hide Inv, Looks, Calm, DiagramOf, Attacked, Fide.UnderAttack, Fide.NothingBetween;
  }

  lemma WayIsFree(dg: Fide.Diagram)
    requires Sq(5, 0) !in dg && Sq(6, 0) !in dg
    ensures Fide.NothingBetween(dg, Sq(4, 0), Sq(7, 0))
  {
    forall q | q in dg ensures !Fide.Between(Sq(4, 0), q, Sq(7, 0)) {
      assert q != Sq(5, 0) && q != Sq(6, 0);
    }
  }

  /** With the king gone from `s`, a line through `s` to `m` was a line to the king. */
  lemma LineThroughKing(b: Board, b': Board, a: Sq, s: Sq, m: Sq, k: Kind)
    requires forall q :: q != s && q != m ==> At(b', q) == At(b, q)
    requires IsSlider(k) && Geometry(k, m.x - a.x, m.y - a.y) && ClearLine(b', a, m) && !ClearLine(b, a, m)
    ensures Geometry(k, s.x - a.x, s.y - a.y) && ClearLine(b, a, s)
  {
    var n :| 1 <= n < Distance(a, m) && !At(b, Towards(a, m, n)).dead;
    ShorterLine(a, m, n, k);
    assert Towards(a, m, n) == s by {
      assert At(b', Towards(a, m, n)).dead;
      BeforeTheEnd(a, m, n);
    }
    forall j | 1 <= j < n ensures At(b, Towards(a, s, j)).dead {
      ShorterLine(a, m, j, k);
      BeforeTheEnd(a, m, j);
      assert Towards(a, s, j) == Towards(a, m, j);
      assert At(b', Towards(a, m, j)).dead;
    }
  }

  lemma BeforeTheEnd(a: Sq, m: Sq, n: int)
    requires 1 <= n < Distance(a, m)
    ensures Towards(a, m, n) != m
  {
  }

  lemma AttackKeptOffLine(b: Board, b': Board, a: Sq, m: Sq)
    requires At(b, a) == At(b', a) && Captures(b', a, m)
    requires IsSlider(At(b, a).piece.value) ==> ClearLine(b, a, m)
    ensures Captures(b, a, m)
  {
  }

  lemma AttackOnLine(b: Board, a: Sq, s: Sq, k: Kind)
    requires At(b, a).piece == Some(k) && IsSlider(k) && Geometry(k, s.x - a.x, s.y - a.y) && ClearLine(b, a, s)
    ensures Captures(b, a, s)
  {
  }

  lemma SliderCaptures(b: Board, a: Sq, m: Sq)
    requires Captures(b, a, m) && IsSlider(At(b, a).piece.value)
    ensures Geometry(At(b, a).piece.value, m.x - a.x, m.y - a.y) && ClearLine(b, a, m)
  {
  }

  /** With the king gone from `s` to the empty neighbour `m`, an attack on `m` was already an
      attack on `m` or on the king. */
  lemma AttackThroughKing(b: Board, b': Board, a: Sq, s: Sq, m: Sq, team: Team)
    requires forall q :: q != s && q != m ==> At(b', q) == At(b, q)
    requires a != s && a != m && AttackedFrom(b', a, m, team)
    ensures Attacked(b, m, team) || Attacked(b, s, team)
  {
    var k := At(b, a).piece.value;
    if IsSlider(k) && !ClearLine(b, a, m) {
      SliderCaptures(b', a, m);
      LineThroughKing(b, b', a, s, m, k);
      AttackOnLine(b, a, s, k);
      assert AttackedFrom(b, a, s, team);
    } else {
      AttackKeptOffLine(b, b', a, m);
      assert AttackedFrom(b, a, m, team);
    }
  }

  /** A square on the way is reached along the same line. */
  lemma ShorterLine(a: Sq, m: Sq, n: int, k: Kind)
    requires IsSlider(k) && Geometry(k, m.x - a.x, m.y - a.y) && 1 <= n < Distance(a, m)
    ensures var s := Towards(a, m, n);
            && Geometry(k, s.x - a.x, s.y - a.y) && Distance(a, s) == n
            && forall j :: Towards(a, s, j) == Towards(a, m, j)
  {
  }

  lemma CrossedSquare(st: Fide.State, unmoved: Fide.Unmoved, s: Sq, d: Sq, kingside: bool) returns (m: Sq)
    requires Fide.CastlesTo(st, unmoved, s, d, kingside)
    ensures InBoard(m) && m.y == s.y && Abs(m.x - s.x) == 1 && m !in st.diagram
    ensures s in st.diagram && st.diagram[s] == Fide.Man(King, st.turn)
    ensures !Fide.UnderAttack(st.diagram, s, st.turn.Opponent()) && !Fide.UnderAttack(st.diagram, m, st.turn.Opponent())
  {
    m := Sq(if kingside then 5 else 3, s.y);
    var rook := Sq(if kingside then 7 else 0, s.y);
    assert Fide.Between(s, m, rook);
  }

  lemma KingMayStep(p: Position, s: Sq, m: Sq)
    requires Inv(p) && s in View(p).diagram && View(p).diagram[s] == Fide.Man(King, p.side)
    requires InBoard(m) && m.y == s.y && Abs(m.x - s.x) == 1 && m !in View(p).diagram
    ensures PseudoLegal(p, s, m) && IsKing(p.board, s, p.side) && At(p.board, m).dead
  {
    DiagramCell(p.board, s);
    DiagramCell(p.board, m);
  }

  /** Where castling is allowed, the king may also make the first half of the move alone. */
  lemma CastlingLeavesAStep(p: Position, unmoved: Fide.Unmoved, s: Sq, d: Sq)
    requires Inv(p) && Fide.Castles(View(p), unmoved, s, d)
    ensures exists m :: Legal(p, s, m)
  {
    var kingside := Fide.CastlesTo(View(p), unmoved, s, d, true);
    var m := CrossedSquare(View(p), unmoved, s, d, kingside);
    KingMayStep(p, s, m);
    StepIsSafe(p, s, m);
    assert Legal(p, s, m);
  }

  lemma StepIsSafe(p: Position, s: Sq, m: Sq)
    requires Inv(p) && PseudoLegal(p, s, m) && IsKing(p.board, s, p.side) && At(p.board, m).dead
    requires !Fide.UnderAttack(DiagramOf(p.board), s, p.side.Opponent())
    requires !Fide.UnderAttack(DiagramOf(p.board), m, p.side.Opponent())
    ensures !InCheck(ApplyMove(p, s, m).board, p.side)
  {
    var b, b', team := p.board, ApplyMove(p, s, m).board, p.side.Opponent();
    AttacksAgree(b, s, team);
    AttacksAgree(b, m, team);
    MoveFrame(p, s, m);
    assert SoleKing(b', m, p.side) by {
      MoverKeepsKing(p, s, m);
      assert At(b', m) == CellAfter(p, s, m, m);
      var k :| SoleKing(b', k, p.side);
      assert IsKing(b', m, p.side);
    }
    CheckMeansKingAttacked(b', m, p.side);
    if Attacked(b', m, team) {
      var a :| AttackedFrom(b', a, m, team);
      assert At(b', m) == CellAfter(p, s, m, m) && At(b', s) == CellAfter(p, s, m, s);
      forall q | q != s && q != m ensures At(b', q) == At(b, q) {
        assert At(b', q) == CellAfter(p, s, m, q);
      }
      AttackThroughKing(b, b', a, s, m, team);
    }
  }

  /** Hence the verdicts of checkmate and stalemate are those of the full Laws, castling
      included, although no castling is ever accepted. */
  lemma VerdictsAreFide(p: Position, unmoved: Fide.Unmoved)
    requires Inv(p)
    ensures Checkmate(p) <==> Fide.Mated(View(p), unmoved)
    ensures Stalemate(p) <==> Fide.Stalemated(View(p), unmoved)
  {
    assert OneKing(p.board, p.side);
    CheckAgrees(p.board, p.side);
    if HasLegalMove(p) {
      var s, d :| Legal(p, s, d);
      LegalIffFide(p, s, d);
      assert Fide.LegalOrCastles(View(p), unmoved, s, d);
    }
    if Fide.CanMove(View(p), unmoved) {
      var s, d :| Fide.LegalOrCastles(View(p), unmoved, s, d);
      LegalIffFide(p, s, d);
      if !Legal(p, s, d) { CastlingLeavesAStep(p, unmoved, s, d); }
    }
  }
}
