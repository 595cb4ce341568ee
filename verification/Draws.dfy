/** Draws: the count of moves without a pawn move or a capture is the one of the Laws; dead positions
    and repetitions, which the program does not know. */
module Draws {
  import opened Pieces
  import opened ChessBoard
  import opened Rules
  import opened Invariant
  import opened Games
  import opened Matching
  import opened SampleGames
  import opened FideAgreement
  import Fide

  // ----- the count

  /** How many moves at the end of `ms` are neither pawn moves nor captures. */
  ghost function QuietTail(st: Fide.State, ms: seq<Move>): (n: nat)
    requires Fide.Run(st, ms)
    ensures n <= |ms| && (n == |ms| <==> Fide.AllQuiet(st, ms))
    decreases |ms|
  {
    if ms == [] then 0
    else
      var n := QuietTail(Fide.After(st, ms[0].from, ms[0].to), ms[1..]);
      if n == |ms| - 1 && Fide.Quiet(st, ms[0]) then |ms| else n
  }

  /** Players alternate. */
  lemma {:induction false} MovesAlternate(st: Fide.State, ms: seq<Move>)
    requires Fide.Run(st, ms)
    ensures Fide.MovesBy(st, ms, st.turn) == (|ms| + 1) / 2 && Fide.MovesBy(st, ms, st.turn.Opponent()) == |ms| / 2
    decreases |ms|
  {
    if ms != [] { MovesAlternate(Fide.After(st, ms[0].from, ms[0].to), ms[1..]); }
  }

  /** Fifty moves of each player are a hundred in a row. */
  lemma {:induction false} FiftyEachIsHundred(st: Fide.State, ms: seq<Move>)
    requires Fide.Run(st, ms)
    ensures Fide.FiftyMovesEach(st, ms) <==> QuietTail(st, ms) >= 100
    decreases |ms|
  {
    MovesAlternate(st, ms);
    assert st.turn.White? || st.turn.Black?;
    if ms != [] { FiftyEachIsHundred(Fide.After(st, ms[0].from, ms[0].to), ms[1..]); }
  }

  lemma ClockAfterIsQuiet(p: Position, m: Move)
    requires Inv(p) && LegalMove(p, m)
    ensures m.from in View(p).diagram
    ensures Step(p, m).clock == if Fide.Quiet(View(p), m) then p.clock + 1 else 0
  {
    MoveFrame(p, m.from, m.to);
    DiagramCell(p.board, m.from);
    DiagramCell(p.board, m.to);
  }

  lemma LegalView(p: Position, m: Move)
    requires Inv(p) && LegalMove(p, m)
    ensures m.from in View(p).diagram
    ensures View(Step(p, m)) == Fide.After(View(p), m.from, m.to)
  {
    ViewAfter(p, m.from, m.to);
  }

  /** The first move of a run counts if all the others do. */
  lemma {:induction false} TailGrows(p: Position, ms: seq<Move>)
    requires Inv(p) && ms != [] && LegalRun(p, ms)
    ensures Fide.Run(View(p), ms) && Fide.Run(View(Step(p, ms[0])), ms[1..])
    ensures var q := Step(p, ms[0]);
            var n := QuietTail(View(q), ms[1..]);
            && q.clock == (if q.clock != 0 then p.clock + 1 else 0)
            && QuietTail(View(p), ms) == if n == |ms| - 1 && q.clock != 0 then |ms| else n
  {
    RunsAgree(p, ms);
    ClockAfterIsQuiet(p, ms[0]);
    LegalView(p, ms[0]);
    hide ApplyMove, Step, LegalMove, Fide.Legal, Fide.After, Fide.Quiet, Fide.AllQuiet, View;
  }

  lemma {:induction false} NothingPlayed(p: Position, ms: seq<Move>)
    requires ms == []
    ensures Fide.Run(View(p), ms) && QuietTail(View(p), ms) == 0 && Play(p, ms) == p
  {
  }

  lemma {:induction false} FirstPlayed(p: Position, ms: seq<Move>)
    requires Inv(p) && ms != [] && LegalRun(p, ms)
    ensures Inv(Step(p, ms[0])) && LegalRun(Step(p, ms[0]), ms[1..])
    ensures Play(p, ms) == Play(Step(p, ms[0]), ms[1..])
  {
    StepTurns(p, ms[0]);
  }

  lemma {:induction false} ClockCounts(p: Position, ms: seq<Move>)
    requires Inv(p) && LegalRun(p, ms)
    ensures Fide.Run(View(p), ms)
    ensures var n := QuietTail(View(p), ms); Play(p, ms).clock == if n == |ms| then p.clock + n else n
    decreases |ms|
  {
    hide *;
    if ms == [] {
      NothingPlayed(p, ms);
    } else {
      FirstPlayed(p, ms);
      TailGrows(p, ms);
      ClockCounts(Step(p, ms[0]), ms[1..]);
    }
  }

  /** In every game the clock is the number of last moves without a pawn move or a capture, and
      it stands at 100 or more exactly when Article 9.3.2 allows a player to claim a draw. */
  lemma {:induction false} ClockIsFide(ms: seq<Move>)
    requires LegalRun(Start(), ms)
    ensures Fide.Run(View(Start()), ms)
    ensures Play(Start(), ms).clock == QuietTail(View(Start()), ms)
    ensures FiftyMoves(Play(Start(), ms)) <==> Fide.FiftyMovesEach(View(Start()), ms)
  {
    var p := Start();
    StartInv();
    ClockCounts(p, ms);
    FiftyEachIsHundred(View(p), ms);
  }

  /** After fifty moves of each knight the program ends the game as a draw, without a claim and
      although nobody is mated or stalemated. */
  lemma DrawnWithoutClaim()
    ensures AcceptedRun(Start(), ShuffleRun(0, 100))
    ensures Judge(Play(Start(), ShuffleRun(0, 100))).ends && Judge(Play(Start(), ShuffleRun(0, 100))).how == Draw
  {
    hide *;
    StartShuffles();
    ShuffleRunIsLegal(Start(), 0, 100);
    ShuffleIsNotOver(Play(Start(), ShuffleRun(0, 100)), 100);
    CountAlone(Play(Start(), ShuffleRun(0, 100)));
  }

  lemma CountAlone(p: Position)
    requires !Checkmate(p) && !Stalemate(p) && FiftyMoves(p)
    ensures Judge(p).ends && Judge(p).how == Draw
  {
    hide Checkmate, Stalemate, FiftyMoves, InCheck;
  }

  // ----- dead positions

  /** In a dead position, where the Laws have ended the game (Article 5.2.2), the program ends it
      only by stalemate or by the count. */
  lemma DeadPositionsPlayOn(p: Position)
    requires Inv(p) && Fide.DeadPosition(View(p))
    ensures Judge(p).ends <==> Stalemate(p) || FiftyMoves(p)
  {
    assert Fide.Run(View(p), []) && Fide.Play(View(p), []) == View(p);
    VerdictsAreFide(p, Fide.Unmoved(false, false));
    hide Inv, Checkmate, Stalemate, FiftyMoves, InCheck, View, Fide.Mated, Fide.Stalemated;
  }

  ghost predicate OnlyKings(p: Position) {
    forall q :: !At(p.board, q).dead ==> At(p.board, q).piece == Some(King)
  }

  lemma {:induction false} KingsStayAlone(p: Position, ms: seq<Move>)
    requires Inv(p) && OnlyKings(p) && LegalRun(p, ms)
    ensures Inv(Play(p, ms)) && OnlyKings(Play(p, ms))
    decreases |ms|
  {
    if ms != [] {
      var m := ms[0];
      MoveFrame(p, m.from, m.to);
      LegalMoveKeepsInv(p, m.from, m.to);
      forall q ensures !At(Step(p, m).board, q).dead ==> At(Step(p, m).board, q).piece == Some(King) {
        assert At(Step(p, m).board, q) == CellAfter(p, m.from, m.to, q);
      }
      KingsStayAlone(Step(p, m), ms[1..]);
    }
  }

  /** A square beside the king, away from the other king. */
  function Aside(k: Sq, e: Sq): Sq {
    if Abs(e.x - k.x) >= 2 then Sq(k.x, if k.y < 7 then k.y + 1 else k.y - 1)
    else Sq(if k.x < 7 then k.x + 1 else k.x - 1, k.y)
  }

  lemma KingsKeepApart(p: Position, k: Sq, e: Sq)
    requires Inv(p) && SoleKing(p.board, k, p.side) && SoleKing(p.board, e, p.side.Opponent())
    ensures Abs(e.x - k.x) >= 2 || Abs(e.y - k.y) >= 2
  {
    CheckMeansKingAttacked(p.board, e, p.side.Opponent());
    if Abs(e.x - k.x) <= 1 && Abs(e.y - k.y) <= 1 {
      assert AttackedFrom(p.board, k, e, p.side);
    }
  }

  lemma EveryManIsKing(p: Position)
    requires OnlyKings(p)
    ensures forall q, t :: Owns(At(p.board, q), t) ==> IsKing(p.board, q, t)
  {
  }

  /** The king has stepped aside. */
  lemma AfterStep(p: Position, k: Sq, e: Sq, d: Sq)
    requires Inv(p) && OnlyKings(p) && PseudoLegal(p, k, d)
    requires SoleKing(p.board, k, p.side) && SoleKing(p.board, e, p.side.Opponent())
    ensures var b := ApplyMove(p, k, d).board;
            && SoleKing(b, d, p.side) && (e != d ==> IsKing(b, e, p.side.Opponent()))
            && forall q :: Owns(At(b, q), p.side.Opponent()) ==> q == e
  {
    var b := ApplyMove(p, k, d).board;
    MoveFrame(p, k, d);
    EveryManIsKing(p);
    MoverKeepsKing(p, k, d);
    assert At(b, d) == CellAfter(p, k, d, d);
    assert IsKing(b, d, p.side);
    forall q | Owns(At(b, q), p.side.Opponent()) ensures q == e {
      assert At(b, q) == CellAfter(p, k, d, q);
      assert IsKing(p.board, q, p.side.Opponent());
    }
    if e != d { assert At(b, e) == CellAfter(p, k, d, e); }
  }

  /** A lone king facing a lone king is never in check and always has a move. */
  lemma LoneKingCanMove(p: Position)
    requires Inv(p) && OnlyKings(p)
    ensures !InCheck(p.board, p.side) && HasLegalMove(p)
  {
    EveryManIsKing(p);
    assert OneKing(p.board, p.side) && OneKing(p.board, p.side.Opponent());
    var k :| SoleKing(p.board, k, p.side);
    var e :| SoleKing(p.board, e, p.side.Opponent());
    KingsKeepApart(p, k, e);
    var d := Aside(k, e);
    KingIsSafe(p.board, p, k, e);
    StepsAside(p, k, e, d);
    AfterStep(p, k, e, d);
    KingIsSafe(ApplyMove(p, k, d).board, p, d, e);
    assert Legal(p, k, d);
  }

  lemma StepsAside(p: Position, k: Sq, e: Sq, d: Sq)
    requires OnlyKings(p) && SoleKing(p.board, k, p.side) && SoleKing(p.board, e, p.side.Opponent())
    requires Abs(e.x - k.x) >= 2 || Abs(e.y - k.y) >= 2
    requires d == Aside(k, e)
    ensures PseudoLegal(p, k, d) && d != e && (Abs(e.x - d.x) >= 2 || Abs(e.y - d.y) >= 2)
  {
    EveryManIsKing(p);
    assert !IsKing(p.board, d, p.side);
  }

  lemma KingIsSafe(b: Board, p: Position, k: Sq, e: Sq)
    requires SoleKing(b, k, p.side) && IsKing(b, e, p.side.Opponent())
    requires forall q :: Owns(At(b, q), p.side.Opponent()) ==> q == e
    requires Abs(e.x - k.x) >= 2 || Abs(e.y - k.y) >= 2
    ensures !InCheck(b, p.side)
  {
    CheckMeansKingAttacked(b, k, p.side);
  }

  /** King against king is dead by the Laws (Article 5.2.2), so the game is over there; the
      program plays on, until the count reaches 100. */
  lemma BareKingsPlayOn(p: Position)
    requires Inv(p) && OnlyKings(p)
    ensures Fide.DeadPosition(View(p))
    ensures Judge(p).ends <==> FiftyMoves(p)
  {
    LoneKingCanMove(p);
    forall ms | Fide.Run(View(p), ms) ensures !Fide.Mated(Fide.Play(View(p), ms), Fide.Unmoved(false, false)) {
      RunsAgree(p, ms);
      KingsStayAlone(p, ms);
      LoneKingCanMove(Play(p, ms));
      VerdictsAreFide(Play(p, ms), Fide.Unmoved(false, false));
    }
  }

  // ----- an input: the kings alone on their home squares

  function BareKings(): Position {
    var b: Board := seq(64, _ => EMPTY);
    var b' := Put(b, Home(White), Man(King, White, true));
    Position(Put(b', Home(Black), Man(King, Black, true)), White, 0, false, false, false, false, -1, -1)
  }

  lemma BareKingsCell(q: Sq)
    ensures At(BareKings().board, q) ==
            if q == Home(White) then Man(King, White, true)
            else if q == Home(Black) then Man(King, Black, true) else EMPTY
  {
    if InBoard(q) { assert 0 <= Index(q) < 64; }
  }

  /** A dead position in which the program plays on. */
  lemma BareKingsAreDead()
    ensures var p := BareKings(); Inv(p) && OnlyKings(p) && Fide.DeadPosition(View(p)) && !Judge(p).ends
  {
    var p := BareKings();
    forall q
      ensures At(p.board, q) == if q == Home(White) then Man(King, White, true)
              else if q == Home(Black) then Man(King, Black, true) else EMPTY
    {
      BareKingsCell(q);
    }
    KingsFarApart(p);
    hide View, Fide.DeadPosition, Judge, Inv;
    BareKingsPlayOn(p);
  }

  lemma KingsFarApart(p: Position)
    requires p.side == White && p.clock == 0 && p.epX == p.epY == -1
    requires !p.whiteKingside && !p.whiteQueenside && !p.blackKingside && !p.blackQueenside
    requires forall q :: At(p.board, q) ==
               if q == Home(White) then Man(King, White, true)
               else if q == Home(Black) then Man(King, Black, true) else EMPTY
    ensures Inv(p) && OnlyKings(p)
  {
    assert SoleKing(p.board, Home(White), White) && SoleKing(p.board, Home(Black), Black);
    KingIsSafe(p.board, p.(side := Black), Home(Black), Home(White));
  }

  // ----- repetition, Articles 9.2 and 9.6.1

  /** Article 9.2.2: the same player to move, the same men on the same squares, the same captures in
      passing and the same rights to castle. */
  ghost predicate SamePosition(p: Position, q: Position) {
    && View(p) == View(q)
    && p.whiteKingside == q.whiteKingside && p.whiteQueenside == q.whiteQueenside
    && p.blackKingside == q.blackKingside && p.blackQueenside == q.blackQueenside
  }

  /** How often `target` has been on the board, from `p` on and during the moves `ms`. */
  ghost function Occurrences(p: Position, ms: seq<Move>, target: Position): nat
    decreases |ms|
  {
    (if SamePosition(p, target) then 1 else 0) +
    if ms == [] then 0 else Occurrences(Step(p, ms[0]), ms[1..], target)
  }

  predicate KnightSquare(q: Sq) {
    q == Near(White) || q == Far(White) || q == Near(Black) || q == Far(Black)
  }

  lemma ShuffleFrame(p: Position, n: nat, q: Sq)
    requires Shuffles(p, n) && !KnightSquare(q)
    ensures At(Step(p, Shuffle(n)).board, q) == At(p.board, q)
  {
    var m := Shuffle(n);
    hide Inv, Calm, PseudoLegal, KnightAt, Out, At, IsKing, ApplyMove, IsEnPassant;
    ShuffleIsPseudoLegal(p, n);
    ShuffleIsCalm(p, n);
    CellAfterMove(p, m, q);
  }

  lemma CellAfterMove(p: Position, m: Move, q: Sq)
    requires Inv(p) && PseudoLegal(p, m.from, m.to)
    ensures At(Step(p, m).board, q) == CellAfter(p, m.from, m.to, q)
  {
    MoveFrame(p, m.from, m.to);
  }

  lemma {:induction false} ShuffleRunFrame(p: Position, n: nat, k: nat, q: Sq)
    requires Shuffles(p, n) && !KnightSquare(q)
    ensures At(Play(p, ShuffleRun(n, k)).board, q) == At(p.board, q)
    decreases k
  {
    hide Shuffles, Step, Shuffle, At, KnightSquare;
    if k > 0 {
      ShuffleStep(p, n);
      ShuffleFrame(p, n, q);
      ShuffleRunFrame(Step(p, Shuffle(n)), n + 1, k - 1, q);
      RunCons(p, Shuffle(n), ShuffleRun(n + 1, k - 1));
    }
  }

  /** Two positions of the shuffle four moves apart look the same. */
  lemma SameSquare(p: Position, p': Position, n: nat, q: Sq)
    requires Shuffles(p, n) && Shuffles(p', n + 4) && (!KnightSquare(q) ==> At(p'.board, q) == At(p.board, q))
    ensures q in DiagramOf(p'.board) <==> q in DiagramOf(p.board)
    ensures q in DiagramOf(p.board) ==> DiagramOf(p'.board)[q] == DiagramOf(p.board)[q]
  {
    OutRepeats(n);
    hide DiagramOf, Calm, Out, Mover, At, IsKing, InCheck, TargetFits, RightsFit, OneKing, PawnsFit;
    DiagramCell(p.board, q);
    DiagramCell(p'.board, q);
  }

  lemma FourMovesOn(n: nat)
    ensures Phase(n + 4) == Phase(n)
  {
    assert n + 4 == 4 * (n / 4 + 1) + n % 4;
  }

  lemma OutRepeats(n: nat)
    ensures Out(White, n + 4) == Out(White, n) && Out(Black, n + 4) == Out(Black, n) && Mover(n + 4) == Mover(n)
  {
    hide Phase;
    FourMovesOn(n);
  }

  lemma FourMovesRestore(p: Position, n: nat)
    requires Shuffles(p, n)
    ensures Shuffles(Play(p, ShuffleRun(n, 4)), n + 4) && SamePosition(Play(p, ShuffleRun(n, 4)), p)
  {
    hide *;
    ShuffleRunIsLegal(p, n, 4);
    forall q | !KnightSquare(q) ensures At(Play(p, ShuffleRun(n, 4)).board, q) == At(p.board, q) {
      ShuffleRunFrame(p, n, 4, q);
    }
    SameDiagram(p, Play(p, ShuffleRun(n, 4)), n);
  }

  lemma SameDiagram(p: Position, p': Position, n: nat)
    requires Shuffles(p, n) && Shuffles(p', n + 4)
    requires forall q :: !KnightSquare(q) ==> At(p'.board, q) == At(p.board, q)
    ensures SamePosition(p', p)
  {
    hide DiagramOf, Inv, Calm, KnightAt, IsKing, At, KnightSquare, Out, Mover;
    OutRepeats(n);
    assert DiagramOf(p'.board) == DiagramOf(p.board) by {
      hide *;
      forall q
        ensures q in DiagramOf(p'.board) <==> q in DiagramOf(p.board)
        ensures q in DiagramOf(p.board) ==> DiagramOf(p'.board)[q] == DiagramOf(p.board)[q]
      {
        SameSquare(p, p', n, q);
      }
    }
  }

  lemma {:induction false} OccurrencesCons(p: Position, m: Move, ms: seq<Move>, target: Position)
    ensures Occurrences(p, [m] + ms, target) ==
            (if SamePosition(p, target) then 1 else 0) + Occurrences(Step(p, m), ms, target)
  {
    hide SamePosition, Step;
    assert ([m] + ms)[1..] == ms;
  }

  /** Later occurrences count. */
  lemma {:induction false} LaterOccurrences(p: Position, n: nat, i: nat, j: nat, target: Position)
    ensures Occurrences(p, ShuffleRun(n, i + j), target) >=
            Occurrences(Play(p, ShuffleRun(n, i)), ShuffleRun(n + i, j), target)
    decreases i
  {
    hide Shuffle, Step, SamePosition, Play, Occurrences;
    if i == 0 {
      NothingPlayed(p, ShuffleRun(n, 0));
    } else {
      OccurrencesCons(p, Shuffle(n), ShuffleRun(n + 1, i - 1 + j), target);
      RunCons(p, Shuffle(n), ShuffleRun(n + 1, i - 1));
      LaterOccurrences(Step(p, Shuffle(n)), n + 1, i - 1, j, target);
    }
  }

  lemma {:induction false} ShuffleRepeats(p: Position, n: nat, k: nat, target: Position)
    requires Shuffles(p, n) && SamePosition(p, target)
    ensures Occurrences(p, ShuffleRun(n, 4 * k), target) >= k + 1
    decreases k
  {
    hide Shuffles, Shuffle, Step, SamePosition, Play;
    if k > 0 {
      FourMovesRestore(p, n);
      SameAsTarget(Play(p, ShuffleRun(n, 4)), p, target);
      ShuffleRepeats(Play(p, ShuffleRun(n, 4)), n + 4, k - 1, target);
      OccurrencesCons(p, Shuffle(n), ShuffleRun(n + 1, 4 * k - 1), target);
      LaterOccurrences(Step(p, Shuffle(n)), n + 1, 3, 4 * (k - 1), target);
      RunCons(p, Shuffle(n), ShuffleRun(n + 1, 3));
    }
  }

  lemma SameAsTarget(p: Position, q: Position, target: Position)
    requires SamePosition(p, q) && SamePosition(q, target)
    ensures SamePosition(p, target)
  {
    hide View;
  }

  /** The program does not look at repetitions: a position can occur a third time (k = 2, when a player
      may claim a draw), a fifth time (k = 4, when the Laws end the game) and up to the 25th time,
      and the game goes on. */
  lemma {:induction false} RepetitionIsIgnored(k: nat)
    requires k <= 24
    ensures var ms := ShuffleRun(0, 4 * k);
            && AcceptedRun(Start(), ms) && !GameOver(Play(Start(), ms))
            && Occurrences(Start(), ms, Start()) >= k + 1
            && SamePosition(Play(Start(), ms), Start())
  {
    hide *;
    StartShuffles();
    SameAsItself(Start());
    ShuffleRunIsLegal(Start(), 0, 4 * k);
    ShuffleRunsOn(Play(Start(), ShuffleRun(0, 4 * k)), 4 * k);
    ShuffleRepeats(Start(), 0, k, Start());
    StillTheSame(Start(), 0, k);
  }

  lemma ShuffleRunsOn(p: Position, n: nat)
    requires Shuffles(p, n) && n < 100
    ensures !GameOver(p)
  {
    hide Shuffles, Checkmate, Stalemate, FiftyMoves;
    ShuffleIsNotOver(p, n);
  }

  lemma {:induction false} StillTheSame(p: Position, n: nat, k: nat)
    requires Shuffles(p, n)
    ensures SamePosition(Play(p, ShuffleRun(n, 4 * k)), p)
    decreases k
  {
    hide Shuffles, Shuffle, Step, SamePosition;
    if k == 0 {
      SameAsItself(p);
    } else {
      var q := Play(p, ShuffleRun(n, 4));
      FourMovesRestore(p, n);
      StillTheSame(q, n + 4, k - 1);
      PlayShuffles(p, n, 4, 4 * (k - 1));
      SameAsTarget(Play(q, ShuffleRun(n + 4, 4 * (k - 1))), q, p);
    }
  }

  lemma SameAsItself(p: Position)
    ensures SamePosition(p, p)
  {
  }

  lemma {:induction false} PlayShuffles(p: Position, n: nat, i: nat, j: nat)
    ensures Play(p, ShuffleRun(n, i + j)) == Play(Play(p, ShuffleRun(n, i)), ShuffleRun(n + i, j))
    decreases i
  {
    hide Shuffle, Step;
    if i > 0 {
      RunCons(p, Shuffle(n), ShuffleRun(n + 1, i - 1));
      RunCons(p, Shuffle(n), ShuffleRun(n + 1, i - 1 + j));
      PlayShuffles(Step(p, Shuffle(n)), n + 1, i - 1, j);
    }
  }
}
