/** Sample games, move by move: the quickest mate, an opening after which White may castle, and
    knights that go back and forth for as long as one likes. */
module SampleGames {
  import opened Pieces
  import opened ChessBoard
  import opened Rules
  import opened Invariant
  import opened Games

  // ----- moves in the open

  /** The man on `a` would reach `k` if nothing stood in between. */
  predicate Aims(c: Cell, a: Sq, k: Sq) {
    c.piece.Some? &&
    if c.piece.value.Pawn? then PawnCaptures(c.team, a, k) else Geometry(c.piece.value, k.x - a.x, k.y - a.y)
  }

  ghost predicate Unaimed(b: Board, k: Sq, t: Team) {
    forall a :: Owns(At(b, a), t) ==> !Aims(At(b, a), a, k)
  }

  lemma UnaimedIsSafe(b: Board, k: Sq, t: Team)
    requires Unaimed(b, k, t)
    ensures !Attacked(b, k, t)
  {
    forall a ensures !AttackedFrom(b, a, k, t) {
      assert Owns(At(b, a), t) ==> !Aims(At(b, a), a, k);
    }
  }

  function Home(t: Team): Sq {
    Sq(4, if t.White? then 0 else 7)
  }

  /** The home of the king and the two squares on its right or left, towards the h-file. */
  predicate Guarded(t: Team, k: Sq) {
    k.y == Home(t).y && 4 <= k.x <= 6
  }

  /** Apart from the squares in `changed`, the board is that of the start position. */
  ghost predicate Looks(b: Board, changed: map<Sq, Cell>) {
    forall q :: At(b, q) == if q in changed then changed[q] else At(StartBoard(), q)
  }

  /** No man of either side aims at the squares that the other side guards. */
  ghost predicate Calm(b: Board) {
    forall t: Team, k :: Guarded(t, k) ==> Unaimed(b, k, t.Opponent())
  }

  /** A position of an opening in which both kings are at home and nobody threatens them. */
  ghost predicate Opening(p: Position, side: Team, plies: nat, changed: map<Sq, Cell>) {
    && Inv(p) && p.side == side && p.clock <= plies
    && Looks(p.board, changed) && Calm(p.board)
    && IsKing(p.board, Home(White), White) && IsKing(p.board, Home(Black), Black)
    && p.whiteKingside && p.whiteQueenside && p.blackKingside && p.blackQueenside
  }

  function Man(k: Kind, t: Team, moved: bool): Cell {
    Cell(Some(k), t, false, moved)
  }

  function Moved(changed: map<Sq, Cell>, k: Kind, t: Team, m: Move): map<Sq, Cell> {
    changed[m.to := Man(k, t, true)][m.from := Cell(None, t, true, false)]
  }

  lemma HomeStays(p: Position, m: Move, t: Team)
    requires Inv(p) && PseudoLegal(p, m.from, m.to) && IsKing(p.board, Home(t), t)
    requires m.from != Home(t) && !IsEnPassant(p, m.from, m.to)
    ensures IsKing(Step(p, m).board, Home(t), t)
  {
    MoveFrame(p, m.from, m.to);
    KingIsNotTaken(p, m.from, m.to);
    assert At(Step(p, m).board, Home(t)) == CellAfter(p, m.from, m.to, Home(t));
  }

  lemma CalmMoveIsLegal(p: Position, m: Move)
    requires Inv(p) && Calm(p.board) && IsKing(p.board, Home(p.side), p.side)
    requires PseudoLegal(p, m.from, m.to) && m.from != Home(p.side) && !IsEnPassant(p, m.from, m.to)
    ensures LegalMove(p, m)
  {
    var b, k, t := Step(p, m).board, Home(p.side), p.side.Opponent();
    MoveFrame(p, m.from, m.to);
    MoverKeepsKing(p, m.from, m.to);
    HomeStays(p, m, p.side);
    CheckMeansKingAttacked(b, k, p.side);
    assert Unaimed(p.board, k, t);
    forall a | Owns(At(b, a), t) ensures !Aims(At(b, a), a, k) {
      assert At(b, a) == CellAfter(p, m.from, m.to, a);
    }
    UnaimedIsSafe(b, k, t);
  }

  lemma LooksAfter(p: Position, changed: map<Sq, Cell>, m: Move, k: Kind)
    requires Inv(p) && PseudoLegal(p, m.from, m.to) && !IsEnPassant(p, m.from, m.to) && Looks(p.board, changed)
    requires At(p.board, m.from).piece == Some(k) && !At(p.board, m.from).moved && !Promotes(At(p.board, m.from), m.to)
    ensures Looks(Step(p, m).board, Moved(changed, k, p.side, m))
  {
    MoveFrame(p, m.from, m.to);
  }

  lemma CalmAfter(p: Position, m: Move, k: Kind)
    requires Inv(p) && PseudoLegal(p, m.from, m.to) && !IsEnPassant(p, m.from, m.to) && Calm(p.board)
    requires At(p.board, m.from).piece == Some(k) && !Promotes(At(p.board, m.from), m.to)
    requires forall q :: Guarded(p.side.Opponent(), q) ==> !Aims(Man(k, p.side, true), m.to, q)
    ensures Calm(Step(p, m).board)
  {
    hide ApplyMove, PieceMay, At, InBoard, Aims, Guarded, Geometry;
    MoveFrame(p, m.from, m.to);
    var b := Step(p, m).board;
    forall t: Team, q, a | Guarded(t, q) && Owns(At(b, a), t.Opponent()) ensures !Aims(At(b, a), a, q) {
      assert Unaimed(p.board, q, t.Opponent());
      assert At(b, a) == CellAfter(p, m.from, m.to, a);
    }
  }

  lemma RightsStay(p: Position, m: Move)
    requires Inv(p) && PseudoLegal(p, m.from, m.to)
    requires At(p.board, m.from).piece != Some(King) && At(p.board, m.from).piece != Some(Rook)
    ensures var q := Step(p, m);
            && q.whiteKingside == p.whiteKingside && q.whiteQueenside == p.whiteQueenside
            && q.blackKingside == p.blackKingside && q.blackQueenside == p.blackQueenside
  {
    RightsAfter(p, m.from, m.to);
    hide Inv, ApplyMove, PieceMay;
  }

  /** A first move of a man, of an opening. */
  lemma OpeningMove(p: Position, side: Team, plies: nat, changed: map<Sq, Cell>, m: Move, k: Kind)
    requires Opening(p, side, plies, changed) && plies < 100 && PseudoLegal(p, m.from, m.to)
    requires At(p.board, m.from).piece == Some(k) && !At(p.board, m.from).moved && !Promotes(At(p.board, m.from), m.to)
    requires k != King && k != Rook && !IsEnPassant(p, m.from, m.to)
    requires forall q :: Guarded(side.Opponent(), q) ==> !Aims(Man(k, side, true), m.to, q)
    ensures LegalMove(p, m) && !GameOver(p)
    ensures Opening(Step(p, m), side.Opponent(), plies + 1, Moved(changed, k, side, m))
  {
    assert m.from != Home(White) && m.from != Home(Black);
    CalmMoveIsLegal(p, m);
    LegalMoveKeepsInv(p, m.from, m.to);
    MoveFrame(p, m.from, m.to);
    LooksAfter(p, changed, m, k);
    CalmAfter(p, m, k);
    HomeStays(p, m, White);
    HomeStays(p, m, Black);
    RightsStay(p, m);
    hide Inv, Looks, Calm, ApplyMove, PseudoLegal, IsEnPassant, CellAfter;
  }

  lemma PieceIsUnaimed(x: int, y: int, k: Sq)
    requires 0 <= x < 8 && 4 <= k.x <= 6 && Abs(k.y - y) == 7
    ensures !Geometry(BackRank(x), k.x - x, k.y - y)
  {
  }

  lemma StartIsUnaimed(t: Team, k: Sq, a: Sq)
    requires Guarded(t, k) && Owns(At(StartBoard(), a), t.Opponent())
    ensures !Aims(At(StartBoard(), a), a, k)
  {
    assert At(StartBoard(), a) == StartCell(a.x, a.y);
    hide At, Geometry, BackRank;
    if a.y == 0 || a.y == 7 { PieceIsUnaimed(a.x, a.y, k); }
  }

  /** Squares that a move does not touch. */
  lemma Untouched(changed: map<Sq, Cell>, k: Kind, t: Team, m: Move, q: Sq)
    requires q != m.from && q != m.to
    ensures q in Moved(changed, k, t, m) <==> q in changed
    ensures q in changed ==> Moved(changed, k, t, m)[q] == changed[q]
  {
  }

  lemma StartOpens()
    ensures Opening(Start(), White, 0, map[])
  {
    StartInv();
    StartKing(White);
    StartKing(Black);
    forall t: Team, k, a | Guarded(t, k) && Owns(At(StartBoard(), a), t.Opponent())
      ensures !Aims(At(StartBoard(), a), a, k)
    {
      StartIsUnaimed(t, k, a);
    }
  }

  // ----- 1. f3 e5 2. g4 Qh4 mate

  const F3: Move := Move(Sq(5, 1), Sq(5, 2))
  const E5: Move := Move(Sq(4, 6), Sq(4, 4))
  const G4: Move := Move(Sq(6, 1), Sq(6, 3))
  const QH4: Move := Move(Sq(3, 7), Sq(7, 3))

  function Fool1(): map<Sq, Cell> { Moved(map[], Pawn, White, F3) }
  function Fool2(): map<Sq, Cell> { Moved(Fool1(), Pawn, Black, E5) }
  function Fool3(): map<Sq, Cell> { Moved(Fool2(), Pawn, White, G4) }
  function Fool4(): map<Sq, Cell> { Moved(Fool3(), Queen, Black, QH4) }

  /** A square that no pawn can have passed over in the last move. */
  lemma NoPassing(p: Position, m: Move)
    requires Inv(p) && m.to.y != p.side.Opponent().PawnRank() + p.side.Opponent().Forward() && m.to.y >= 0
    ensures !IsEnPassant(p, m.from, m.to)
  {
  }

  lemma PlaysF3(p: Position)
    requires Opening(p, White, 0, map[])
    ensures LegalMove(p, F3) && !GameOver(p) && Opening(Step(p, F3), Black, 1, Fool1())
  {
    assert At(p.board, F3.from) == StartCell(5, 1) && At(p.board, F3.to) == StartCell(5, 2);
    hide Inv, ApplyMove, Legal, GameOver;
    OpeningMove(p, White, 0, map[], F3, Pawn);
  }

  lemma PlaysE5(p: Position)
    requires Opening(p, Black, 1, Fool1())
    ensures LegalMove(p, E5) && !GameOver(p) && Opening(Step(p, E5), White, 2, Fool2())
  {
    assert At(p.board, E5.from) == StartCell(4, 6) && At(p.board, E5.to) == StartCell(4, 4);
    assert At(p.board, Sq(4, 5)) == StartCell(4, 5);
    NoPassing(p, E5);
    hide Inv, ApplyMove, Legal, GameOver;
    OpeningMove(p, Black, 1, Fool1(), E5, Pawn);
  }

  lemma PlaysG4(p: Position)
    requires Opening(p, White, 2, Fool2())
    ensures LegalMove(p, G4) && !GameOver(p) && Opening(Step(p, G4), Black, 3, Fool3())
  {
    assert At(p.board, G4.from) == StartCell(6, 1) && At(p.board, G4.to) == StartCell(6, 3);
    assert At(p.board, Sq(6, 2)) == StartCell(6, 2);
    NoPassing(p, G4);
    hide Inv, ApplyMove, Legal, GameOver;
    OpeningMove(p, White, 2, Fool2(), G4, Pawn);
  }

  lemma QueenMayGo(p: Position)
    requires p.side == Black && At(p.board, QH4.from) == StartCell(3, 7) && At(p.board, QH4.to).dead
    requires At(p.board, Sq(4, 6)).dead && At(p.board, Sq(5, 5)).dead && At(p.board, Sq(6, 4)).dead
    ensures PseudoLegal(p, QH4.from, QH4.to)
  {
    hide At;
  }

  lemma QueenCells(b: Board)
    requires Looks(b, Fool3())
    ensures At(b, QH4.from) == StartCell(3, 7) && At(b, QH4.to).dead
    ensures At(b, Sq(4, 6)).dead && At(b, Sq(5, 5)).dead && At(b, Sq(6, 4)).dead
  {
    assert At(StartBoard(), QH4.from) == StartCell(3, 7) && At(StartBoard(), QH4.to) == StartCell(7, 3);
    assert At(StartBoard(), Sq(5, 5)) == StartCell(5, 5) && At(StartBoard(), Sq(6, 4)) == StartCell(6, 4);
  }

  /** The first move of a man, whatever it aims at. */
  lemma LastMove(p: Position, side: Team, plies: nat, changed: map<Sq, Cell>, m: Move, k: Kind)
    requires Opening(p, side, plies, changed) && plies < 100 && PseudoLegal(p, m.from, m.to)
    requires At(p.board, m.from).piece == Some(k) && !At(p.board, m.from).moved && k != King && k != Pawn
    ensures LegalMove(p, m) && !GameOver(p) && Inv(Step(p, m)) && Looks(Step(p, m).board, Moved(changed, k, side, m))
    ensures Step(p, m).side == side.Opponent() && Step(p, m).epX == -1
  {
    CalmMoveIsLegal(p, m);
    LegalMoveKeepsInv(p, m.from, m.to);
    LooksAfter(p, changed, m, k);
    MoveFrame(p, m.from, m.to);
    KeepsTargetFits(p, m.from, m.to);
    hide Inv, ApplyMove, Looks, Calm, PseudoLegal, CellAfter, InCheck;
  }

  lemma PlaysQH4(p: Position)
    requires Opening(p, Black, 3, Fool3())
    ensures LegalMove(p, QH4) && !GameOver(p) && Inv(Step(p, QH4)) && Looks(Step(p, QH4).board, Fool4())
    ensures Step(p, QH4).side == White && Step(p, QH4).epX == -1
  {
    QueenCells(p.board);
    QueenMayGo(p);
    hide Opening, LegalMove, GameOver, Step, PseudoLegal, At;
    LastMove(p, Black, 3, Fool3(), QH4, Queen);
  }

  /** The cells of the mated position that matter. */
  lemma MateCells(b: Board)
    requires Looks(b, Fool4())
    ensures At(b, Sq(7, 3)) == Man(Queen, Black, true) && At(b, Sq(6, 2)).dead && At(b, Sq(5, 1)).dead
    ensures IsKing(b, Sq(4, 0), White) && At(b, Sq(7, 1)) == StartCell(7, 1)
  {
    hide Looks, At;
    WayToKing(b);
    HomeCell(b, Sq(4, 0));
    HomeCell(b, Sq(7, 1));
  }

  lemma WayToKing(b: Board)
    requires Looks(b, Fool4())
    ensures At(b, Sq(7, 3)) == Man(Queen, Black, true) && At(b, Sq(6, 2)).dead && At(b, Sq(5, 1)).dead
  {
  }

  predicate AtHome(q: Sq) {
    InBoard(q) && q.y <= 1 && q != Sq(5, 1) && q != Sq(6, 1)
  }

  lemma HomeCell(b: Board, q: Sq)
    requires Looks(b, Fool4()) && AtHome(q)
    ensures At(b, q) == StartCell(q.x, q.y)
  {
    hide Moved;
    Untouched(map[], Pawn, White, F3, q);
    Untouched(Fool1(), Pawn, Black, E5, q);
    Untouched(Fool2(), Pawn, White, G4, q);
    Untouched(Fool3(), Queen, Black, QH4, q);
  }

  lemma HomeIsOwned(b: Board, q: Sq)
    requires Looks(b, Fool4()) && AtHome(q)
    ensures Owns(At(b, q), White)
  {
    HomeCell(b, q);
    hide Looks, At, BackRank;
  }

  lemma WhiteMen(b: Board, q: Sq)
    requires Looks(b, Fool4()) && Owns(At(b, q), White)
    ensures if AtHome(q) then At(b, q) == StartCell(q.x, q.y)
            else (q == Sq(5, 2) || q == Sq(6, 3)) && At(b, q) == Man(Pawn, White, true)
  {
  }

  /** The queen's square and the squares between her and the king. */
  predicate Saving(d: Sq) {
    d == Sq(7, 3) || d == Sq(6, 2) || d == Sq(5, 1)
  }

  lemma PiecesAreAway(s: Sq, d: Sq)
    requires InBoard(s) && s.y == 0 && s.x != 4 && Saving(d) && Geometry(BackRank(s.x), d.x - s.x, d.y - s.y)
    ensures s == Sq(7, 0) && d == Sq(7, 3)
  {
  }

  lemma PawnsAreAway(p: Position, s: Sq, d: Sq)
    requires At(p.board, Sq(7, 3)) == Man(Queen, Black, true)
    requires At(p.board, Sq(6, 2)).dead && At(p.board, Sq(5, 1)).dead
    requires p.epX == -1 && Owns(At(p.board, s), White) && At(p.board, s).piece == Some(Pawn) && PieceMay(p, s, d)
    requires (s.y == 1 && s.x != 5 && s.x != 6) || s == Sq(5, 2) || s == Sq(6, 3)
    ensures !Saving(d)
  {
  }

  /** No man but the king can take the queen or step between. */
  lemma NobodyHelps(p: Position, s: Sq, d: Sq)
    requires Looks(p.board, Fool4()) && p.side == White && p.epX == -1 && PseudoLegal(p, s, d) && s != Sq(4, 0)
    ensures !Saving(d)
  {
    MateCells(p.board);
    WhiteMen(p.board, s);
    if At(p.board, s).piece == Some(Pawn) {
      PawnsAreAway(p, s, d);
    } else if Saving(d) {
      hide Looks, ClearLine, Geometry, BackRank;
      assert s.y == 0 && At(p.board, s).piece == Some(BackRank(s.x));
      PieceCaptures(p, s, d, BackRank(s.x));
      PiecesAreAway(s, d);
      RookIsBlocked(p.board);
    }
  }

  lemma PieceCaptures(p: Position, s: Sq, d: Sq, k: Kind)
    requires PieceMay(p, s, d) && At(p.board, s).piece == Some(k) && k != Pawn
    ensures Geometry(k, d.x - s.x, d.y - s.y) && (IsSlider(k) ==> ClearLine(p.board, s, d))
  {
    hide ClearLine;
  }

  lemma RookIsBlocked(b: Board)
    requires At(b, Sq(7, 1)) == StartCell(7, 1)
    ensures IsSlider(BackRank(7)) && !ClearLine(b, Sq(7, 0), Sq(7, 3))
  {
    assert !At(b, Sq(7, 1)).dead;
    hide At;
    StandsBetween(b, Sq(7, 0), Sq(7, 3), 1);
  }

  lemma StandsBetween(b: Board, s: Sq, d: Sq, n: int)
    requires 1 <= n < Distance(s, d) && !At(b, Towards(s, d, n)).dead
    ensures !ClearLine(b, s, d)
  {
    hide At, Distance, Towards;
  }

  /** The king itself can only go to f2. */
  lemma KingGoesToF2(p: Position, d: Sq)
    requires Looks(p.board, Fool4()) && p.side == White && PseudoLegal(p, Sq(4, 0), d)
    ensures d == Sq(5, 1)
  {
    MateCells(p.board);
    if AtHome(d) { HomeIsOwned(p.board, d); }
    hide Looks, PieceMay, At;
    KingStepsAreSingle(p, Sq(4, 0), d);
  }

  /** The queen on h4 sees e1 and f2. */
  lemma QueenSees(b: Board, k: Sq)
    requires At(b, Sq(7, 3)) == Man(Queen, Black, true) && At(b, Sq(6, 2)).dead
    requires k == Sq(5, 1) || (k == Sq(4, 0) && At(b, Sq(5, 1)).dead)
    ensures Attacked(b, k, Black)
  {
    assert AttackedFrom(b, Sq(7, 3), k, Black);
  }

  lemma EveryMoveFails(p: Position, s: Sq, d: Sq)
    requires Inv(p) && Looks(p.board, Fool4()) && p.side == White && p.epX == -1 && PseudoLegal(p, s, d)
    ensures InCheck(ApplyMove(p, s, d).board, White)
  {
    MateCells(p.board);
    hide Looks, Inv, PseudoLegal, ApplyMove, At;
    if s == Sq(4, 0) {
      KingGoesToF2(p, d);
      SavedOnly(p, s, d, d);
    } else {
      NobodyHelps(p, s, d);
      SavedOnly(p, s, d, Sq(4, 0));
    }
  }

  lemma SavedOnly(p: Position, s: Sq, d: Sq, k: Sq)
    requires Inv(p) && PseudoLegal(p, s, d) && p.side == White && p.epX == -1
    requires At(p.board, Sq(7, 3)) == Man(Queen, Black, true)
    requires At(p.board, Sq(6, 2)).dead && At(p.board, Sq(5, 1)).dead
    requires IsKing(p.board, Sq(4, 0), White)
    requires if s == Sq(4, 0) then d == k == Sq(5, 1) else k == Sq(4, 0) && !Saving(d)
    ensures InCheck(ApplyMove(p, s, d).board, White)
  {
    var b := ApplyMove(p, s, d).board;
    MoveFrame(p, s, d);
    MoverKeepsKing(p, s, d);
    hide Inv, PieceMay, ApplyMove;
    assert At(b, k) == CellAfter(p, s, d, k) && At(b, Sq(7, 3)) == CellAfter(p, s, d, Sq(7, 3));
    assert At(b, Sq(6, 2)) == CellAfter(p, s, d, Sq(6, 2)) && At(b, Sq(5, 1)) == CellAfter(p, s, d, Sq(5, 1));
    var k' :| SoleKing(b, k', White);
    assert IsKing(b, k, White);
    QueenSees(b, k);
    CheckMeansKingAttacked(b, k, White);
  }

  lemma FoolIsMated(p: Position)
    requires Inv(p) && Looks(p.board, Fool4()) && p.side == White && p.epX == -1
    ensures Checkmate(p)
  {
    MateCells(p.board);
    assert OneKing(p.board, White);
    assert IsKing(p.board, Sq(4, 0), White);
    QueenSees(p.board, Sq(4, 0));
    var k :| SoleKing(p.board, k, White);
    CheckMeansKingAttacked(p.board, k, White);
    forall s, d ensures !Legal(p, s, d) {
      if PseudoLegal(p, s, d) { EveryMoveFails(p, s, d); }
    }
  }

  function FoolsMate(): seq<Move> {
    [F3, E5, G4, QH4]
  }

  lemma ThreeMoves(p: Position) returns (p3: Position)
    requires Opening(p, White, 0, map[])
    ensures Opening(p3, Black, 3, Fool3())
    ensures AcceptedRun(p3, [QH4]) ==> AcceptedRun(p, FoolsMate())
    ensures Play(p, FoolsMate()) == Play(p3, [QH4])
  {
    hide Opening, LegalMove, GameOver, Step;
    var p1, p2 := Step(p, F3), Step(Step(p, F3), E5);
    p3 := Step(p2, G4);
    PlaysF3(p);
    PlaysE5(p1);
    PlaysG4(p2);
    assert FoolsMate()[1..] == [E5, G4, QH4] && [E5, G4, QH4][1..] == [G4, QH4] && [G4, QH4][1..] == [QH4];
    assert AcceptedRun(p3, [QH4]) ==> AcceptedRun(p2, [G4, QH4]);
    assert AcceptedRun(p2, [G4, QH4]) ==> AcceptedRun(p1, [E5, G4, QH4]);
  }

  /** A game that the server accepts and that ends in checkmate. */
  lemma FoolsMateIsMate()
    ensures AcceptedRun(Start(), FoolsMate()) && Checkmate(Play(Start(), FoolsMate()))
  {
    StartOpens();
    var p := Start();
    var p3 := ThreeMoves(p);
    PlaysQH4(p3);
    FoolIsMated(Step(p3, QH4));
    hide Opening, LegalMove, GameOver, Step, Checkmate;
    assert [QH4][1..] == [];
  }

  // ----- 1. Nf3 a6 2. g3 b6 3. Bg2 h6

  const NF3: Move := Move(Sq(6, 0), Sq(5, 2))
  const A6: Move := Move(Sq(0, 6), Sq(0, 5))
  const G3: Move := Move(Sq(6, 1), Sq(6, 2))
  const B6: Move := Move(Sq(1, 6), Sq(1, 5))
  const BG2: Move := Move(Sq(5, 0), Sq(6, 1))
  const H6: Move := Move(Sq(7, 6), Sq(7, 5))

  function Castle1(): map<Sq, Cell> { Moved(map[], Knight, White, NF3) }
  function Castle2(): map<Sq, Cell> { Moved(Castle1(), Pawn, Black, A6) }
  function Castle3(): map<Sq, Cell> { Moved(Castle2(), Pawn, White, G3) }
  function Castle4(): map<Sq, Cell> { Moved(Castle3(), Pawn, Black, B6) }
  function Castle5(): map<Sq, Cell> { Moved(Castle4(), Bishop, White, BG2) }
  function Castle6(): map<Sq, Cell> { Moved(Castle5(), Pawn, Black, H6) }

  lemma PlaysNF3(p: Position)
    requires Opening(p, White, 0, map[])
    ensures LegalMove(p, NF3) && Opening(Step(p, NF3), Black, 1, Castle1())
  {
    assert At(p.board, NF3.from) == StartCell(6, 0) && At(p.board, NF3.to) == StartCell(5, 2);
    hide Inv, ApplyMove, Legal, GameOver;
    OpeningMove(p, White, 0, map[], NF3, Knight);
  }

  /** A pawn of the start position takes a single step. */
  lemma PawnSteps(p: Position, side: Team, plies: nat, changed: map<Sq, Cell>, m: Move)
    requires Opening(p, side, plies, changed) && plies < 100 && m.from !in changed && m.to !in changed
    requires InBoard(m.from) && m.from.y == side.PawnRank() && m.to == Sq(m.from.x, m.from.y + side.Forward())
    ensures LegalMove(p, m) && !GameOver(p)
    ensures Opening(Step(p, m), side.Opponent(), plies + 1, Moved(changed, Pawn, side, m))
  {
    assert At(p.board, m.from) == StartCell(m.from.x, m.from.y) && At(p.board, m.to) == StartCell(m.to.x, m.to.y);
    NoPassing(p, m);
    hide Inv, ApplyMove, Legal, GameOver, Looks, Calm;
    OpeningMove(p, side, plies, changed, m, Pawn);
  }

  lemma PlaysA6(p: Position)
    requires Opening(p, Black, 1, Castle1())
    ensures LegalMove(p, A6) && Opening(Step(p, A6), White, 2, Castle2())
  {
    hide Opening, LegalMove, Step;
    PawnSteps(p, Black, 1, Castle1(), A6);
  }

  lemma PlaysG3(p: Position)
    requires Opening(p, White, 2, Castle2())
    ensures LegalMove(p, G3) && Opening(Step(p, G3), Black, 3, Castle3())
  {
    hide Opening, LegalMove, Step;
    PawnSteps(p, White, 2, Castle2(), G3);
  }

  lemma PlaysB6(p: Position)
    requires Opening(p, Black, 3, Castle3())
    ensures LegalMove(p, B6) && Opening(Step(p, B6), White, 4, Castle4())
  {
    hide Opening, LegalMove, Step;
    PawnSteps(p, Black, 3, Castle3(), B6);
  }

  lemma PlaysH6(p: Position)
    requires Opening(p, Black, 5, Castle5())
    ensures LegalMove(p, H6) && Opening(Step(p, H6), White, 6, Castle6())
  {
    hide Opening, LegalMove, Step;
    PawnSteps(p, Black, 5, Castle5(), H6);
  }

  lemma PlaysBG2(p: Position)
    requires Opening(p, White, 4, Castle4())
    ensures LegalMove(p, BG2) && Opening(Step(p, BG2), Black, 5, Castle5())
  {
    BishopCells(p.board);
    BishopMayGo(p);
    hide Inv, ApplyMove, Legal, GameOver, Looks, Calm, PseudoLegal, At;
    OpeningMove(p, White, 4, Castle4(), BG2, Bishop);
  }

  lemma BishopCells(b: Board)
    requires Looks(b, Castle4())
    ensures At(b, BG2.from) == StartCell(5, 0) && At(b, BG2.to).dead
  {
    assert At(StartBoard(), BG2.from) == StartCell(5, 0);
  }

  lemma BishopMayGo(p: Position)
    requires p.side == White && At(p.board, BG2.from) == StartCell(5, 0) && At(p.board, BG2.to).dead
    ensures PseudoLegal(p, BG2.from, BG2.to)
  {
    hide At;
  }

  function CastlingOpening(): seq<Move> {
    [NF3, A6, G3, B6, BG2, H6]
  }

  lemma FirstHalf(p: Position) returns (p3: Position)
    requires Opening(p, White, 0, map[])
    ensures Opening(p3, Black, 3, Castle3())
    ensures LegalRun(p3, [B6, BG2, H6]) ==> LegalRun(p, CastlingOpening())
    ensures Play(p, CastlingOpening()) == Play(p3, [B6, BG2, H6])
  {
    hide Opening, LegalMove, GameOver, Step;
    var p1, p2 := Step(p, NF3), Step(Step(p, NF3), A6);
    p3 := Step(p2, G3);
    PlaysNF3(p);
    PlaysA6(p1);
    PlaysG3(p2);
    assert CastlingOpening()[1..][1..][1..] == [B6, BG2, H6];
  }

  lemma {:induction false} SecondHalf(p3: Position)
    requires Opening(p3, Black, 3, Castle3())
    ensures LegalRun(p3, [B6, BG2, H6]) && Opening(Play(p3, [B6, BG2, H6]), White, 6, Castle6())
  {
    hide Opening, LegalMove, GameOver, Step;
    var p4, p5 := Step(p3, B6), Step(Step(p3, B6), BG2);
    PlaysB6(p3);
    PlaysBG2(p4);
    PlaysH6(p5);
    var p6 := Step(p5, H6);
    assert [B6, BG2, H6][1..] == [BG2, H6] && [BG2, H6][1..] == [H6] && [H6][1..] == [];
    assert LegalRun(p5, [H6]) && Play(p5, [H6]) == p6;
    assert LegalRun(p4, [BG2, H6]) && Play(p4, [BG2, H6]) == p6;
  }

  /** A legal opening that clears the squares between White's king and rook. */
  lemma CastlingOpeningIsLegal()
    ensures LegalRun(Start(), CastlingOpening())
    ensures Opening(Play(Start(), CastlingOpening()), White, 6, Castle6())
  {
    StartOpens();
    var p := Start();
    var p3 := FirstHalf(p);
    SecondHalf(p3);
  }

  lemma CornerStays(b: Board)
    requires Looks(b, Castle6())
    ensures At(b, Sq(7, 0)) == Man(Rook, White, false)
  {
    assert At(StartBoard(), Sq(7, 0)) == StartCell(7, 0);
    hide Moved;
    Untouched(map[], Knight, White, NF3, Sq(7, 0));
    Untouched(Castle1(), Pawn, Black, A6, Sq(7, 0));
    Untouched(Castle2(), Pawn, White, G3, Sq(7, 0));
    Untouched(Castle3(), Pawn, Black, B6, Sq(7, 0));
    Untouched(Castle4(), Bishop, White, BG2, Sq(7, 0));
    Untouched(Castle5(), Pawn, Black, H6, Sq(7, 0));
  }

  lemma WayIsCleared(b: Board)
    requires Looks(b, Castle6())
    ensures At(b, Sq(5, 0)).dead && At(b, Sq(6, 0)).dead
  {
  }

  /** White is ready to castle: king and rook at home, nothing between, nobody attacking. */
  lemma ReadyToCastle(p: Position)
    requires Opening(p, White, 6, Castle6())
    ensures At(p.board, Sq(7, 0)) == Man(Rook, White, false)
    ensures At(p.board, Sq(5, 0)).dead && At(p.board, Sq(6, 0)).dead
    ensures forall k :: Guarded(White, k) ==> !Attacked(p.board, k, Black)
  {
    CornerStays(p.board);
    WayIsCleared(p.board);
    hide Looks, At, Attacked, Inv;
    forall k | Guarded(White, k) ensures !Attacked(p.board, k, Black) {
      assert Unaimed(p.board, k, White.Opponent());
      UnaimedIsSafe(p.board, k, Black);
    }
  }

  // ----- 1. Nf3 Nf6 2. Ng1 Ng8 and so on

  function Near(t: Team): Sq { Sq(6, if t.White? then 0 else 7) }

  function Far(t: Team): Sq { Sq(5, if t.White? then 2 else 5) }

  function Phase(n: nat): nat {
    n % 4
  }

  function Mover(n: nat): Team {
    if Phase(n) == 0 || Phase(n) == 2 then White else Black
  }

  /** The knight of `t` is on its way: is it out after `n` moves of the game? */
  predicate Out(t: Team, n: nat) {
    if t.White? then Phase(n) == 1 || Phase(n) == 2 else Phase(n) == 2 || Phase(n) == 3
  }

  predicate KnightAt(b: Board, t: Team, out: bool) {
    if out then IsMan(At(b, Far(t)), Knight, t) && At(b, Near(t)).dead
    else IsMan(At(b, Near(t)), Knight, t) && At(b, Far(t)).dead
  }

  ghost predicate Shuffles(p: Position, n: nat) {
    && Inv(p) && Calm(p.board) && p.side == Mover(n)
    && IsKing(p.board, Home(White), White) && IsKing(p.board, Home(Black), Black)
    && KnightAt(p.board, White, Out(White, n)) && KnightAt(p.board, Black, Out(Black, n))
    && p.clock == n && p.epX == p.epY == -1
    && p.whiteKingside && p.whiteQueenside && p.blackKingside && p.blackQueenside
  }

  function Shuffle(n: nat): Move {
    var t := Mover(n);
    if Out(t, n) then Move(Far(t), Near(t)) else Move(Near(t), Far(t))
  }

  lemma PhaseAfter(n: nat)
    ensures Phase(n) < 4 && Phase(n + 1) == if Phase(n) == 3 then 0 else Phase(n) + 1
  {
  }

  lemma OutAfter(n: nat)
    ensures var t := Mover(n);
            && Out(t, n + 1) == !Out(t, n) && Out(t.Opponent(), n + 1) == Out(t.Opponent(), n)
            && Mover(n + 1) == t.Opponent()
  {
    hide Phase;
    PhaseAfter(n);
  }

  lemma ShuffleIsPseudoLegal(p: Position, n: nat)
    requires Shuffles(p, n)
    ensures PseudoLegal(p, Shuffle(n).from, Shuffle(n).to) && At(p.board, Shuffle(n).from).piece == Some(Knight)
    ensures At(p.board, Shuffle(n).to).dead
  {
    hide Inv, Calm, At;
  }

  lemma KnightsAfter(p: Position, n: nat)
    requires Shuffles(p, n)
    ensures var b := Step(p, Shuffle(n)).board;
            KnightAt(b, White, Out(White, n + 1)) && KnightAt(b, Black, Out(Black, n + 1))
  {
    var m := Shuffle(n);
    ShuffleIsPseudoLegal(p, n);
    MoveFrame(p, m.from, m.to);
    OutAfter(n);
    hide Inv, Calm, ApplyMove, PseudoLegal, Out, At;
    forall q ensures At(Step(p, m).board, q) == CellAfter(p, m.from, m.to, q) {
    }
  }

  lemma ShuffleIsCalm(p: Position, n: nat)
    requires Shuffles(p, n)
    ensures var m := Shuffle(n);
            && m.from != Home(White) && m.from != Home(Black) && !IsEnPassant(p, m.from, m.to)
            && !Promotes(At(p.board, m.from), m.to)
            && forall q :: Guarded(p.side.Opponent(), q) ==> !Aims(Man(Knight, p.side, true), m.to, q)
  {
    hide Inv, Calm, At, PseudoLegal, KnightAt, Aims, Out;
    ShuffleIsPseudoLegal(p, n);
    forall q | Guarded(p.side.Opponent(), q) ensures !Aims(Man(Knight, p.side, true), Shuffle(n).to, q) {
      KnightAimsElsewhere(p.side, Near(p.side), q);
      KnightAimsElsewhere(p.side, Far(p.side), q);
    }
  }

  lemma KnightAimsElsewhere(t: Team, s: Sq, q: Sq)
    requires (s == Near(t) || s == Far(t)) && Guarded(t.Opponent(), q)
    ensures !Aims(Man(Knight, t, true), s, q)
  {
  }

  lemma ShuffleFields(p: Position, n: nat)
    requires Shuffles(p, n)
    ensures var q := Step(p, Shuffle(n));
            && q.clock == n + 1 && q.epX == q.epY == -1
            && q.whiteKingside && q.whiteQueenside && q.blackKingside && q.blackQueenside
  {
    var m := Shuffle(n);
    hide Inv, Calm, PseudoLegal, KnightAt, Out, Shuffle, At, IsKing, ApplyMove;
    ShuffleIsPseudoLegal(p, n);
    RightsStay(p, m);
    ClockAfterMove(p, m);
    TargetAfter(p, m.from, m.to);
  }

  lemma ClockAfterMove(p: Position, m: Move)
    requires Inv(p) && PseudoLegal(p, m.from, m.to)
    ensures Step(p, m).clock == ClockAfter(p, m.from, m.to)
  {
    MoveFrame(p, m.from, m.to);
  }

  lemma ShuffleStep(p: Position, n: nat)
    requires Shuffles(p, n)
    ensures LegalMove(p, Shuffle(n)) && Shuffles(Step(p, Shuffle(n)), n + 1)
  {
    var m := Shuffle(n);
    hide Inv, Calm, PseudoLegal, KnightAt, Out, IsEnPassant, Promotes, Aims, Guarded, Home, Shuffle, At, IsKing, Step,
         LegalMove, Mover;
    OutAfter(n);
    ShuffleIsPseudoLegal(p, n);
    ShuffleIsCalm(p, n);
    ShuffleFields(p, n);
    CalmMoveIsLegal(p, m);
    KnightsAfter(p, n);
    CalmAfter(p, m, Knight);
    HomeStays(p, m, White);
    HomeStays(p, m, Black);
    StepTurns(p, m);
  }

  function ShuffleRun(n: nat, k: nat): (ms: seq<Move>)
    ensures |ms| == k
    decreases k
  {
    if k == 0 then [] else [Shuffle(n)] + ShuffleRun(n + 1, k - 1)
  }

  /** The run is legal, and up to the hundredth move the server accepts it. */
  lemma {:induction false} ShuffleRunIsLegal(p: Position, n: nat, k: nat)
    requires Shuffles(p, n)
    ensures LegalRun(p, ShuffleRun(n, k)) && Shuffles(Play(p, ShuffleRun(n, k)), n + k)
    ensures n + k <= 100 ==> AcceptedRun(p, ShuffleRun(n, k))
    decreases k
  {
    hide Shuffles, LegalMove, Step, Shuffle, Checkmate, Stalemate, FiftyMoves;
    if k > 0 {
      ShuffleStep(p, n);
      ShuffleIsNotOver(p, n);
      hide LegalRun, AcceptedRun, Play, GameOver;
      ShuffleRunIsLegal(Step(p, Shuffle(n)), n + 1, k - 1);
      RunCons(p, Shuffle(n), ShuffleRun(n + 1, k - 1));
    }
  }

  /** Only the count ends such a game. */
  lemma ShuffleIsNotOver(p: Position, n: nat)
    requires Shuffles(p, n)
    ensures !Checkmate(p) && !Stalemate(p) && (FiftyMoves(p) <==> n >= 100)
  {
    ShuffleStep(p, n);
    hide Inv, Calm, KnightAt, Legal, InCheck;
    assert Legal(p, Shuffle(n).from, Shuffle(n).to);
  }

  lemma StartShuffles()
    ensures Shuffles(Start(), 0)
  {
    StartOpens();
    var p := Start();
    assert At(p.board, Near(White)) == StartCell(6, 0) && At(p.board, Near(Black)) == StartCell(6, 7);
    assert At(p.board, Far(White)) == StartCell(5, 2) && At(p.board, Far(Black)) == StartCell(5, 5);
  }

  /** There are legal games of any length. */
  lemma {:induction false} LegalGamesHaveNoBound(k: nat)
    ensures LegalRun(Start(), ShuffleRun(0, k))
  {
    StartShuffles();
    var p := Start();
    ShuffleRunIsLegal(p, 0, k);
  }

  // ----- 1. b3 g6 2. Bb2 a6 3. Bxh8

  const B3: Move := Move(Sq(1, 1), Sq(1, 2))
  const G6: Move := Move(Sq(6, 6), Sq(6, 5))
  const BB2: Move := Move(Sq(2, 0), Sq(1, 1))
  const BXH8: Move := Move(Sq(1, 1), Sq(7, 7))

  function Raid1(): map<Sq, Cell> { Moved(map[], Pawn, White, B3) }
  function Raid2(): map<Sq, Cell> { Moved(Raid1(), Pawn, Black, G6) }
  function Raid3(): map<Sq, Cell> { Moved(Raid2(), Bishop, White, BB2) }
  function Raid4(): map<Sq, Cell> { Moved(Raid3(), Pawn, Black, A6) }

  lemma PlaysB3(p: Position)
    requires Opening(p, White, 0, map[])
    ensures LegalMove(p, B3) && !GameOver(p) && Opening(Step(p, B3), Black, 1, Raid1())
  {
    hide Opening, LegalMove, Step, GameOver;
    PawnSteps(p, White, 0, map[], B3);
  }

  lemma PlaysG6(p: Position)
    requires Opening(p, Black, 1, Raid1())
    ensures LegalMove(p, G6) && !GameOver(p) && Opening(Step(p, G6), White, 2, Raid2())
  {
    hide Opening, LegalMove, Step, GameOver;
    PawnSteps(p, Black, 1, Raid1(), G6);
  }

  lemma PlaysBB2(p: Position)
    requires Opening(p, White, 2, Raid2())
    ensures LegalMove(p, BB2) && !GameOver(p) && Opening(Step(p, BB2), Black, 3, Raid3())
  {
    assert At(StartBoard(), BB2.from) == StartCell(2, 0);
    assert At(p.board, BB2.from) == StartCell(2, 0) && At(p.board, BB2.to).dead;
    hide Inv, ApplyMove, Legal, GameOver, Looks, Calm, At;
    OpeningMove(p, White, 2, Raid2(), BB2, Bishop);
  }

  lemma RaidPlaysA6(p: Position)
    requires Opening(p, Black, 3, Raid3())
    ensures LegalMove(p, A6) && !GameOver(p) && Opening(Step(p, A6), White, 4, Raid4())
  {
    hide Opening, LegalMove, Step, GameOver;
    PawnSteps(p, Black, 3, Raid3(), A6);
  }

  /** The long diagonal is open from b2 to the rook. */
  lemma RaidCells(b: Board)
    requires Looks(b, Raid4())
    ensures At(b, Sq(1, 1)) == Man(Bishop, White, true) && At(b, Sq(7, 7)) == StartCell(7, 7)
    ensures forall k :: 2 <= k <= 6 ==> At(b, Sq(k, k)).dead
  {
    assert At(StartBoard(), Sq(7, 7)) == StartCell(7, 7);
    forall k | 2 <= k <= 5 ensures At(b, Sq(k, k)).dead {
      assert At(StartBoard(), Sq(k, k)) == StartCell(k, k);
    }
  }

  lemma BishopTakes(p: Position)
    requires p.side == White && At(p.board, Sq(1, 1)) == Man(Bishop, White, true)
    requires At(p.board, Sq(7, 7)) == StartCell(7, 7) && forall k :: 2 <= k <= 6 ==> At(p.board, Sq(k, k)).dead
    ensures PseudoLegal(p, BXH8.from, BXH8.to)
  {
    hide At;
    forall n | 1 <= n < 6 ensures At(p.board, Towards(BXH8.from, BXH8.to, n)).dead {
      assert Towards(BXH8.from, BXH8.to, n) == Sq(n + 1, n + 1);
    }
  }

  lemma PlaysBXH8(p: Position)
    requires Opening(p, White, 4, Raid4())
    ensures LegalMove(p, BXH8) && !GameOver(p)
    ensures Right(Step(p, BXH8), Black, true) && !RookAtHome(Step(p, BXH8).board, Black, true)
  {
    RaidCells(p.board);
    hide Inv, Looks, Calm, At, ApplyMove, PseudoLegal, IsEnPassant, InCheck;
    BishopTakes(p);
    NoPassing(p, BXH8);
    CalmMoveIsLegal(p, BXH8);
    RightOutlivesRook(p, BXH8.from, BXH8.to, Black, true);
  }

  function Raid(): seq<Move> {
    [B3, G6, BB2, A6, BXH8]
  }

  lemma FourMoves(p: Position) returns (p4: Position)
    requires Opening(p, White, 0, map[])
    ensures Opening(p4, White, 4, Raid4())
    ensures AcceptedRun(p4, [BXH8]) ==> AcceptedRun(p, Raid())
    ensures Play(p, Raid()) == Play(p4, [BXH8])
  {
    hide Opening, LegalMove, GameOver, Step;
    var p1, p2, p3 := Step(p, B3), Step(Step(p, B3), G6), Step(Step(Step(p, B3), G6), BB2);
    p4 := Step(p3, A6);
    PlaysB3(p);
    PlaysG6(p1);
    PlaysBB2(p2);
    RaidPlaysA6(p3);
    assert Raid()[1..] == [G6, BB2, A6, BXH8] && Raid()[1..][1..] == [BB2, A6, BXH8];
    assert [BB2, A6, BXH8][1..] == [A6, BXH8] && [A6, BXH8][1..] == [BXH8];
    assert AcceptedRun(p4, [BXH8]) ==> AcceptedRun(p3, [A6, BXH8]);
    assert AcceptedRun(p3, [A6, BXH8]) ==> AcceptedRun(p2, [BB2, A6, BXH8]);
    assert AcceptedRun(p2, [BB2, A6, BXH8]) ==> AcceptedRun(p1, [G6, BB2, A6, BXH8]);
    assert Play(p3, [A6, BXH8]) == Play(p4, [BXH8]) == Play(p2, [BB2, A6, BXH8]);
  }

  /** A game that the server accepts, after which Black holds a right to castle with a rook that has
      been captured. */
  lemma RightWithoutRook()
    ensures AcceptedRun(Start(), Raid())
    ensures var p := Play(Start(), Raid()); Right(p, Black, true) && !RookAtHome(p.board, Black, true)
  {
    StartOpens();
    var p := Start();
    var p4 := FourMoves(p);
    PlaysBXH8(p4);
    hide Opening, LegalMove, GameOver, Step, Right, RookAtHome;
    assert [BXH8][1..] == [];
  }
}
