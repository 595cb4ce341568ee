/** Sums over the board: conservation of material, and the measure that ends every game. */
module Material {
  import opened Pieces
  import opened ChessBoard
  import opened Rules
  import opened Invariant
  import opened Games

  /** The weight of the cell on a given rank. */
  type Weight = (Cell, int) -> int

  /** The sum of a weight over the first `n` squares. */
  function Tally(b: Board, w: Weight, n: nat): int
    requires n <= 64
  {
    if n == 0 then 0 else Tally(b, w, n - 1) + w(b[n - 1], (n - 1) / 8)
  }

  function Sum(b: Board, w: Weight): int {
    Tally(b, w, 64)
  }

  lemma {:induction false} TallyUpdate(b: Board, w: Weight, i: nat, c: Cell, n: nat)
    requires i < 64 && n <= 64
    ensures Tally(b[i := c], w, n) == Tally(b, w, n) + if i < n then w(c, i / 8) - w(b[i], i / 8) else 0
  {
    if n > 0 { TallyUpdate(b, w, i, c, n - 1); }
  }

  lemma SumPut(b: Board, w: Weight, s: Sq, c: Cell)
    requires InBoard(s)
    ensures Sum(Put(b, s, c), w) == Sum(b, w) + w(c, s.y) - w(At(b, s), s.y)
  {
    var i := Index(s);
    IndexRank(s);
    TallyUpdate(b, w, i, c, 64);
  }

  lemma IndexRank(s: Sq)
    requires InBoard(s)
    ensures Index(s) / 8 == s.y
  {
  }

  /** What a move adds to a sum over the board. */
  function Change(p: Position, w: Weight, s: Sq, d: Sq): int {
    var c := At(p.board, s);
    var victim := Sq(d.x, s.y);
    w(Arrived(c, d), d.y) - w(At(p.board, d), d.y) + w(Killed(c), s.y) - w(c, s.y) +
    if IsEnPassant(p, s, d) then w(Killed(At(p.board, victim)), s.y) - w(At(p.board, victim), s.y) else 0
  }

  /** The board after a move, written as at most three updates of squares. */
  function Updated(p: Position, s: Sq, d: Sq): Board
    requires InBoard(s) && InBoard(d)
  {
    var c := At(p.board, s);
    var b := if IsEnPassant(p, s, d) then Kill(p.board, Sq(d.x, s.y)) else p.board;
    Put(Put(b, s, Killed(c)), d, Arrived(c, d))
  }

  lemma MoveIsUpdate(p: Position, s: Sq, d: Sq)
    requires Inv(p) && PseudoLegal(p, s, d)
    ensures ApplyMove(p, s, d).board == Updated(p, s, d)
  {
    MoveFrame(p, s, d);
    if IsEnPassant(p, s, d) { EnPassantVictim(p, s, d); }
    BoardsEqual(ApplyMove(p, s, d).board, Updated(p, s, d));
  }

  lemma MoveChangesSum(p: Position, w: Weight, s: Sq, d: Sq)
    requires Inv(p) && PseudoLegal(p, s, d)
    ensures Sum(ApplyMove(p, s, d).board, w) == Sum(p.board, w) + Change(p, w, s, d)
  {
    MoveIsUpdate(p, s, d);
    var c := At(p.board, s);
    var b := p.board;
    if IsEnPassant(p, s, d) {
      EnPassantVictim(p, s, d);
      var victim := Sq(d.x, s.y);
      SumPut(b, w, victim, Killed(At(b, victim)));
      b := Kill(b, victim);
    }
    SumPut(b, w, s, Killed(c));
    SumPut(Put(b, s, Killed(c)), w, d, Arrived(c, d));
  }

  // ----- conservation of material

  /** The number of pieces of team `t`. */
  function Men(b: Board, t: Team): int {
    Sum(b, (c: Cell, y: int) => One(Owns(c, t)))
  }

  /** The number of pieces of kind `k` of team `t`. */
  function Count(b: Board, k: Kind, t: Team): int {
    Sum(b, (c: Cell, y: int) => One(IsMan(c, k, t)))
  }

  predicate IsCapture(p: Position, s: Sq, d: Sq) {
    !At(p.board, d).dead || IsEnPassant(p, s, d)
  }

  predicate IsPromotion(p: Position, s: Sq, d: Sq) {
    At(p.board, s).piece == Some(Pawn) && (d.y == 0 || d.y == 7)
  }

  /** A move costs the mover nothing, and the opponent one piece exactly when it captures. */
  lemma MenAfterMove(p: Position, s: Sq, d: Sq)
    requires Inv(p) && PseudoLegal(p, s, d)
    ensures var b := ApplyMove(p, s, d).board;
            && Men(b, p.side) == Men(p.board, p.side)
            && Men(b, p.side.Opponent()) == Men(p.board, p.side.Opponent()) - One(IsCapture(p, s, d))
  {
    MoveChangesSum(p, (c: Cell, y: int) => One(Owns(c, p.side)), s, d);
    MoveChangesSum(p, (c: Cell, y: int) => One(Owns(c, p.side.Opponent())), s, d);
    if IsEnPassant(p, s, d) { EnPassantVictim(p, s, d); }
  }

  function CapturedKind(p: Position, s: Sq, d: Sq): Option<Kind> {
    if IsEnPassant(p, s, d) then Some(Pawn) else At(p.board, d).piece
  }

  /** The mover's pieces of each kind change by promotion only: a pawn that reaches the last
      rank becomes a queen. The opponent's change by the captured piece only. */
  lemma KindsAfterMove(p: Position, s: Sq, d: Sq, k: Kind)
    requires Inv(p) && PseudoLegal(p, s, d)
    ensures var b := ApplyMove(p, s, d).board;
            && Count(b, k, p.side) ==
               Count(p.board, k, p.side) + One(IsPromotion(p, s, d)) * (One(k == Queen) - One(k == Pawn))
            && Count(b, k, p.side.Opponent()) ==
               Count(p.board, k, p.side.Opponent()) - One(CapturedKind(p, s, d) == Some(k))
  {
    MoveChangesSum(p, (c: Cell, y: int) => One(IsMan(c, k, p.side)), s, d);
    MoveChangesSum(p, (c: Cell, y: int) => One(IsMan(c, k, p.side.Opponent())), s, d);
    if IsEnPassant(p, s, d) { EnPassantVictim(p, s, d); }
  }

  // ----- termination

  /** One for each piece, plus the distance a pawn still has to its promotion. */
  function Worth(c: Cell, y: int): int {
    if c.dead then 0
    else if c.piece == Some(Pawn) then 1 + (if c.team.White? then 7 - y else y)
    else 1
  }

  function Potential(b: Board): int {
    Sum(b, Worth)
  }

  /** A move that resets the clock lowers the potential; any other keeps it. */
  lemma PotentialAfterMove(p: Position, s: Sq, d: Sq)
    requires Inv(p) && PseudoLegal(p, s, d)
    ensures var p' := ApplyMove(p, s, d);
            if p'.clock == 0 then Potential(p'.board) < Potential(p.board)
            else Potential(p'.board) == Potential(p.board) && p'.clock == p.clock + 1
  {
    MoveFrame(p, s, d);
    MoveChangesSum(p, Worth, s, d);
    if IsEnPassant(p, s, d) { EnPassantVictim(p, s, d); }
    WorthAfterMove(p, s, d);
  }

  lemma WorthAfterMove(p: Position, s: Sq, d: Sq)
    requires Inv(p) && PseudoLegal(p, s, d)
    ensures if ClockAfter(p, s, d) == 0 then Change(p, Worth, s, d) < 0 else Change(p, Worth, s, d) == 0
  {
    var c := At(p.board, s);
    assert Killed(c).dead;
    if IsEnPassant(p, s, d) { EnPassantVictim(p, s, d); }
    if c.piece == Some(Pawn) {
      assert PawnFits(c, s.y);
      assert Worth(Arrived(c, d), d.y) < Worth(c, s.y);
    }
    assert Worth(At(p.board, d), d.y) >= 0 by {
      assert PawnFits(At(p.board, d), d.y);
    }
  }

  lemma {:induction false} TallyIsPositive(b: Board, i: nat, j: nat, n: nat)
    requires PawnsFit(b) && i < j < 64 && n <= 64 && !b[i].dead && !b[j].dead
    ensures Tally(b, Worth, n) >= One(i < n) + One(j < n)
  {
    if n > 0 {
      TallyIsPositive(b, i, j, n - 1);
      assert PawnFits(At(b, Sq((n - 1) % 8, (n - 1) / 8)), (n - 1) / 8);
    }
  }

  /** The two kings always remain. */
  lemma PotentialAtLeastTwo(p: Position)
    requires Inv(p)
    ensures Potential(p.board) >= 2
  {
    assert OneKing(p.board, White) && OneKing(p.board, Black);
    var w :| SoleKing(p.board, w, White);
    var k :| SoleKing(p.board, k, Black);
    if Index(w) < Index(k) {
      TallyIsPositive(p.board, Index(w), Index(k), 64);
    } else {
      TallyIsPositive(p.board, Index(k), Index(w), 64);
    }
  }

  /** On every accepted move, the pair (potential, 100 - clock) decreases lexicographically
      and stays bounded below. */
  lemma MeasureDecreases(p: Position, m: Move)
    requires Inv(p) && !GameOver(p) && LegalMove(p, m)
    ensures var p' := Step(p, m);
            && (Potential(p'.board) < Potential(p.board)
                || (Potential(p'.board) == Potential(p.board) && 100 - p'.clock < 100 - p.clock))
            && Potential(p'.board) >= 2 && 100 - p'.clock >= 0
  {
    PotentialAfterMove(p, m.from, m.to);
    LegalMoveKeepsInv(p, m.from, m.to);
    PotentialAtLeastTwo(Step(p, m));
  }

  /** The length of any accepted run is bounded by the potential and the clock. */
  lemma {:induction false} RunLength(p: Position, ms: seq<Move>)
    requires Inv(p) && AcceptedRun(p, ms) && p.clock <= 100
    ensures |ms| <= 100 * (Potential(p.board) - 1) - p.clock
    decreases |ms|
  {
    if ms == [] {
      PotentialAtLeastTwo(p);
    } else {
      var p' := Step(p, ms[0]);
      PotentialAfterMove(p, ms[0].from, ms[0].to);
      LegalMoveKeepsInv(p, ms[0].from, ms[0].to);
      MeasureDecreases(p, ms[0]);
      RunLength(p', ms[1..]);
    }
  }

  /** The worth of the first `n` squares of rank `y` at the start. */
  function RankTotal(y: int, n: nat): nat {
    if y == 1 || y == 6 then 7 * n else if y == 0 || y == 7 then n else 0
  }

  lemma StartWorth(x: int, y: int)
    requires 0 <= x < 8 && 0 <= y < 8
    ensures Worth(StartBoard()[8 * y + x], (8 * y + x) / 8) == RankTotal(y, 1)
  {
    assert At(StartBoard(), Sq(x, y)) == StartCell(x, y);
  }

  lemma {:induction false} StartRank(y: int, n: nat)
    requires 0 <= y < 8 && n <= 8
    ensures Tally(StartBoard(), Worth, 8 * y + n) ==
            Tally(StartBoard(), Worth, 8 * y) + RankTotal(y, n)
  {
    if n > 0 {
      StartRank(y, n - 1);
      StartWorth(n - 1, y);
    }
  }

  lemma StartPotential()
    ensures Potential(StartBoard()) == 128
  {
    StartRank(0, 8);
    StartRank(1, 8);
    StartRank(2, 8);
    StartRank(3, 8);
    StartRank(4, 8);
    StartRank(5, 8);
    StartRank(6, 8);
    StartRank(7, 8);
  }

  /** Every game on the server ends: it accepts at most 12,700 moves. */
  lemma {:induction false} EveryGameEnds(ms: seq<Move>)
    requires AcceptedRun(Start(), ms)
    ensures |ms| <= 12700
  {
    StartInv();
    StartPotential();
    RunLength(Start(), ms);
  }
}
