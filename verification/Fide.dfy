/** The FIDE Laws of Chess, Articles 3.1 to 3.9, 5.1.1, 5.2.1, 5.2.2 and 9.3.2, on a diagram: which
    piece stands on which square. Nothing here refers to the rule code or to its specification.

    The program promotes to a queen without asking, so Article 3.7.5 is taken with that choice. */
module Fide {
  import opened Pieces
  import opened ChessBoard

  datatype Man = Man(kind: Kind, team: Team)

  type Diagram = map<Sq, Man>

  /** `doubled` is the square of a pawn that advanced two squares in the move just made. */
  datatype State = State(diagram: Diagram, turn: Team, doubled: Option<Sq>)

  predicate SameDiagonal(s: Sq, d: Sq) {
    s != d && Abs(d.x - s.x) == Abs(d.y - s.y)
  }

  predicate SameFileOrRank(s: Sq, d: Sq) {
    s != d && (d.x == s.x || d.y == s.y)
  }

  predicate Within(a: int, v: int, z: int) {
    a <= v <= z || z <= v <= a
  }

  /** `q` is one of the squares that a piece going straight from `s` to `d` passes. */
  predicate Between(s: Sq, q: Sq, d: Sq) {
    && q != s && q != d && Within(s.x, q.x, d.x) && Within(s.y, q.y, d.y)
    && (SameFileOrRank(s, d) || SameDiagonal(s, q))
  }

  /** Article 3.5. */
  predicate NothingBetween(dg: Diagram, s: Sq, d: Sq) {
    forall q :: q in dg ==> !Between(s, q, d)
  }

  /** Articles 3.2 to 3.4, 3.6 and 3.8.1: the lines and jumps of the pieces other than pawns. */
  predicate PieceReaches(dg: Diagram, s: Sq, d: Sq)
    requires s in dg
  {
    match dg[s].kind
    case Pawn => false
    case Bishop => SameDiagonal(s, d) && NothingBetween(dg, s, d)
    case Rook => SameFileOrRank(s, d) && NothingBetween(dg, s, d)
    case Queen => (SameDiagonal(s, d) || SameFileOrRank(s, d)) && NothingBetween(dg, s, d)
    case Knight =>
      // one of the squares nearest to its own but not on the same rank, file or diagonal
      s.x != d.x && s.y != d.y && !SameDiagonal(s, d) && Abs(d.x - s.x) <= 2 && Abs(d.y - s.y) <= 2
    case King => s != d && Abs(d.x - s.x) <= 1 && Abs(d.y - s.y) <= 1
  }

  /** Diagonally in front on an adjacent file. */
  predicate PawnDiagonal(team: Team, s: Sq, d: Sq) {
    (d.x == s.x - 1 || d.x == s.x + 1) && (if team.White? then d.y == s.y + 1 else d.y == s.y - 1)
  }

  /** Article 3.1.2. */
  predicate Attacks(dg: Diagram, s: Sq, t: Sq)
    requires s in dg
  {
    if dg[s].kind.Pawn? then PawnDiagonal(dg[s].team, s, t) else PieceReaches(dg, s, t)
  }

  predicate UnderAttack(dg: Diagram, t: Sq, team: Team) {
    exists s :: s in dg && dg[s].team == team && Attacks(dg, s, t)
  }

  /** Article 3.9.1. */
  predicate InCheck(dg: Diagram, team: Team) {
    exists k :: k in dg && dg[k] == Man(King, team) && UnderAttack(dg, k, team.Opponent())
  }

  /** Article 3.7.4: the pawn on `s` takes the pawn that has just passed it. */
  predicate TakesInPassing(st: State, s: Sq, d: Sq)
    requires s in st.diagram
  {
    && st.diagram[s].kind.Pawn? && PawnDiagonal(st.diagram[s].team, s, d)
    && d !in st.diagram && st.doubled == Some(Sq(d.x, s.y))
  }

  /** Article 3.7. */
  predicate PawnMay(st: State, s: Sq, d: Sq)
    requires s in st.diagram
  {
    var team := st.diagram[s].team;
    var ahead := Sq(s.x, if team.White? then s.y + 1 else s.y - 1);
    var beyond := Sq(s.x, if team.White? then s.y + 2 else s.y - 2);
    var initial := s.y == if team.White? then 1 else 6;
    || (d == ahead && d !in st.diagram)
    || (d == beyond && initial && ahead !in st.diagram && d !in st.diagram)
    || (PawnDiagonal(team, s, d) && d in st.diagram && st.diagram[d].team != team)
    || TakesInPassing(st, s, d)
  }

  /** Articles 3.1 to 3.8, without castling. */
  predicate May(st: State, s: Sq, d: Sq) {
    && InBoard(d) && s in st.diagram && st.diagram[s].team == st.turn
    && (d in st.diagram ==> st.diagram[d].team != st.turn)
    && if st.diagram[s].kind.Pawn? then PawnMay(st, s, d) else PieceReaches(st.diagram, s, d)
  }

  /** The piece that arrives; Article 3.7.5. */
  function Promoted(m: Man, d: Sq): Man {
    if m.kind.Pawn? && (d.y == 0 || d.y == 7) then Man(Queen, m.team) else m
  }

  /** The state after the move. */
  function After(st: State, s: Sq, d: Sq): State
    requires s in st.diagram
  {
    var gone := {s} + if TakesInPassing(st, s, d) then {Sq(d.x, s.y)} else {};
    var jumped := st.diagram[s].kind.Pawn? && Abs(d.y - s.y) == 2;
    State((st.diagram - gone)[d := Promoted(st.diagram[s], d)],
          st.turn.Opponent(),
          if jumped then Some(d) else None)
  }

  /** Article 3.9.2: no move may leave one's own king in check. */
  predicate Legal(st: State, s: Sq, d: Sq) {
    May(st, s, d) && !InCheck(After(st, s, d).diagram, st.turn)
  }

  // ----- castling, Article 3.8.2

  /** Which of the two castlings a player has not yet forfeited by moving king or rook. */
  datatype Unmoved = Unmoved(kingside: bool, queenside: bool)

  predicate CastlesTo(st: State, unmoved: Unmoved, s: Sq, d: Sq, kingside: bool) {
    var y := if st.turn.White? then 0 else 7;
    var rook := Sq(if kingside then 7 else 0, y);
    var crossed := Sq(if kingside then 5 else 3, y);
    && s == Sq(4, y) && d == Sq(if kingside then 6 else 2, y)
    && (if kingside then unmoved.kingside else unmoved.queenside)
    && s in st.diagram && st.diagram[s] == Man(King, st.turn)
    && rook in st.diagram && st.diagram[rook] == Man(Rook, st.turn)
    && NothingBetween(st.diagram, s, rook)
    && !UnderAttack(st.diagram, s, st.turn.Opponent())
    && !UnderAttack(st.diagram, crossed, st.turn.Opponent())
    && !UnderAttack(st.diagram, d, st.turn.Opponent())
  }

  predicate Castles(st: State, unmoved: Unmoved, s: Sq, d: Sq) {
    CastlesTo(st, unmoved, s, d, true) || CastlesTo(st, unmoved, s, d, false)
  }

  /** The moves of the Laws, castling included. */
  predicate LegalOrCastles(st: State, unmoved: Unmoved, s: Sq, d: Sq) {
    Legal(st, s, d) || Castles(st, unmoved, s, d)
  }

  ghost predicate CanMove(st: State, unmoved: Unmoved) {
    exists s, d :: LegalOrCastles(st, unmoved, s, d)
  }

  /** Article 5.1.1. */
  ghost predicate Mated(st: State, unmoved: Unmoved) {
    InCheck(st.diagram, st.turn) && !CanMove(st, unmoved)
  }

  /** Article 5.2.1. */
  ghost predicate Stalemated(st: State, unmoved: Unmoved) {
    !InCheck(st.diagram, st.turn) && !CanMove(st, unmoved)
  }

  // ----- runs, without castling

  ghost predicate Run(st: State, ms: seq<Move>)
    decreases |ms|
  {
    ms == [] || (Legal(st, ms[0].from, ms[0].to) && Run(After(st, ms[0].from, ms[0].to), ms[1..]))
  }

  ghost function Play(st: State, ms: seq<Move>): State
    requires Run(st, ms)
    decreases |ms|
  {
    if ms == [] then st else Play(After(st, ms[0].from, ms[0].to), ms[1..])
  }

  /** Article 5.2.2, for positions in which nobody can castle any more: no series of legal moves
      leads to checkmate of either player. */
  ghost predicate DeadPosition(st: State) {
    forall ms :: Run(st, ms) ==> !Mated(Play(st, ms), Unmoved(false, false))
  }

  // ----- the draw after fifty moves, Article 9.3.2

  /** No pawn is moved and nothing is captured; capture in passing is a pawn's move. */
  predicate Quiet(st: State, m: Move)
    requires m.from in st.diagram
  {
    !st.diagram[m.from].kind.Pawn? && m.to !in st.diagram
  }

  ghost predicate AllQuiet(st: State, ms: seq<Move>)
    requires Run(st, ms)
    decreases |ms|
  {
    ms == [] || (Quiet(st, ms[0]) && AllQuiet(After(st, ms[0].from, ms[0].to), ms[1..]))
  }

  /** How many of the moves `ms` are made by `team`. */
  ghost function MovesBy(st: State, ms: seq<Move>, team: Team): nat
    requires Run(st, ms)
    decreases |ms|
  {
    if ms == [] then 0
    else (if st.turn == team then 1 else 0) + MovesBy(After(st, ms[0].from, ms[0].to), ms[1..], team)
  }

  /** Some last part of the moves holds at least fifty of each player, all of them quiet. */
  ghost predicate FiftyMovesEach(st: State, ms: seq<Move>)
    requires Run(st, ms)
    decreases |ms|
  {
    || (AllQuiet(st, ms) && MovesBy(st, ms, White) >= 50 && MovesBy(st, ms, Black) >= 50)
    || (ms != [] && FiftyMovesEach(After(st, ms[0].from, ms[0].to), ms[1..]))
  }
}
