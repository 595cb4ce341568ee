/** The canonical encoding of section 16.1 of the PGN Standard, and `fen_parse` as its inverse. */
module FenRoundTrip {
  import opened Pieces
  import opened ChessBoard
  import opened Games
  import opened RuleEngine
  import opened Strings
  import opened Fen

  // ----- the encoding

  predicate Occupied(c: Cell) {
    !c.dead && c.piece.Some?
  }

  /** Section 16.1.3.1: upper case for White, lower case for Black. */
  function Letter(k: Kind, t: Team): char {
    match k
    case Pawn => if t.White? then 'P' else 'p'
    case Knight => if t.White? then 'N' else 'n'
    case Bishop => if t.White? then 'B' else 'b'
    case Rook => if t.White? then 'R' else 'r'
    case Queen => if t.White? then 'Q' else 'q'
    case King => if t.White? then 'K' else 'k'
  }

  function Gap(run: nat): string
    requires run <= 8
  {
    if run == 0 then "" else [Digit(run)]
  }

  /** The rest of rank `y` from file `x` on, after `run` empty squares. */
  function EncodeFrom(b: Board, y: int, x: nat, run: nat): string
    requires run <= x <= 8
    decreases 8 - x, |b|
  {
    if x == 8 then Gap(run)
    else
      var c := At(b, Sq(x, y));
      if Occupied(c) then Gap(run) + [Letter(c.piece.value, c.team)] + EncodeFrom(b, y, x + 1, 0)
      else EncodeFrom(b, y, x + 1, run + 1)
  }

  /** Ranks `y` down to the first, separated by slashes. */
  function EncodeRanks(b: Board, y: nat): string
    decreases y, |b|
  {
    EncodeFrom(b, y, 0, 0) + if y == 0 then "" else "/" + EncodeRanks(b, y - 1)
  }

  function EncodeSide(t: Team): string {
    if t.White? then "w" else "b"
  }

  function EncodeRights(p: Position): string {
    var s := (if p.whiteKingside then "K" else "") + (if p.whiteQueenside then "Q" else "")
             + (if p.blackKingside then "k" else "") + (if p.blackQueenside then "q" else "");
    if s == "" then "-" else s
  }

  function EncodeTarget(x: int, y: int): string {
    if InBoard(Sq(x, y)) then ['a' + x as char, '1' + y as char] else "-"
  }

  /** The fields, separated by single blanks. */
  function Join(fields: seq<string>): string {
    if fields == [] then ""
    else if |fields| == 1 then fields[0]
    else fields[0] + " " + Join(fields[1..])
  }

  function Fields(p: Position, fullmove: nat): seq<string>
    requires p.clock >= 0
  {
    [EncodeRanks(p.board, 7), EncodeSide(p.side), EncodeRights(p), EncodeTarget(p.epX, p.epY),
     Dec(p.clock), Dec(fullmove)]
  }

  function Encode(p: Position, fullmove: nat): string
    requires p.clock >= 0
  {
    Join(Fields(p, fullmove))
  }

  // ----- what parsing restores

  /** Notation does not record whether a piece has moved. */
  function Canonical(c: Cell): Cell {
    if Occupied(c) then Cell(c.piece, c.team, false, false) else EMPTY
  }

  function CanonicalBoard(b: Board): (r: Board)
    ensures forall s :: At(r, s) == Canonical(At(b, s))
  {
    seq(64, i requires 0 <= i < 64 => Canonical(b[i]))
  }

  lemma LetterIsRead(k: Kind, t: Team)
    ensures KindOf(Letter(k, t)) == Some(k) && TeamOf(Letter(k, t)) == t
    ensures !IsDigit(Letter(k, t)) && Letter(k, t) != '/' && Letter(k, t) != ' '
  {
  }

  function FillRank(to: Board, b: Board, y: int, x: nat): Board
    requires x <= 8 && 0 <= y < 8
    decreases 8 - x, |b|
  {
    if x == 8 then to
    else
      var c := At(b, Sq(x, y));
      FillRank(if Occupied(c) then Put(to, Sq(x, y), Canonical(c)) else to, b, y, x + 1)
  }

  lemma {:induction false} FillRankAt(to: Board, b: Board, y: int, x: nat, s: Sq)
    requires x <= 8 && 0 <= y < 8
    ensures At(FillRank(to, b, y, x), s) ==
            if s.y == y && x <= s.x < 8 && Occupied(At(b, s)) then Canonical(At(b, s)) else At(to, s)
    decreases 8 - x
  {
    if x < 8 {
      var c := At(b, Sq(x, y));
      FillRankAt(if Occupied(c) then Put(to, Sq(x, y), Canonical(c)) else to, b, y, x + 1, s);
    }
  }

  lemma {:induction false} PlaceGap(to: Board, x: int, y: int, run: nat, rest: string)
    requires run <= 8 && 0 <= y
    ensures Place(to, x, y, Gap(run) + rest) == Place(to, x + run, y, rest)
    ensures Fits(x, y, Gap(run) + rest) <==> Fits(x + run, y, rest)
  {
    if run == 0 {
      assert Gap(run) + rest == rest;
    } else {
      var t := Gap(run) + rest;
      assert t[0] == Digit(run) && t[1..] == rest;
    }
  }

  lemma {:induction false} PlaceLetter(to: Board, s: Sq, c: Cell, tail: string)
    requires InBoard(s) && Occupied(c)
    ensures var t := [Letter(c.piece.value, c.team)] + tail;
            && Place(to, s.x, s.y, t) == Place(Put(to, s, Canonical(c)), s.x + 1, s.y, tail)
            && (Fits(s.x, s.y, t) <==> Fits(s.x + 1, s.y, tail))
  {
    LetterIsRead(c.piece.value, c.team);
    var t := [Letter(c.piece.value, c.team)] + tail;
    assert t[0] == Letter(c.piece.value, c.team) && t[1..] == tail;
  }

  lemma EncodeOccupied(b: Board, y: int, x: nat, run: nat, rest: string)
    requires run <= x < 8 && Occupied(At(b, Sq(x, y)))
    ensures var c := At(b, Sq(x, y));
            EncodeFrom(b, y, x, run) + rest
            == Gap(run) + ([Letter(c.piece.value, c.team)] + (EncodeFrom(b, y, x + 1, 0) + rest))
  {
  }

  lemma PlaceOccupied(to: Board, b: Board, y: int, x: nat, run: nat, rest: string)
    requires 0 <= y < 8 && run <= x < 8 && Occupied(At(b, Sq(x, y)))
    ensures Place(to, x - run, y, EncodeFrom(b, y, x, run) + rest)
         == Place(Put(to, Sq(x, y), Canonical(At(b, Sq(x, y)))), x + 1, y, EncodeFrom(b, y, x + 1, 0) + rest)
    ensures Fits(x - run, y, EncodeFrom(b, y, x, run) + rest) <==> Fits(x + 1, y, EncodeFrom(b, y, x + 1, 0) + rest)
  {
    hide Place, Fits, EncodeFrom, Put;
    var c := At(b, Sq(x, y));
    var tail := EncodeFrom(b, y, x + 1, 0) + rest;
    EncodeOccupied(b, y, x, run, rest);
    PlaceGap(to, x - run, y, run, [Letter(c.piece.value, c.team)] + tail);
    PlaceLetter(to, Sq(x, y), c, tail);
  }

  /** Parsing the encoding of the rest of a rank fills in the rest of the rank. */
  lemma {:induction false} PlaceRank(to: Board, b: Board, y: int, x: nat, run: nat, rest: string)
    requires 0 <= y < 8 && run <= x <= 8
    ensures Place(to, x - run, y, EncodeFrom(b, y, x, run) + rest) == Place(FillRank(to, b, y, x), 8, y, rest)
    ensures Fits(x - run, y, EncodeFrom(b, y, x, run) + rest) <==> Fits(8, y, rest)
    decreases 8 - x
  {
    hide Place, Fits, Put, At, Canonical, Occupied;
    if x == 8 {
      PlaceGap(to, x - run, y, run, rest);
    } else if Occupied(At(b, Sq(x, y))) {
      PlaceOccupied(to, b, y, x, run, rest);
      PlaceRank(Put(to, Sq(x, y), Canonical(At(b, Sq(x, y)))), b, y, x + 1, 0, rest);
    } else {
      PlaceRank(to, b, y, x + 1, run + 1, rest);
    }
  }

  function FillRanks(to: Board, b: Board, y: int): Board
    requires -1 <= y < 8
    decreases y + 1, |b|
  {
    if y < 0 then to else FillRanks(FillRank(to, b, y, 0), b, y - 1)
  }

  lemma {:induction false} FillRanksAt(to: Board, b: Board, y: int, s: Sq)
    requires -1 <= y < 8
    ensures At(FillRanks(to, b, y), s) ==
            if s.y <= y && Occupied(At(b, s)) then Canonical(At(b, s)) else At(to, s)
    decreases y + 1
  {
    if y >= 0 {
      FillRankAt(to, b, y, 0, s);
      FillRanksAt(FillRank(to, b, y, 0), b, y - 1, s);
    }
  }

  lemma {:induction false} PlaceSlash(to: Board, x: int, y: int, rest: string)
    requires y >= 0
    ensures Place(to, x, y, "/" + rest) == Place(to, 0, y - 1, rest)
    ensures Fits(x, y, "/" + rest) <==> Fits(0, y - 1, rest)
  {
    assert ("/" + rest)[1..] == rest;
  }

  lemma {:induction false} PlaceRanks(to: Board, b: Board, y: nat)
    requires y < 8
    ensures Place(to, 0, y, EncodeRanks(b, y)) == Placed(FillRanks(to, b, y), 8, 0)
    ensures Fits(0, y, EncodeRanks(b, y))
    decreases y
  {
    var to' := FillRank(to, b, y, 0);
    if y == 0 {
      PlaceRank(to, b, y, 0, 0, "");
    } else {
      PlaceRanks(to', b, y - 1);
      PlaceSlash(to', 8, y, EncodeRanks(b, y - 1));
      PlaceRank(to, b, y, 0, 0, "/" + EncodeRanks(b, y - 1));
    }
  }

  lemma {:induction false} PlacementRoundTrip(b: Board)
    ensures Fits(0, 7, EncodeRanks(b, 7))
    ensures Place(Cleared(), 0, 7, EncodeRanks(b, 7)) == Placed(CanonicalBoard(b), 8, 0)
  {
    PlaceRanks(Cleared(), b, 7);
    forall s | InBoard(s) ensures At(FillRanks(Cleared(), b, 7), s) == At(CanonicalBoard(b), s) {
      FillRanksAt(Cleared(), b, 7, s);
    }
    BoardsEqual(FillRanks(Cleared(), b, 7), CanonicalBoard(b));
  }

  // ----- the fields

  lemma {:induction false} RankIsSolid(b: Board, y: int, x: nat, run: nat)
    requires run <= x <= 8
    ensures Solid(EncodeFrom(b, y, x, run), SpaceOnly)
    decreases 8 - x
  {
    if x < 8 {
      var c := At(b, Sq(x, y));
      if Occupied(c) {
        LetterIsRead(c.piece.value, c.team);
        RankIsSolid(b, y, x + 1, 0);
      } else {
        RankIsSolid(b, y, x + 1, run + 1);
      }
    }
  }

  lemma {:induction false} RankIsNotEmpty(b: Board, y: int, x: nat, run: nat)
    requires run <= x <= 8 && (x < 8 || run > 0)
    ensures EncodeFrom(b, y, x, run) != ""
    decreases 8 - x
  {
    if x < 8 && !Occupied(At(b, Sq(x, y))) { RankIsNotEmpty(b, y, x + 1, run + 1); }
  }

  lemma SolidConcat(a: string, b: string)
    requires Solid(a, SpaceOnly) && Solid(b, SpaceOnly)
    ensures Solid(a + b, SpaceOnly)
  {
  }

  lemma RanksStep(b: Board, y: nat)
    requires y > 0
    ensures EncodeRanks(b, y) == EncodeFrom(b, y, 0, 0) + ("/" + EncodeRanks(b, y - 1))
  {
  }

  lemma {:induction false} LastRank(b: Board)
    ensures EncodeRanks(b, 0) == EncodeFrom(b, 0, 0, 0)
  {
    assert EncodeFrom(b, 0, 0, 0) + "" == EncodeFrom(b, 0, 0, 0);
  }

  lemma {:induction false} RanksAreSolid(b: Board, y: nat)
    ensures Solid(EncodeRanks(b, y), SpaceOnly) && EncodeRanks(b, y) != ""
    decreases y
  {
    RankIsSolid(b, y, 0, 0);
    RankIsNotEmpty(b, y, 0, 0);
    if y == 0 {
      LastRank(b);
    } else {
      RanksStep(b, y);
      RanksAreSolid(b, y - 1);
      SolidConcat("/", EncodeRanks(b, y - 1));
      SolidConcat(EncodeFrom(b, y, 0, 0), "/" + EncodeRanks(b, y - 1));
    }
  }

  lemma RightsAreRead(p: Position, q: Position)
    ensures var s := EncodeRights(p);
            && Solid(s, SpaceOnly) && s != ""
            && ParseField(q, 2, s) == (true, q.(whiteKingside := p.whiteKingside, whiteQueenside := p.whiteQueenside,
                                               blackKingside := p.blackKingside, blackQueenside := p.blackQueenside))
  {
  }

  lemma TargetIsRead(q: Position, x: int, y: int)
    requires InBoard(Sq(x, y)) || (x == -1 && y == -1)
    ensures var s := EncodeTarget(x, y);
            Solid(s, SpaceOnly) && s != "" && ParseField(q, 3, s) == (true, q.(epX := x, epY := y))
  {
  }

  lemma SideIsRead(q: Position, t: Team)
    ensures var s := EncodeSide(t);
            Solid(s, SpaceOnly) && s != "" && ParseField(q, 1, s) == (true, q.(side := t))
  {
  }

  lemma {:induction false} ClockIsRead(q: Position, n: nat)
    ensures Solid(Dec(n), SpaceOnly) && Dec(n) != "" && ParseField(q, 4, Dec(n)) == (true, q.(clock := n))
  {
    AtoiOfDec(n);
  }

  lemma {:induction false} NextToken(t: string, rest: string, max: nat)
    requires Solid(t, SpaceOnly) && t != "" && |t| <= max
    ensures Tokens(t + " " + rest, SpaceOnly, max) == [t] + Tokens(rest, SpaceOnly, max)
  {
    assert t + " " + rest == t + (" " + rest);
    TokensCons(t, " " + rest, SpaceOnly, max);
    TokensSkip(' ', rest, SpaceOnly, max);
  }

  lemma {:induction false} LastToken(t: string, max: nat)
    requires Solid(t, SpaceOnly) && t != "" && |t| <= max
    ensures Tokens(t, SpaceOnly, max) == [t]
  {
    assert t + "" == t;
    TokensCons(t, "", SpaceOnly, max);
    assert Tokens("", SpaceOnly, max) == [];
  }

  predicate AreFields(ts: seq<string>) {
    forall i :: 0 <= i < |ts| ==> Solid(ts[i], SpaceOnly) && ts[i] != ""
  }

  lemma {:induction false} JoinLength(ts: seq<string>)
    ensures forall i :: 0 <= i < |ts| ==> |ts[i]| <= |Join(ts)|
  {
    if |ts| > 1 {
      JoinLength(ts[1..]);
      forall i | 0 <= i < |ts| ensures |ts[i]| <= |Join(ts)| {
        assert i > 0 ==> ts[i] == ts[1..][i - 1];
      }
    }
  }

  lemma {:induction false} NoTokens(max: nat)
    requires max > 0
    ensures Tokens("", SpaceOnly, max) == []
  {
  }

  lemma {:induction false} TokensOfJoin(ts: seq<string>, max: nat)
    requires AreFields(ts) && max > 0 && forall i :: 0 <= i < |ts| ==> |ts[i]| <= max
    ensures Tokens(Join(ts), SpaceOnly, max) == ts
  {
    hide Tokens, Solid;
    if |ts| == 0 {
      assert Tokens("", SpaceOnly, max) == [] by { NoTokens(max); }
    } else if |ts| == 1 {
      LastToken(ts[0], max);
    } else {
      NextToken(ts[0], Join(ts[1..]), max);
      TokensOfJoin(ts[1..], max);
    }
  }

  predicate Encodable(p: Position) {
    p.clock >= 0 && (InBoard(Sq(p.epX, p.epY)) || (p.epX == -1 && p.epY == -1))
  }

  lemma EncodingTokens(p: Position, fullmove: nat)
    requires Encodable(p)
    ensures FenTokens(Encode(p, fullmove)) == Fields(p, fullmove)
  {
    RanksAreSolid(p.board, 7);
    SideIsRead(p, p.side);
    RightsAreRead(p, p);
    TargetIsRead(p, p.epX, p.epY);
    ClockIsRead(p, p.clock);
    ClockIsRead(p, fullmove);
    JoinLength(Fields(p, fullmove));
    TokensOfJoin(Fields(p, fullmove), |Encode(p, fullmove)| + 1);
  }

  lemma {:induction false} ParseSix(
    p: Position, t: seq<string>, p0: Position, p1: Position, p2: Position, p3: Position, p4: Position)
    requires |t| == 6 && forall i :: 0 <= i < 6 ==> t[i] != ""
    requires ParseField(p, 0, t[0]) == (true, p0) && ParseField(p0, 1, t[1]) == (true, p1)
    requires ParseField(p1, 2, t[2]) == (true, p2) && ParseField(p2, 3, t[3]) == (true, p3)
    requires ParseField(p3, 4, t[4]) == (true, p4)
    ensures ParseFields(p, 0, t) == (true, p4)
  {
    assert t[1..][1..] == t[2..] && t[2..][1..] == t[3..] && t[3..][1..] == t[4..];
    assert t[4..][1..] == t[5..] && t[5..][1..] == t[6..];
    assert ParseFields(p4, 5, t[5..]) == ParseFields(p4, 6, t[6..]);
    assert ParseFields(p3, 4, t[4..]) == (true, p4);
    assert ParseFields(p2, 3, t[3..]) == (true, p4);
    assert ParseFields(p1, 2, t[2..]) == (true, p4);
    assert ParseFields(p0, 1, t[1..]) == (true, p4);
  }

  /** Whatever position was there before, parsing the canonical encoding of `p` yields `p` with
      every piece marked unmoved; no write leaves the board. */
  lemma FenRoundTrip(before: Position, p: Position, fullmove: nat)
    requires Encodable(p)
    ensures FenFits(Encode(p, fullmove))
    ensures ParseFen(before, Encode(p, fullmove)) == (true, p.(board := CanonicalBoard(p.board)))
  {
    EncodingTokens(p, fullmove);
    PlacementRoundTrip(p.board);
    var q := before.(board := Cleared());
    var q0 := q.(board := CanonicalBoard(p.board));
    var q1 := q0.(side := p.side);
    var q2 := q1.(whiteKingside := p.whiteKingside, whiteQueenside := p.whiteQueenside,
                  blackKingside := p.blackKingside, blackQueenside := p.blackQueenside);
    var q3 := q2.(epX := p.epX, epY := p.epY);
    var q4 := q3.(clock := p.clock);
    SideIsRead(q0, p.side);
    RightsAreRead(p, q1);
    TargetIsRead(q2, p.epX, p.epY);
    ClockIsRead(q3, p.clock);
    ParseSix(q, FenTokens(Encode(p, fullmove)), q0, q1, q2, q3, q4);
  }

  // ----- the start position

  /** The placement field of the start position, rank by rank from the eighth down. */
  const START_PLACEMENT: string :=
    "rnbqkbnr" + ("/" + ("pppppppp" + ("/" + ("8" + ("/" + ("8" + ("/" + ("8" + ("/" + ("8" + ("/" +
    ("PPPPPPPP" + ("/" + "RNBQKBNR")))))))))))))

  const START_FEN: string :=
    START_PLACEMENT + " " + ("w" + " " + ("KQkq" + " " + ("-" + " " + ("0" + " " + "1"))))

  ghost predicate IsStartBoard(b: Board) {
    forall s :: InBoard(s) ==> At(b, s) == StartCell(s.x, s.y)
  }

  lemma {:induction false} EmptyRank(b: Board, y: int, x: nat)
    requires x <= 8 && forall i :: 0 <= i < 8 ==> !Occupied(At(b, Sq(i, y)))
    ensures EncodeFrom(b, y, x, x) == "8"
    decreases 8 - x
  {
    if x < 8 { EmptyRank(b, y, x + 1); }
  }

  function LetterAt(b: Board, s: Sq): char {
    if Occupied(At(b, s)) then Letter(At(b, s).piece.value, At(b, s).team) else '?'
  }

  predicate RankFull(b: Board, y: int) {
    forall i :: 0 <= i < 8 ==> Occupied(At(b, Sq(i, y)))
  }

  lemma FullStep(b: Board, y: int, x: nat)
    requires RankFull(b, y) && x < 8
    ensures EncodeFrom(b, y, x, 0) == [LetterAt(b, Sq(x, y))] + EncodeFrom(b, y, x + 1, 0)
  {
    assert Occupied(At(b, Sq(x, y)));
  }

  lemma {:induction false} FullRank(b: Board, y: int)
    requires RankFull(b, y)
    ensures EncodeFrom(b, y, 0, 0) ==
            [LetterAt(b, Sq(0, y)), LetterAt(b, Sq(1, y)), LetterAt(b, Sq(2, y)), LetterAt(b, Sq(3, y)),
             LetterAt(b, Sq(4, y)), LetterAt(b, Sq(5, y)), LetterAt(b, Sq(6, y)), LetterAt(b, Sq(7, y))]
  {
    hide EncodeFrom, LetterAt, At, RankFull;
    FullStep(b, y, 0);
    FullStep(b, y, 1);
    FullStep(b, y, 2);
    FullStep(b, y, 3);
    FullStep(b, y, 4);
    FullStep(b, y, 5);
    FullStep(b, y, 6);
    FullStep(b, y, 7);
    FullEnd(b, y);
  }

  lemma {:induction false} FullEnd(b: Board, y: int)
    ensures EncodeFrom(b, y, 8, 0) == ""
  {
  }

  function RankOfStart(y: int): string {
    if y == 0 then "RNBQKBNR" else if y == 1 then "PPPPPPPP"
    else if y == 6 then "pppppppp" else if y == 7 then "rnbqkbnr" else "8"
  }

  lemma StartLetters(b: Board, x: int, y: int)
    requires IsStartBoard(b) && 0 <= x < 8 && (y == 0 || y == 1 || y == 6 || y == 7)
    ensures Occupied(At(b, Sq(x, y))) && LetterAt(b, Sq(x, y)) == RankOfStart(y)[x]
  {
    assert At(b, Sq(x, y)) == StartCell(x, y);
  }

  lemma {:induction false} FullRankText(b: Board, y: int, r: string)
    requires |r| == 8
    requires forall x :: 0 <= x < 8 ==> Occupied(At(b, Sq(x, y))) && LetterAt(b, Sq(x, y)) == r[x]
    ensures EncodeFrom(b, y, 0, 0) == r
  {
    hide EncodeFrom, LetterAt, At, Occupied;
    FullRank(b, y);
    assert r == [r[0], r[1], r[2], r[3], r[4], r[5], r[6], r[7]];
  }

  lemma {:induction false} FullStartRank(b: Board, y: int, r: string)
    requires IsStartBoard(b) && (y == 0 || y == 1 || y == 6 || y == 7) && r == RankOfStart(y) && |r| == 8
    ensures EncodeFrom(b, y, 0, 0) == r
  {
    hide *;
    forall x | 0 <= x < 8 ensures Occupied(At(b, Sq(x, y))) && LetterAt(b, Sq(x, y)) == r[x] {
      StartLetters(b, x, y);
    }
    FullRankText(b, y, r);
  }

  lemma {:induction false} StartRank(b: Board, y: int)
    requires IsStartBoard(b) && 0 <= y < 8
    ensures EncodeFrom(b, y, 0, 0) == RankOfStart(y)
  {
    if y == 0 || y == 1 || y == 6 || y == 7 {
      FullStartRank(b, y, RankOfStart(y));
    } else {
      forall i | 0 <= i < 8 ensures !Occupied(At(b, Sq(i, y))) {
        assert At(b, Sq(i, y)) == StartCell(i, y);
      }
      EmptyRank(b, y, 0);
    }
  }

  lemma StartRanksFrom(b: Board, y: nat, below: string)
    requires IsStartBoard(b) && 0 < y < 8 && EncodeRanks(b, y - 1) == below
    ensures EncodeRanks(b, y) == RankOfStart(y) + ("/" + below)
  {
    StartRank(b, y);
    RanksStep(b, y);
  }

  lemma {:induction false} StartRanks(b: Board)
    requires IsStartBoard(b)
    ensures EncodeRanks(b, 7) == START_PLACEMENT
  {
    StartRank(b, 0);
    LastRank(b);
    StartRanksFrom(b, 1, EncodeRanks(b, 0));
    StartRanksFrom(b, 2, EncodeRanks(b, 1));
    StartRanksFrom(b, 3, EncodeRanks(b, 2));
    StartRanksFrom(b, 4, EncodeRanks(b, 3));
    StartRanksFrom(b, 5, EncodeRanks(b, 4));
    StartRanksFrom(b, 6, EncodeRanks(b, 5));
    StartRanksFrom(b, 7, EncodeRanks(b, 6));
  }

  lemma StartEncoding(p: Position)
    requires IsStartBoard(p.board) && p == Start().(board := p.board)
    ensures Encode(p, 1) == START_FEN
  {
    StartRanks(p.board);
    StartFields(START_PLACEMENT);
    assert EncodeRights(p) == "KQkq";
    assert Dec(0) == "0" && Dec(1) == "1";
    assert Fields(p, 1) == [START_PLACEMENT] + (["w"] + (["KQkq"] + (["-"] + (["0"] + ["1"]))));
  }

  lemma {:induction false} JoinStep(t: string, ts: seq<string>)
    requires ts != []
    ensures Join([t] + ts) == t + " " + Join(ts)
  {
    assert ([t] + ts)[1..] == ts;
  }

  lemma StartFields(a: string)
    ensures Join([a] + (["w"] + (["KQkq"] + (["-"] + (["0"] + ["1"])))))
         == a + " " + ("w" + " " + ("KQkq" + " " + ("-" + " " + ("0" + " " + "1"))))
  {
    assert Join(["1"]) == "1";
    hide *;
    JoinStep("0", ["1"]);
    JoinStep("-", ["0"] + ["1"]);
    JoinStep("KQkq", ["-"] + (["0"] + ["1"]));
    JoinStep("w", ["KQkq"] + (["-"] + (["0"] + ["1"])));
    JoinStep(a, ["w"] + (["KQkq"] + (["-"] + (["0"] + ["1"]))));
  }

  /** The string of `init_startpos` denotes the start position. */
  lemma StartIsRead(before: Position, p: Position)
    requires IsStartBoard(p.board) && p == Start().(board := p.board)
    ensures FenFits(START_FEN) && ParseFen(before, START_FEN) == (true, p)
  {
    StartEncoding(p);
    FenRoundTrip(before, p, 1);
    BoardsEqual(CanonicalBoard(p.board), p.board);
  }

  method InitStartpos(g: Game)
    requires g.Valid()
    modifies g, g.board
    ensures g.Pos() == Start()
  {
    StartIsRead(g.Pos(), Start());
    var ok := FenParse(g, START_FEN);
  }
}
