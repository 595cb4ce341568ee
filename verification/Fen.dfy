/** Forsyth-Edwards notation: `fen_parse`, `clear_board` and `init_startpos` of common/utils.c,
    against the encoding of section 16.1 of the PGN Standard. */
module Fen {
  import opened Pieces
  import opened ChessBoard
  import opened RuleEngine
  import opened Strings

  // ----- what the parser computes

  function Lower(c: char): char {
    if 'A' <= c <= 'Z' then c - 'A' + 'a' else c
  }

  function KindOf(letter: char): Option<Kind> {
    match Lower(letter)
    case 'k' => Some(King)
    case 'q' => Some(Queen)
    case 'r' => Some(Rook)
    case 'b' => Some(Bishop)
    case 'n' => Some(Knight)
    case 'p' => Some(Pawn)
    case _ => None
  }

  function TeamOf(letter: char): Team {
    if 'A' <= letter <= 'Z' then White else Black
  }

  datatype Placement = Rejected(board: Board) | Placed(board: Board, x: int, y: int)

  /** Every piece letter of the placement field falls on the board. The code does not check
      this; a field that overruns a rank writes outside the board. */
  predicate Fits(x: int, y: int, t: string)
    decreases |t|
  {
    t == "" || y < 0 ||
    if t[0] == '/' then Fits(0, y - 1, t[1..])
    else if IsDigit(t[0]) then Fits(x + DigitValue(t[0]), y, t[1..])
    else KindOf(t[0]).None? || (InBoard(Sq(x, y)) && Fits(x + 1, y, t[1..]))
  }

  function Set(b: Board, s: Sq, c: Cell): Board {
    if InBoard(s) then Put(b, s, c) else b
  }

  /** The placement loop from square (x, y) on. */
  function Place(b: Board, x: int, y: int, t: string): Placement
    decreases |t|
  {
    if t == "" || y < 0 then Placed(b, x, y)
    else if t[0] == '/' then Place(b, 0, y - 1, t[1..])
    else if IsDigit(t[0]) then Place(b, x + DigitValue(t[0]), y, t[1..])
    else if KindOf(t[0]).None? then Rejected(b)
    else Place(Set(b, Sq(x, y), Cell(KindOf(t[0]), TeamOf(t[0]), false, false)), x + 1, y, t[1..])
  }

  function Cleared(): (b: Board)
    ensures forall s :: At(b, s) == EMPTY
  {
    seq(64, _ => EMPTY)
  }

  predicate FieldFits(fld: int, tok: string) {
    fld == 0 ==> Fits(0, 7, tok)
  }

  predicate IsAlpha(c: char) {
    'a' <= Lower(c) <= 'z'
  }

  /** One field; the flag says whether parsing goes on. */
  function ParseField(p: Position, fld: int, tok: string): (bool, Position)
    requires tok != ""
  {
    if fld == 0 then
      match Place(p.board, 0, 7, tok)
      case Rejected(b) => (false, p.(board := b))
      case Placed(b, _, _) => (true, p.(board := b))
    else if fld == 1 then (true, p.(side := if tok[0] == 'b' then Black else White))
    else if fld == 2 then
      (true, p.(whiteKingside := 'K' in tok, whiteQueenside := 'Q' in tok,
                blackKingside := 'k' in tok, blackQueenside := 'q' in tok))
    else if fld == 3 then
      if tok[0] == '-' then (true, p.(epX := -1, epY := -1))
      else if IsAlpha(tok[0]) && |tok| > 1 && IsDigit(tok[1]) then
        var file, rank := (Lower(tok[0]) as int) - ('a' as int), (tok[1] as int) - ('1' as int);
        if InBoard(Sq(file, rank)) then (true, p.(epX := file, epY := rank)) else (false, p)
      else (false, p)
    else if fld == 4 then (true, p.(clock := Atoi(tok)))
    else (true, p)
  }

  function ParseFields(p: Position, fld: nat, toks: seq<string>): (bool, Position)
    requires forall i :: 0 <= i < |toks| ==> toks[i] != ""
    decreases |toks|
  {
    if toks == [] || fld >= 6 then (fld >= 5, p)
    else
      var (more, p') := ParseField(p, fld, toks[0]);
      if more then ParseFields(p', fld + 1, toks[1..]) else (false, p')
  }

  function FenTokens(fen: string): (ts: seq<string>)
    ensures forall i :: 0 <= i < |ts| ==> ts[i] != ""
  {
    Tokens(fen, SpaceOnly, |fen| + 1)
  }

  predicate FenFits(fen: string) {
    FenTokens(fen) != [] ==> FieldFits(0, FenTokens(fen)[0])
  }

  function ParseFen(p: Position, fen: string): (bool, Position) {
    ParseFields(p.(board := Cleared()), 0, FenTokens(fen))
  }

  // ----- the code

  method ClearBoard(g: Game)
    requires g.Valid()
    modifies g.board
    ensures g.Pos() == old(g.Pos()).(board := Cleared())
  {
    for y := 0 to 8
      invariant forall i :: 0 <= i < 8 * y ==> g.board[i] == EMPTY
    {
      for x := 0 to 8
        invariant forall i :: 0 <= i < 8 * y + x ==> g.board[i] == EMPTY
      {
        g.board[8 * y + x] := Cell(None, White, true, false);
      }
    }
    assert g.board[..] == Cleared();
  }

  lemma PlaceStep(b: Board, x: int, y: int, t: string)
    requires t != "" && y >= 0 && Fits(x, y, t)
    ensures t[0] == '/' ==> Place(b, x, y, t) == Place(b, 0, y - 1, t[1..]) && Fits(0, y - 1, t[1..])
    ensures t[0] != '/' && IsDigit(t[0]) ==>
              var x' := x + DigitValue(t[0]); Place(b, x, y, t) == Place(b, x', y, t[1..]) && Fits(x', y, t[1..])
    ensures t[0] != '/' && !IsDigit(t[0]) && KindOf(t[0]).None? ==> Place(b, x, y, t) == Rejected(b)
    ensures t[0] != '/' && !IsDigit(t[0]) && KindOf(t[0]).Some? ==>
              && InBoard(Sq(x, y)) && Fits(x + 1, y, t[1..])
              && Place(b, x, y, t)
                 == Place(Put(b, Sq(x, y), Cell(KindOf(t[0]), TeamOf(t[0]), false, false)), x + 1, y, t[1..])
  {
  }

  lemma {:induction false} PlaceEnds(b: Board, x: int, y: int, t: string)
    requires t == "" || y < 0
    ensures Place(b, x, y, t) == Placed(b, x, y)
  {
  }

  /** Case 0 of `fen_parse`. */
  method ParsePlacement(g: Game, tok: string) returns (ok: bool)
    requires g.Valid() && Fits(0, 7, tok)
    modifies g.board
    ensures ok <==> Place(old(g.board[..]), 0, 7, tok).Placed?
    ensures g.Pos() == old(g.Pos()).(board := Place(old(g.board[..]), 0, 7, tok).board)
  {
    hide Place, Fits, KindOf, TeamOf;
    var x, y, p := 0, 7, 0;
    assert tok[0..] == tok;
    while p < |tok| && y >= 0
      invariant 0 <= p <= |tok| && x >= 0 && y <= 7 && Fits(x, y, tok[p..])
      invariant Place(g.board[..], x, y, tok[p..]) == Place(old(g.board[..]), 0, 7, tok)
      decreases |tok| - p
    {
      var c := tok[p];
      PlaceStep(g.board[..], x, y, tok[p..]);
      if c == '/' {
        y, x := y - 1, 0;
      } else if IsDigit(c) {
        x := x + DigitValue(c);
      } else {
        var kind := KindOf(c);
        if kind.None? { return false; }
        g.board[Index(Sq(x, y))] := Cell(kind, TeamOf(c), false, false);
        x := x + 1;
      }
      assert tok[p..][1..] == tok[p + 1..];
      p := p + 1;
    }
    PlaceEnds(g.board[..], x, y, tok[p..]);
    return true;
  }

  method FenParse(g: Game, fen: string) returns (ok: bool)
    requires g.Valid() && FenFits(fen)
    modifies g, g.board
    ensures (ok, g.Pos()) == ParseFen(old(g.Pos()), fen)
  {
    ClearBoard(g);
    var toks := FenTokens(fen);
    var fld := 0;
    while fld < |toks| && fld < 6
      invariant 0 <= fld <= |toks| && fld <= 6
      invariant ParseFields(g.Pos(), fld, toks[fld..]) == ParseFen(old(g.Pos()), fen)
      decreases |toks| - fld
    {
      ghost var before := g.Pos();
      ok := ParseOneField(g, fld, toks[fld]);
      if !ok { return false; }
      assert toks[fld..][1..] == toks[fld + 1..];
      fld := fld + 1;
    }
    return fld >= 5;
  }

  /** The switch of `fen_parse`. */
  method ParseOneField(g: Game, fld: int, tok: string) returns (ok: bool)
    requires g.Valid() && tok != "" && FieldFits(fld, tok)
    modifies g, g.board
    ensures (ok, g.Pos()) == ParseField(old(g.Pos()), fld, tok)
  {
    ok := true;
    if fld == 0 {
      ok := ParsePlacement(g, tok);
    } else if fld == 1 {
      g.side := if tok[0] == 'b' then Black else White;
    } else if fld == 2 {
      g.whiteKingside, g.whiteQueenside := 'K' in tok, 'Q' in tok;
      g.blackKingside, g.blackQueenside := 'k' in tok, 'q' in tok;
    } else if fld == 3 {
      if tok[0] == '-' {
        g.epX, g.epY := -1, -1;
      } else if IsAlpha(tok[0]) && |tok| > 1 && IsDigit(tok[1]) {
        var file, rank := (Lower(tok[0]) as int) - ('a' as int), (tok[1] as int) - ('1' as int);
        if !InBoard(Sq(file, rank)) { return false; }
        g.epX, g.epY := file, rank;
      } else {
        return false;
      }
    } else if fld == 4 {
      g.clock := Atoi(tok);
    }
  }
}
