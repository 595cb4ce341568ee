/** Which strings `fen_parse` accepts. */
module FenAcceptance {
  import opened ChessBoard
  import opened Strings
  import opened Fen

  predicate Readable(c: char) {
    c == '/' || IsDigit(c) || c in "kqrbnpKQRBNP"
  }

  /** No character that the placement loop reads is unreadable; it reads up to the rank below `y`. */
  predicate AllReadable(t: string, y: int)
    decreases |t|
  {
    t == "" || y < 0 || (Readable(t[0]) && AllReadable(t[1..], if t[0] == '/' then y - 1 else y))
  }

  lemma {:induction false} PlacedIffReadable(b: Board, x: int, y: int, t: string)
    ensures Place(b, x, y, t).Placed? <==> AllReadable(t, y)
    decreases |t|
  {
    if t != "" && y >= 0 {
      LettersAreReadable(t[0]);
      hide KindOf, Readable;
      if t[0] == '/' {
        PlacedIffReadable(b, 0, y - 1, t[1..]);
      } else if IsDigit(t[0]) {
        PlacedIffReadable(b, x + DigitValue(t[0]), y, t[1..]);
      } else {
        PlacedIffReadable(Set(b, Sq(x, y), Cell(KindOf(t[0]), TeamOf(t[0]), false, false)), x + 1, y, t[1..]);
      }
    }
  }

  lemma LettersAreReadable(c: char)
    ensures Readable(c) <==> c == '/' || IsDigit(c) || KindOf(c).Some?
  {
  }

  /** A hyphen, or a square with its file in either case. */
  predicate TargetReadable(tok: string)
    requires tok != ""
  {
    tok[0] == '-' || (|tok| > 1 && ('a' <= tok[0] <= 'h' || 'A' <= tok[0] <= 'H') && '1' <= tok[1] <= '8')
  }

  lemma {:induction false} TargetFieldIsRead(p: Position, tok: string)
    requires tok != ""
    ensures ParseField(p, 3, tok).0 <==> TargetReadable(tok)
  {
  }

  lemma {:induction false} OtherFieldsAreRead(p: Position, fld: nat, tok: string)
    requires tok != "" && fld != 0 && fld != 3
    ensures ParseField(p, fld, tok).0
  {
  }

  lemma {:induction false} PlacementIsRead(p: Position, tok: string)
    requires tok != ""
    ensures ParseField(p, 0, tok).0 <==> AllReadable(tok, 7)
  {
    hide Place, AllReadable;
    PlacedIffReadable(p.board, 0, 7, tok);
  }

  lemma {:induction false} FieldStep(p: Position, fld: nat, toks: seq<string>)
    requires fld < 6 && toks != [] && forall i :: 0 <= i < |toks| ==> toks[i] != ""
    ensures var (more, q) := ParseField(p, fld, toks[0]);
            ParseFields(p, fld, toks).0 <==> more && ParseFields(q, fld + 1, toks[1..]).0
  {
    hide ParseField;
  }

  lemma {:induction false} LastFields(p: Position, toks: seq<string>)
    requires forall i :: 0 <= i < |toks| ==> toks[i] != ""
    ensures ParseFields(p, 4, toks).0 <==> toks != []
  {
    hide ParseField;
    if toks != [] {
      FieldStep(p, 4, toks);
      OtherFieldsAreRead(p, 4, toks[0]);
      var q := ParseField(p, 4, toks[0]).1;
      if toks[1..] != [] {
        FieldStep(q, 5, toks[1..]);
        OtherFieldsAreRead(q, 5, toks[1..][0]);
      }
    }
  }

  /** `fen_parse` succeeds exactly if there are five fields, the first one holds no unreadable character
      and the fourth one names a target or none. */
  lemma {:induction false} AcceptedIff(p: Position, fen: string)
    ensures var toks := FenTokens(fen);
            ParseFen(p, fen).0 <==> |toks| >= 5 && AllReadable(toks[0], 7) && TargetReadable(toks[3])
  {
    hide ParseField, AllReadable, TargetReadable, FenTokens;
    var toks := FenTokens(fen);
    var p0 := p.(board := Cleared());
    if toks == [] { return; }
    PlacementIsRead(p0, toks[0]);
    FieldStep(p0, 0, toks);
    var p1 := ParseField(p0, 0, toks[0]).1;
    if |toks| == 1 { return; }
    FieldStep(p1, 1, toks[1..]);
    OtherFieldsAreRead(p1, 1, toks[1]);
    assert toks[1..][1..] == toks[2..];
    var p2 := ParseField(p1, 1, toks[1]).1;
    if |toks| == 2 { return; }
    FieldStep(p2, 2, toks[2..]);
    OtherFieldsAreRead(p2, 2, toks[2]);
    assert toks[2..][1..] == toks[3..];
    var p3 := ParseField(p2, 2, toks[2]).1;
    if |toks| == 3 { return; }
    FieldStep(p3, 3, toks[3..]);
    TargetFieldIsRead(p3, toks[3]);
    assert toks[3..][1..] == toks[4..];
    LastFields(ParseField(p3, 3, toks[3]).1, toks[4..]);
  }

  /** The field `fld` of the position after `toks` have been read is decided by its own token. */
  lemma {:induction false} LaterFieldsKeep(p: Position, fld: nat, toks: seq<string>)
    requires 1 <= fld && forall i :: 0 <= i < |toks| ==> toks[i] != ""
    ensures var q := ParseFields(p, fld, toks).1;
            && q.board == p.board && (fld >= 2 ==> q.side == p.side)
            && (fld >= 3 ==> q.whiteKingside == p.whiteKingside && q.whiteQueenside == p.whiteQueenside)
            && (fld >= 3 ==> q.blackKingside == p.blackKingside && q.blackQueenside == p.blackQueenside)
            && (fld >= 4 ==> q.epX == p.epX && q.epY == p.epY) && (fld >= 5 ==> q.clock == p.clock)
    decreases |toks|
  {
    if toks != [] && fld < 6 {
      var (more, p') := ParseField(p, fld, toks[0]);
      if more { LaterFieldsKeep(p', fld + 1, toks[1..]); }
    }
  }

  lemma {:induction false} FieldOf(p: Position, fld: nat, toks: seq<string>)
    requires fld < 6 && toks != [] && forall i :: 0 <= i < |toks| ==> toks[i] != ""
    requires ParseFields(p, fld, toks).0
    ensures ParseField(p, fld, toks[0]).0
    ensures ParseFields(p, fld, toks) == ParseFields(ParseField(p, fld, toks[0]).1, fld + 1, toks[1..])
  {
    hide ParseField;
  }

  /** What an accepted string says: the second field is the side to move, the third the rights by their
      letters in any order, the fourth the target, the fifth the clock. */
  lemma {:induction false} FieldsAreRead(p: Position, fen: string)
    requires ParseFen(p, fen).0
    ensures var toks, q := FenTokens(fen), ParseFen(p, fen).1;
            && |toks| >= 5
            && (q.side.Black? <==> toks[1][0] == 'b')
            && (q.whiteKingside <==> 'K' in toks[2]) && (q.whiteQueenside <==> 'Q' in toks[2])
            && (q.blackKingside <==> 'k' in toks[2]) && (q.blackQueenside <==> 'q' in toks[2])
            && (toks[3][0] == '-' ==> q.epX == q.epY == -1)
            && (toks[3][0] != '-' ==>
                  && |toks[3]| > 1 && InBoard(Sq(q.epX, q.epY))
                  && (toks[3][0] == 'a' + q.epX as char || toks[3][0] == 'A' + q.epX as char)
                  && toks[3][1] == '1' + q.epY as char)
            && q.clock == Atoi(toks[4])
  {
    AcceptedIff(p, fen);
    var toks := FenTokens(fen);
    var p0 := p.(board := Cleared());
    hide FenTokens, AllReadable, Atoi, ParseFields;
    FirstField(p0, toks);
    var p1 := ParseField(p0, 0, toks[0]).1;
    hide Place;
    FourFields(p1, toks[1..], ParseFen(p, fen).1);
  }

  lemma {:induction false} FirstField(p: Position, toks: seq<string>)
    requires |toks| >= 5 && (forall i :: 0 <= i < |toks| ==> toks[i] != "") && ParseFields(p, 0, toks).0
    ensures ParseFields(p, 0, toks) == ParseFields(ParseField(p, 0, toks[0]).1, 1, toks[1..])
  {
    hide ParseField, ParseFields;
    FieldOf(p, 0, toks);
  }

  lemma {:induction false} FourFields(p1: Position, toks: seq<string>, q: Position)
    requires |toks| >= 4 && (forall i :: 0 <= i < |toks| ==> toks[i] != "") && TargetReadable(toks[2])
    requires ParseFields(p1, 1, toks) == (true, q)
    ensures (q.side.Black? <==> toks[0][0] == 'b')
    ensures (q.whiteKingside <==> 'K' in toks[1]) && (q.whiteQueenside <==> 'Q' in toks[1])
    ensures (q.blackKingside <==> 'k' in toks[1]) && (q.blackQueenside <==> 'q' in toks[1])
    ensures toks[2][0] == '-' ==> q.epX == q.epY == -1
    ensures toks[2][0] != '-' ==>
              && InBoard(Sq(q.epX, q.epY))
              && (toks[2][0] == 'a' + q.epX as char || toks[2][0] == 'A' + q.epX as char)
              && toks[2][1] == '1' + q.epY as char
    ensures q.clock == Atoi(toks[3])
  {
    hide ParseFields, ParseField, Atoi;
    FieldOf(p1, 1, toks);
    var p2 := ParseField(p1, 1, toks[0]).1;
    FieldOf(p2, 2, toks[1..]);
    var p3 := ParseField(p2, 2, toks[1]).1;
    assert toks[1..][1..] == toks[2..] && toks[2..][1..] == toks[3..] && toks[3..][1..] == toks[4..];
    FieldOf(p3, 3, toks[2..]);
    var p4 := ParseField(p3, 3, toks[2]).1;
    FieldOf(p4, 4, toks[3..]);
    var p5 := ParseField(p4, 4, toks[3]).1;
    LaterFieldsKeep(p2, 2, toks[1..]);
    LaterFieldsKeep(p3, 3, toks[2..]);
    LaterFieldsKeep(p4, 4, toks[3..]);
    LaterFieldsKeep(p5, 5, toks[4..]);
    SideIsRead(p1, toks[0]);
    RightsFieldIsRead(p2, toks[1]);
    TargetValueIsRead(p3, toks[2]);
    ClockFieldIsRead(p4, toks[3]);
  }

  lemma {:induction false} SideIsRead(p: Position, tok: string)
    requires tok != ""
    ensures ParseField(p, 1, tok).1.side.Black? <==> tok[0] == 'b'
  {
  }

  lemma {:induction false} RightsFieldIsRead(p: Position, tok: string)
    requires tok != ""
    ensures var q := ParseField(p, 2, tok).1;
            && (q.whiteKingside <==> 'K' in tok) && (q.whiteQueenside <==> 'Q' in tok)
            && (q.blackKingside <==> 'k' in tok) && (q.blackQueenside <==> 'q' in tok)
  {
  }

  lemma {:induction false} TargetValueIsRead(p: Position, tok: string)
    requires tok != "" && TargetReadable(tok)
    ensures var q := ParseField(p, 3, tok).1;
            && (tok[0] == '-' ==> q.epX == q.epY == -1)
            && (tok[0] != '-' ==>
                  && InBoard(Sq(q.epX, q.epY))
                  && (tok[0] == 'a' + q.epX as char || tok[0] == 'A' + q.epX as char)
                  && tok[1] == '1' + q.epY as char)
  {
  }

  lemma {:induction false} ClockFieldIsRead(p: Position, tok: string)
    requires tok != ""
    ensures ParseField(p, 4, tok).1.clock == Atoi(tok)
  {
  }
}
