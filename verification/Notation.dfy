/** Coordinates such as "e4": the helpers of server/handlers/move.c, and the text of a move. */
module Notation {
  import opened Pieces
  import opened ChessBoard

  /** `parse_chess_coordinate`. */
  function ParseCoordinate(coord: string): Option<Sq> {
    if |coord| != 2 then None
    else
      var file, rank := coord[0], coord[1];
      if file < 'a' || file > 'h' || rank < '1' || rank > '8' then None
      else Some(Sq((file as int) - ('a' as int), (rank as int) - ('1' as int)))
  }

  /** `format_chess_coordinate`. */
  function FormatCoordinate(s: Sq): string
    requires InBoard(s)
  {
    ['a' + s.x as char, '1' + s.y as char]
  }

  /** Parsing accepts exactly the formatted squares, and the two are inverse. */
  lemma CoordinatesAreInverse(coord: string, s: Sq)
    ensures ParseCoordinate(coord) == Some(s) <==> InBoard(s) && coord == FormatCoordinate(s)
  {
    if InBoard(s) {
      assert |FormatCoordinate(s)| == 2;
    }
  }

  ghost predicate NamesSquare(text: string) {
    exists s :: InBoard(s) && text == FormatCoordinate(s)
  }

  lemma ParsedIsNamed(text: string)
    ensures ParseCoordinate(text).Some? <==> NamesSquare(text)
    ensures forall s :: InBoard(s) && text == FormatCoordinate(s) ==> ParseCoordinate(text) == Some(s)
  {
    if ParseCoordinate(text).Some? { CoordinatesAreInverse(text, ParseCoordinate(text).value); }
    forall s | InBoard(s) && text == FormatCoordinate(s) ensures ParseCoordinate(text) == Some(s) {
      CoordinatesAreInverse(text, s);
    }
  }

  predicate OnBoard(m: Move) {
    InBoard(m.from) && InBoard(m.to)
  }

  predicate NamesMove(from: string, to: string, m: Move) {
    OnBoard(m) && from == FormatCoordinate(m.from) && to == FormatCoordinate(m.to)
  }

  /** The text under which a move is broadcast, recorded and saved. */
  function MoveText(m: Move): string
    requires OnBoard(m)
  {
    FormatCoordinate(m.from) + FormatCoordinate(m.to)
  }

  lemma MoveTextIsInjective(m: Move, n: Move)
    requires OnBoard(m) && OnBoard(n) && MoveText(m) == MoveText(n)
    ensures m == n
  {
    var s, t := MoveText(m), MoveText(n);
    assert s[0] == t[0] && s[1] == t[1] && s[2] == t[2] && s[3] == t[3];
  }
}
