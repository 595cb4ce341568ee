/** common/rule.c: `game_t` as an object over a 64-square array, updated in place. */
module RuleEngine {
  import opened Pieces
  import opened ChessBoard
  import opened Rules
  import opened Rays

  lemma NoCastling(b: Board, s: Sq, d: Sq)
    requires InBoard(s) && InBoard(d) && !JumpsLikeCastling(b, s, d)
    ensures MoveRook(b, s, d) == b
  {
  }

  class Game {
    const board: array<Cell>
    var side: Team
    var clock: int
    var whiteKingside: bool
    var whiteQueenside: bool
    var blackKingside: bool
    var blackQueenside: bool
    var epX: int
    var epY: int

    ghost predicate Valid() {
      board.Length == 64
    }

    ghost function Pos(): Position
      requires Valid()
      reads this, board
    {
      Position(board[..], side, clock, whiteKingside, whiteQueenside, blackKingside, blackQueenside, epX, epY)
    }

    /** Memory cleared by `memset`, before a position is set up. */
    constructor Zeroed()
      ensures Valid() && fresh(board)
    {
      board := new Cell[64](_ => Cell(None, White, false, false));
      side, clock := White, 0;
      whiteKingside, whiteQueenside, blackKingside, blackQueenside := false, false, false, false;
      epX, epY := 0, 0;
    }

    /** The structure assignment `game_t tmp = *G`. */
    constructor CopyOf(g: Game)
      requires g.Valid()
      ensures Valid() && fresh(board) && Pos() == g.Pos()
    {
      board := new Cell[64](i requires 0 <= i < 64 && g.Valid() reads g.board => g.board[i]);
      side, clock := g.side, g.clock;
      whiteKingside, whiteQueenside := g.whiteKingside, g.whiteQueenside;
      blackKingside, blackQueenside := g.blackKingside, g.blackQueenside;
      epX, epY := g.epX, g.epY;
      new;
      assert board[..] == g.board[..];
    }

    /** A `game_t` holding a given value, and the value it holds. */
    constructor Of(p: Position)
      ensures Valid() && fresh(board) && Pos() == p
    {
      board := new Cell[64](i requires 0 <= i < 64 => p.board[i]);
      side, clock := p.side, p.clock;
      whiteKingside, whiteQueenside := p.whiteKingside, p.whiteQueenside;
      blackKingside, blackQueenside := p.blackKingside, p.blackQueenside;
      epX, epY := p.epX, p.epY;
      new;
      assert board[..] == p.board;
    }

    method Freeze() returns (p: Position)
      requires Valid()
      ensures p == Pos()
    {
      p := Position(board[..], side, clock, whiteKingside, whiteQueenside, blackKingside, blackQueenside, epX, epY);
    }

    // ----- is_square_attacked

    /** The ray loop of the slider case. */
    method RayHits(i: int, j: int, o: Offset, x: int, y: int) returns (hit: bool)
      requires Valid() && InBoard(Sq(i, j)) && InBoard(Sq(x, y)) && IsUnit(o)
      ensures hit <==> RayReaches(board[..], Sq(i, j), o, Sq(x, y))
    {
      ghost var b, s, t := board[..], Sq(i, j), Sq(x, y);
      var nx, ny := i + o.x, j + o.y;
      ghost var n := 1;
      while InBoard(Sq(nx, ny))
        invariant 1 <= n <= 8 && Sq(nx, ny) == Along(s, o.x, o.y, n)
        invariant forall m :: 1 <= m < n ==> At(b, Along(s, o.x, o.y, m)).dead && Along(s, o.x, o.y, m) != t
        decreases 8 - n
      {
        if nx == x && ny == y {
          assert OnRay(b, s, o, t, n);
          return true;
        }
        if !board[Index(Sq(nx, ny))].dead {
          assert !At(b, Along(s, o.x, o.y, n)).dead;
          return false;
        }
        nx, ny := nx + o.x, ny + o.y;
        n := n + 1;
      }
      forall m | m >= n ensures Along(s, o.x, o.y, m) != t {
        RayStaysOff(s, o, n, m);
      }
      return false;
    }

    /** The slider case: every ray of the piece's table. */
    method RaysHit(k: Kind, i: int, j: int, x: int, y: int) returns (hit: bool)
      requires Valid() && InBoard(Sq(i, j)) && InBoard(Sq(x, y)) && IsSlider(k)
      ensures hit <==> Geometry(k, x - i, y - j) && ClearLine(board[..], Sq(i, j), Sq(x, y))
    {
      ghost var b, s, t := board[..], Sq(i, j), Sq(x, y);
      RaysAreLines(b, s, t, k);
      var offsets := Offsets(k);
      for n := 0 to |offsets|
        invariant forall m :: 0 <= m < n ==> !RayReaches(b, s, offsets[m], t)
      {
        SliderOffsetsAreUnits(k, offsets[n]);
        var r := RayHits(i, j, offsets[n], x, y);
        if r { return true; }
      }
      return false;
    }

    /** The knight and king case of both `is_square_attacked` and `is_move_legal`. */
    method TableLists(k: Kind, rx: int, ry: int) returns (listed: bool)
      requires IsLeaper(k)
      ensures listed <==> Geometry(k, rx, ry)
    {
      LeaperTable(k, rx, ry);
      var offsets := Offsets(k);
      for n := 0 to |offsets|
        invariant forall m :: 0 <= m < n ==> offsets[m] != Offset(rx, ry)
      {
        if offsets[n].x == rx && offsets[n].y == ry { return true; }
      }
      return false;
    }

    /** The body of the scan of `is_square_attacked` for the square (i, j). */
    method SquareAttacks(i: int, j: int, x: int, y: int, team: Team) returns (hit: bool)
      requires Valid() && InBoard(Sq(i, j)) && InBoard(Sq(x, y))
      ensures hit <==> AttackedFrom(board[..], Sq(i, j), Sq(x, y), team)
    {
      var ps := board[Index(Sq(i, j))];
      assert ps == At(board[..], Sq(i, j));
      if ps.dead || ps.piece.None? || ps.team != team { return false; }
      match ps.piece.value {
        case Pawn =>
          var dir := if team.White? then 1 else -1;
          hit := j + dir == y && (i - 1 == x || i + 1 == x);
        case Knight => hit := TableLists(Knight, x - i, y - j);
        case King => hit := TableLists(King, x - i, y - j);
        case Bishop => hit := RaysHit(Bishop, i, j, x, y);
        case Rook => hit := RaysHit(Rook, i, j, x, y);
        case Queen => hit := RaysHit(Queen, i, j, x, y);
      }
    }

    method IsSquareAttacked(x: int, y: int, team: Team) returns (r: bool)
      requires Valid() && InBoard(Sq(x, y))
      ensures r <==> Attacked(board[..], Sq(x, y), team)
    {
      ghost var b, t := board[..], Sq(x, y);
      for i := 0 to 8
        invariant forall s :: AttackedFrom(b, s, t, team) ==> s.x >= i
      {
        for j := 0 to 8
          invariant forall s :: AttackedFrom(b, s, t, team) ==> s.x > i || (s.x == i && s.y >= j)
        {
          var hit := SquareAttacks(i, j, x, y, team);
          if hit { return true; }
        }
      }
      return false;
    }

    // ----- is_in_check

    method IsInCheck(team: Team) returns (r: bool)
      requires Valid()
      ensures r <==> InCheck(board[..], team)
    {
      ghost var b := board[..];
      var kingX, kingY := -1, -1;
      var x := 0;
      while x < 8 && kingX == -1
        invariant 0 <= x <= 8
        invariant if kingX == -1 then forall q :: IsKing(b, q, team) ==> q.x >= x
                  else FirstKing(b, Sq(kingX, kingY), team)
        decreases 8 - x
      {
        var y := 0;
        while y < 8 && kingX == -1
          invariant 0 <= y <= 8
          invariant if kingX == -1 then forall q :: IsKing(b, q, team) ==> q.x > x || (q.x == x && q.y >= y)
                    else FirstKing(b, Sq(kingX, kingY), team)
          decreases 8 - y
        {
          var ps := board[Index(Sq(x, y))];
          assert ps == At(b, Sq(x, y));
          if !ps.dead && ps.piece.Some? && ps.team == team && ps.piece.value.King? {
            assert IsKing(b, Sq(x, y), team);
            kingX, kingY := x, y;
          }
          y := y + 1;
        }
        x := x + 1;
      }
      if kingX == -1 { return false; }
      r := IsSquareAttacked(kingX, kingY, team.Opponent());
    }

    // ----- apply_move

    method KillAt(s: Sq)
      requires Valid() && InBoard(s)
      modifies board
      ensures Pos() == old(Pos()).(board := Kill(old(board[..]), s))
    {
      board[Index(s)] := board[Index(s)].(dead := true);
      board[Index(s)] := board[Index(s)].(piece := None);
    }

    /** The rook's half of castling. */
    method MoveCastlingRook(sx: int, sy: int, dx: int, dy: int)
      requires Valid() && InBoard(Sq(sx, sy)) && InBoard(Sq(dx, dy))
      requires JumpsLikeCastling(board[..], Sq(sx, sy), Sq(dx, dy))
      modifies board
      ensures Pos() == old(Pos()).(board := MoveRook(old(board[..]), Sq(sx, sy), Sq(dx, dy)))
    {
      var ks := dx > sx;
      var rookFromX := if ks then 7 else 0;
      var rookToX := if ks then dx - 1 else dx + 1;
      var rook := board[Index(Sq(rookFromX, dy))];
      board[Index(Sq(rookToX, dy))] := rook;
      KillAt(Sq(rookFromX, dy));
    }

    /** The castling rights lost by the arrival of `c` from (sx, sy). */
    method UpdateRights(c: Cell, sx: int, sy: int)
      requires Valid()
      modifies this
      ensures Pos() == DropRights(old(Pos()), c, Sq(sx, sy))
    {
      if c.piece == Some(King) {
        if c.team.White? {
          whiteKingside, whiteQueenside := false, false;
        } else {
          blackKingside, blackQueenside := false, false;
        }
      }
      if c.piece == Some(Rook) && !c.moved {
        if c.team.White? {
          if sx == 0 && sy == 0 { whiteQueenside := false; }
          if sx == 7 && sy == 0 { whiteKingside := false; }
        } else {
          if sx == 0 && sy == 7 { blackQueenside := false; }
          if sx == 7 && sy == 7 { blackKingside := false; }
        }
      }
    }

    /** The clock of `apply_move`. */
    method UpdateClock(s: Sq, d: Sq)
      requires Valid() && InBoard(s) && InBoard(d)
      modifies this
      ensures Pos() == old(Pos()).(clock := ClockAfter(old(Pos()), s, d))
    {
      if board[Index(s)].piece == Some(Pawn) || !board[Index(d)].dead {
        clock := 0;
      } else {
        clock := clock + 1;
      }
    }

    /** The relocation proper: `*dst = *src`, then the source is emptied. */
    method MovePiece(s: Sq, d: Sq)
      requires Valid() && InBoard(s) && InBoard(d)
      modifies board
      ensures Pos() == old(Pos()).(board := Relocate(old(board[..]), s, d))
    {
      board[Index(d)] := board[Index(s)];
      KillAt(s);
    }

    /** The board half of `apply_move` up to the rook's move, and the clock. */
    method Relocation(sx: int, sy: int, dx: int, dy: int)
      requires Valid() && InBoard(Sq(sx, sy)) && InBoard(Sq(dx, dy))
      modifies this, board
      ensures Pos() == Relocated(old(Pos()), Sq(sx, sy), Sq(dx, dy))
    {
      hide Relocate, MoveRook, Kill, Put, ClockAfter;
      UpdateClock(Sq(sx, sy), Sq(dx, dy));
      if board[Index(Sq(sx, sy))].piece == Some(Pawn) && dx == epX && dy == epY {
        KillAt(Sq(dx, sy));
      }
      MovePiece(Sq(sx, sy), Sq(dx, dy));
      if board[Index(Sq(dx, dy))].piece == Some(King) && Abs(dx - sx) == 2 {
        MoveCastlingRook(sx, sy, dx, dy);
      } else {
        NoCastling(board[..], Sq(sx, sy), Sq(dx, dy));
      }
    }

    /** En passant target, promotion, moved flag and side to move. */
    method Settle(sx: int, sy: int, dx: int, dy: int)
      requires Valid() && InBoard(Sq(sx, sy)) && InBoard(Sq(dx, dy))
      modifies this, board
      ensures Pos() == Settled(old(Pos()), Sq(sx, sy), Sq(dx, dy))
    {
      var dst := Index(Sq(dx, dy));
      if board[dst].piece == Some(Pawn) && Abs(dy - sy) == 2 {
        epX, epY := dx, (sy + dy) / 2;
      } else {
        epX, epY := -1, -1;
      }
      if board[dst].piece == Some(Pawn) && (dy == 7 || dy == 0) {
        board[dst] := board[dst].(piece := Some(Queen));
      }
      board[dst] := board[dst].(moved := true);
      side := if side.White? then Black else White;
    }

    method ApplyMove(sx: int, sy: int, dx: int, dy: int)
      requires Valid() && InBoard(Sq(sx, sy)) && InBoard(Sq(dx, dy))
      modifies this, board
      ensures Pos() == Rules.ApplyMove(old(Pos()), Sq(sx, sy), Sq(dx, dy))
    {
      if board[Index(Sq(sx, sy))].piece.None? { return; }
      Relocation(sx, sy, dx, dy);
      UpdateRights(board[Index(Sq(dx, dy))], sx, sy);
      Settle(sx, sy, dx, dy);
    }

    // ----- is_move_legal

    /** The diagonal rule of the pawn, en passant included. */
    method PawnTakesOk(sx: int, sy: int, dx: int, dy: int) returns (ok: bool)
      requires Valid() && InBoard(Sq(sx, sy)) && InBoard(Sq(dx, dy))
      ensures ok <==> PawnTakes(Pos(), Sq(sx, sy), Sq(dx, dy))
    {
      var src, dst := board[Index(Sq(sx, sy))], board[Index(Sq(dx, dy))];
      var dir := if src.team.White? then 1 else -1;
      ok := Abs(dx - sx) == 1 && dy - sy == dir &&
            ((!dst.dead && dst.team != src.team) || (dst.dead && epX == dx && epY == dy));
    }

    /** The two advances of the pawn. */
    method PawnAdvanceOk(sx: int, sy: int, dx: int, dy: int) returns (ok: bool)
      requires Valid() && InBoard(Sq(sx, sy)) && InBoard(Sq(dx, dy))
      ensures ok <==> PawnStep(board[..], Sq(sx, sy), Sq(dx, dy)) || PawnDoubleStep(board[..], Sq(sx, sy), Sq(dx, dy))
    {
      var src, dst := board[Index(Sq(sx, sy))], board[Index(Sq(dx, dy))];
      assert src == At(board[..], Sq(sx, sy)) && dst == At(board[..], Sq(dx, dy));
      var rx, ry := dx - sx, dy - sy;
      var dir := if src.team.White? then 1 else -1;
      ok := false;
      if rx == 0 && ry == dir && dst.dead { ok := true; }
      if rx == 0 && ry == 2 * dir && !src.moved && dst.dead && board[Index(Sq(sx, sy + dir))].dead { ok := true; }
    }

    method PawnOk(sx: int, sy: int, dx: int, dy: int) returns (ok: bool)
      requires Valid() && InBoard(Sq(sx, sy)) && InBoard(Sq(dx, dy))
      requires At(board[..], Sq(sx, sy)).piece == Some(Pawn)
      ensures ok <==> PieceMay(Pos(), Sq(sx, sy), Sq(dx, dy))
    {
      hide PawnStep, PawnDoubleStep, PawnTakes;
      ok := PawnAdvanceOk(sx, sy, dx, dy);
      var takes := PawnTakesOk(sx, sy, dx, dy);
      if takes { ok := true; }
    }

    /** The loop over the squares between, for one aligned offset. */
    method Blocked(sx: int, sy: int, o: Offset, dd: int) returns (blocked: bool)
      requires Valid() && InBoard(Sq(sx, sy)) && IsUnit(o) && InBoard(Along(Sq(sx, sy), o.x, o.y, dd)) && dd >= 1
      ensures blocked <==> exists m :: 1 <= m < dd && !At(board[..], Along(Sq(sx, sy), o.x, o.y, m)).dead
    {
      ghost var b, s := board[..], Sq(sx, sy);
      for n := 1 to dd
        invariant forall m :: 1 <= m < n ==> At(b, Along(s, o.x, o.y, m)).dead
      {
        UnitProduct(o.x, n);
        UnitProduct(o.y, n);
        var q := Sq(sx + o.x * n, sy + o.y * n);
        assert q == Along(s, o.x, o.y, n);
        if !board[Index(q)].dead {
          assert !At(b, Along(s, o.x, o.y, n)).dead;
          return true;
        }
      }
      return false;
    }

    /** The slider case: alignment by division, then the squares between. */
    method SliderOk(k: Kind, sx: int, sy: int, dx: int, dy: int) returns (ok: bool)
      requires Valid() && InBoard(Sq(sx, sy)) && InBoard(Sq(dx, dy)) && IsSlider(k)
      ensures ok <==> Geometry(k, dx - sx, dy - sy) && ClearLine(board[..], Sq(sx, sy), Sq(dx, dy))
    {
      ghost var b, s, d := board[..], Sq(sx, sy), Sq(dx, dy);
      RaysAreLines(b, s, d, k);
      var rx, ry := dx - sx, dy - sy;
      var offsets := Offsets(k);
      for n := 0 to |offsets|
        invariant forall m :: 0 <= m < n ==> !RayReaches(b, s, offsets[m], d)
      {
        var o := offsets[n];
        SliderOffsetsAreUnits(k, o);
        DivisionAgreesWithWalk(b, o, s, d);
        if Aligned(o, rx, ry) {
          AlignedMeansOnRay(o, s, d);
          var blocked := Blocked(sx, sy, o, Quotient(o, rx, ry));
          if !blocked { return true; }
        }
      }
      return false;
    }

    /** The switch of `is_move_legal`. */
    method PieceOk(sx: int, sy: int, dx: int, dy: int) returns (ok: bool)
      requires Valid() && InBoard(Sq(sx, sy)) && InBoard(Sq(dx, dy))
      requires At(board[..], Sq(sx, sy)).piece.Some?
      ensures ok <==> PieceMay(Pos(), Sq(sx, sy), Sq(dx, dy))
    {
      match board[Index(Sq(sx, sy))].piece.value {
        case Pawn => ok := PawnOk(sx, sy, dx, dy);
        case Knight => ok := TableLists(Knight, dx - sx, dy - sy);
        case King =>
          ok := TableLists(King, dx - sx, dy - sy);
          if ok && Abs(dx - sx) == 2 && dy == sy {
            // the castling test: no king offset covers two files
            assert false;
          }
        case Bishop => ok := SliderOk(Bishop, sx, sy, dx, dy);
        case Rook => ok := SliderOk(Rook, sx, sy, dx, dy);
        case Queen => ok := SliderOk(Queen, sx, sy, dx, dy);
      }
    }

    method IsMoveLegal(sx: int, sy: int, dx: int, dy: int) returns (r: bool)
      requires Valid()
      ensures r <==> Legal(Pos(), Sq(sx, sy), Sq(dx, dy))
    {
      if !InBoard(Sq(sx, sy)) || !InBoard(Sq(dx, dy)) { return false; }
      var src, dst := board[Index(Sq(sx, sy))], board[Index(Sq(dx, dy))];
      if src.dead || src.piece.None? || src.team != side { return false; }
      if !dst.dead && dst.piece.Some? && dst.team == side { return false; }
      var ok := PieceOk(sx, sy, dx, dy);
      if !ok { return false; }
      var tmp := new Game.CopyOf(this);
      tmp.ApplyMove(sx, sy, dx, dy);
      var check := tmp.IsInCheck(src.team);
      return !check;
    }

    // ----- is_checkmate, is_stalemate, is_fifty_move_rule

    /** The two inner loops of the mate search. */
    method AnyMoveFrom(sx: int, sy: int) returns (found: bool)
      requires Valid()
      ensures found <==> exists d :: Legal(Pos(), Sq(sx, sy), d)
    {
      ghost var s := Sq(sx, sy);
      for dx := 0 to 8
        invariant forall d :: Legal(Pos(), s, d) ==> d.x >= dx
      {
        for dy := 0 to 8
          invariant forall d :: Legal(Pos(), s, d) ==> d.x > dx || (d.x == dx && d.y >= dy)
        {
          var legal := IsMoveLegal(sx, sy, dx, dy);
          if legal { return true; }
        }
      }
      return false;
    }

    /** The four-deep search, with its skip of squares that `team` does not own. */
    method AnyMove() returns (found: bool)
      requires Valid()
      ensures found <==> HasLegalMove(Pos())
    {
      for sx := 0 to 8
        invariant forall s, d :: Legal(Pos(), s, d) ==> s.x >= sx
      {
        for sy := 0 to 8
          invariant forall s, d :: Legal(Pos(), s, d) ==> s.x > sx || (s.x == sx && s.y >= sy)
        {
          var src := board[Index(Sq(sx, sy))];
          if !(src.dead || src.piece.None? || src.team != side) {
            var found := AnyMoveFrom(sx, sy);
            if found { return true; }
          }
        }
      }
      return false;
    }

    method IsCheckmate() returns (r: bool)
      requires Valid()
      ensures r <==> Checkmate(Pos())
    {
      var check := IsInCheck(side);
      if !check { return false; }
      var found := AnyMove();
      return !found;
    }

    method IsStalemate() returns (r: bool)
      requires Valid()
      ensures r <==> Stalemate(Pos())
    {
      var check := IsInCheck(side);
      if check { return false; }
      var found := AnyMove();
      return !found;
    }

    method IsFiftyMoveRule() returns (r: bool)
      requires Valid()
      ensures r <==> FiftyMoves(Pos())
    {
      r := clock >= 100;
    }
  }
}
