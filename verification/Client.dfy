/** The client's copy of a game: client/game_state.c and client/handlers/move.c. */
module Client {
  import opened Pieces
  import opened ChessBoard
  import opened Rules
  import opened Invariant
  import opened Games
  import opened RuleEngine
  import opened FenRoundTrip
  import opened Notation

  const MAX_PGN_MOVES: nat := 512
  const MAX_COORD_STR: nat := 6

  /** The part of a move broadcast that the client's game depends on; either coordinate may
      be missing. */
  datatype Broadcast = Broadcast(from: Option<string>, to: Option<string>, isCheck: bool, checkedTeam: Option<Team>)

  datatype Replica = Replica(game: Position, moves: seq<string>, whiteInCheck: bool, blackInCheck: bool)

  function Coordinate(text: string): Sq
    requires |text| == 2
  {
    Sq((text[0] as int) - ('a' as int), (text[1] as int) - ('1' as int))
  }

  /** `apply_move_from_server`: no check of the rules. */
  function ApplyFromServer(p: Position, from: string, to: string): (bool, Position) {
    if |from| != 2 || |to| != 2 then (false, p)
    else if !InBoard(Coordinate(from)) || !InBoard(Coordinate(to)) then (false, p)
    else (true, ApplyMove(p, Coordinate(from), Coordinate(to)))
  }

  /** `snprintf` into a buffer of `MAX_COORD_STR`. */
  function Clip(s: string): string {
    if |s| < MAX_COORD_STR then s else s[..MAX_COORD_STR - 1]
  }

  function Record(moves: seq<string>, text: string): seq<string> {
    if |moves| < MAX_PGN_MOVES && !(|moves| > 0 && moves[|moves| - 1] == text) then moves + [text] else moves
  }

  /** What `handle_move_broadcast` does to the game and its record. */
  function Handle(r: Replica, b: Broadcast): Replica {
    if b.from.None? || b.to.None? then r
    else
      var (applied, p) := ApplyFromServer(r.game, b.from.value, b.to.value);
      if !applied then r
      else
        Replica(p, Record(r.moves, Clip(b.from.value + b.to.value)),
                b.isCheck && (if b.checkedTeam.None? then r.whiteInCheck else b.checkedTeam == Some(White)),
                b.isCheck && (if b.checkedTeam.None? then r.blackInCheck else b.checkedTeam == Some(Black)))
  }

  // ----- broadcasts of any kind

  /** A broadcast without a move, or whose coordinates are not two squares, changes nothing. */
  lemma {:induction false} BadBroadcastIsIgnored(r: Replica, b: Broadcast)
    requires b.from.None? || b.to.None? || !NamesSquare(b.from.value) || !NamesSquare(b.to.value)
    ensures Handle(r, b) == r
  {
    if b.from.Some? && b.to.Some? {
      hide ApplyMove;
      if |b.from.value| == 2 { FormatOfCoordinate(b.from.value); }
      if |b.to.value| == 2 { FormatOfCoordinate(b.to.value); }
    }
  }

  lemma FormatOfCoordinate(text: string)
    requires |text| == 2
    ensures InBoard(Coordinate(text)) ==> text == FormatCoordinate(Coordinate(text))
  {
  }

  /** Any other move is made without a check of the rules, and recorded unless the record is full or ends
      with the same text; the check flags are set as announced, and stay if no side is named. */
  lemma {:induction false} BroadcastIsHandled(r: Replica, b: Broadcast, m: Move)
    requires b.from.Some? && b.to.Some? && NamesMove(b.from.value, b.to.value, m)
    ensures var r' := Handle(r, b);
            && r'.game == Step(r.game, m)
            && r'.moves == (if |r.moves| >= 512 || (r.moves != [] && r.moves[|r.moves| - 1] == MoveText(m))
                            then r.moves else r.moves + [MoveText(m)])
            && (!b.isCheck ==> !r'.whiteInCheck && !r'.blackInCheck)
            && (b.isCheck && b.checkedTeam == Some(White) ==> r'.whiteInCheck && !r'.blackInCheck)
            && (b.isCheck && b.checkedTeam == Some(Black) ==> !r'.whiteInCheck && r'.blackInCheck)
            && (b.isCheck && b.checkedTeam == None ==>
                  r'.whiteInCheck == r.whiteInCheck && r'.blackInCheck == r.blackInCheck)
  {
    hide ApplyMove;
    ApplyIsStep(r.game, m);
    assert Clip(b.from.value + b.to.value) == MoveText(m);
  }

  class GameState {
    const game: Game
    var pgnMoves: seq<string>
    var whiteInCheck: bool
    var blackInCheck: bool

    ghost predicate Valid() {
      game.Valid()
    }

    ghost function State(): Replica
      requires Valid()
      reads this, game, game.board
    {
      Replica(game.Pos(), pgnMoves, whiteInCheck, blackInCheck)
    }

    /** `init_game_state`. */
    constructor ()
      ensures Valid() && fresh(game) && fresh(game.board)
      ensures State() == Replica(Start(), [], false, false)
    {
      game := new Game.Zeroed();
      pgnMoves := [];
      whiteInCheck, blackInCheck := false, false;
      new;
      StartGame();
    }

    /** `init_game` and the record's reset when a match starts. */
    method StartGame()
      requires Valid()
      modifies this, game, game.board
      ensures game.Pos() == Start() && pgnMoves == []
      ensures whiteInCheck == old(whiteInCheck) && blackInCheck == old(blackInCheck)
    {
      InitStartpos(game);
      game.side := White;
      game.clock := 0;
      game.whiteKingside, game.whiteQueenside := true, true;
      game.blackKingside, game.blackQueenside := true, true;
      game.epX, game.epY := -1, -1;
      InitStartpos(game);
      game.side := White;
      pgnMoves := [];
    }

    method ApplyMoveFromServer(from: string, to: string) returns (applied: bool)
      requires Valid()
      modifies game, game.board
      ensures (applied, game.Pos()) == ApplyFromServer(old(game.Pos()), from, to)
      ensures !applied ==> game.Pos() == old(game.Pos())
    {
      if |from| != 2 || |to| != 2 { return false; }
      var fromX, fromY := (from[0] as int) - ('a' as int), (from[1] as int) - ('1' as int);
      var toX, toY := (to[0] as int) - ('a' as int), (to[1] as int) - ('1' as int);
      if fromX < 0 || fromX >= 8 || fromY < 0 || fromY >= 8 || toX < 0 || toX >= 8 || toY < 0 || toY >= 8 {
        return false;
      }
      game.ApplyMove(fromX, fromY, toX, toY);
      return true;
    }

    method HandleMoveBroadcast(b: Broadcast)
      requires Valid()
      modifies this, game, game.board
      ensures State() == Handle(old(State()), b)
    {
      hide ApplyFromServer, Clip;
      if b.from.None? || b.to.None? { return; }
      var applied := ApplyMoveFromServer(b.from.value, b.to.value);
      if !applied { return; }
      if |pgnMoves| < MAX_PGN_MOVES {
        var moveStr := Clip(b.from.value + b.to.value);
        var alreadyRecorded := false;
        if |pgnMoves| > 0 && pgnMoves[|pgnMoves| - 1] == moveStr {
          alreadyRecorded := true;
        }
        if !alreadyRecorded {
          pgnMoves := pgnMoves + [moveStr];
        }
      }
      assert b.checkedTeam.Some? ==> b.checkedTeam.value.White? || b.checkedTeam.value.Black?;
      if b.isCheck {
        if b.checkedTeam == Some(White) {
          whiteInCheck, blackInCheck := true, false;
        } else if b.checkedTeam == Some(Black) {
          whiteInCheck, blackInCheck := false, true;
        }
      } else {
        whiteInCheck, blackInCheck := false, false;
      }
    }
  }

  // ----- the server's broadcasts

  /** The broadcast of an accepted move, sent to both players. */
  ghost function Announce(p: Position, m: Move): Broadcast
    requires OnBoard(m)
  {
    var p' := Step(p, m);
    var check := InCheck(p'.board, p'.side);
    Broadcast(Some(FormatCoordinate(m.from)), Some(FormatCoordinate(m.to)),
              check, if check then Some(p'.side) else None)
  }

  function Texts(ms: seq<Move>): (ts: seq<string>)
    requires forall i :: 0 <= i < |ms| ==> OnBoard(ms[i])
    ensures |ts| == |ms| && forall i :: 0 <= i < |ms| ==> ts[i] == MoveText(ms[i])
  {
    if ms == [] then [] else Texts(ms[..|ms| - 1]) + [MoveText(ms[|ms| - 1])]
  }

  /** The first `max` entries, or all. */
  function Prefix<T>(s: seq<T>, max: nat): seq<T> {
    if |s| <= max then s else s[..max]
  }

  lemma {:induction false} LegalMovesAreOnBoard(p: Position, ms: seq<Move>)
    requires LegalRun(p, ms)
    ensures forall i :: 0 <= i < |ms| ==> OnBoard(ms[i])
    decreases |ms|
  {
    if ms != [] { LegalMovesAreOnBoard(Step(p, ms[0]), ms[1..]); }
  }

  lemma ApplyIsStep(p: Position, m: Move)
    requires OnBoard(m)
    ensures ApplyFromServer(p, FormatCoordinate(m.from), FormatCoordinate(m.to)) == (true, Step(p, m))
  {
    assert Coordinate(FormatCoordinate(m.from)) == m.from && Coordinate(FormatCoordinate(m.to)) == m.to;
  }

  /** After a legal move its source square is empty: no legal move leaves it, and making the
      same move again changes nothing. */
  lemma SourceIsEmpty(p: Position, m: Move)
    requires Inv(p) && LegalMove(p, m)
    ensures At(Step(p, m).board, m.from).piece == None
    ensures Step(Step(p, m), m) == Step(p, m)
    ensures forall n :: LegalMove(Step(p, m), n) ==> n.from != m.from
  {
    MoveFrame(p, m.from, m.to);
    assert At(Step(p, m).board, m.from) == CellAfter(p, m.from, m.to, m.from);
  }

  /** Hence two consecutive moves of a game never have the same text. */
  lemma ConsecutiveTextsDiffer(p: Position, m: Move, n: Move)
    requires Inv(p) && LegalMove(p, m) && LegalMove(Step(p, m), n)
    ensures MoveText(m) != MoveText(n)
  {
    SourceIsEmpty(p, m);
    if MoveText(m) == MoveText(n) { MoveTextIsInjective(m, n); }
  }

  // ----- a client that has seen the moves `ms` of a game

  /** Game, record and check flags after the moves `ms`. */
  ghost predicate Follows(r: Replica, ms: seq<Move>)
    requires LegalRun(Start(), ms)
  {
    LegalMovesAreOnBoard(Start(), ms);
    && r.game == Play(Start(), ms)
    && r.moves == Prefix(Texts(ms), MAX_PGN_MOVES)
    && (ms != [] ==>
          && (r.whiteInCheck <==> InCheck(r.game.board, White))
          && (r.blackInCheck <==> InCheck(r.game.board, Black)))
  }

  lemma FlagsAreRight(p: Position, m: Move)
    requires Inv(p) && LegalMove(p, m)
    ensures var p', b := Step(p, m), Announce(p, m);
            && (b.isCheck && b.checkedTeam == Some(White) <==> InCheck(p'.board, White))
            && (b.isCheck && b.checkedTeam == Some(Black) <==> InCheck(p'.board, Black))
  {
    StepTurns(p, m);
  }

  /** Handling the next broadcast. */
  lemma {:induction false} HandleNext(r: Replica, ms: seq<Move>, m: Move)
    requires LegalRun(Start(), ms + [m]) && LegalRun(Start(), ms) && Follows(r, ms)
    ensures OnBoard(m) && Follows(Handle(r, Announce(Play(Start(), ms), m)), ms + [m])
  {
    hide Inv, LegalRun, Play, InCheck, ApplyMove;
    var p := Play(Start(), ms);
    LegalRunAppend(Start(), ms, m);
    PlayAppend(Start(), ms, m);
    ReachableInv(ms);
    LegalMovesAreOnBoard(Start(), ms);
    LegalMovesAreOnBoard(Start(), ms + [m]);
    ApplyIsStep(p, m);
    FlagsAreRight(p, m);
    StartInv();
    RecordNext(Start(), r.moves, ms, m);
    assert Clip(FormatCoordinate(m.from) + FormatCoordinate(m.to)) == MoveText(m);
  }

  /** One entry is added for the next move, up to the limit: the comparison with the last
      entry never drops a move of a game. */
  lemma {:induction false} RecordNext(p: Position, moves: seq<string>, ms: seq<Move>, m: Move)
    requires Inv(p) && LegalRun(p, ms + [m])
    requires forall i :: 0 <= i < |ms| ==> OnBoard(ms[i])
    requires OnBoard(m) && moves == Prefix(Texts(ms), MAX_PGN_MOVES)
    ensures Record(moves, MoveText(m)) == Prefix(Texts(ms + [m]), MAX_PGN_MOVES)
  {
    hide *;
    TextsAppend(ms, m);
    if ms != [] {
      LastMoveDiffers(p, ms, m);
    }
    RecordAppend(moves, Texts(ms), MoveText(m));
  }

  lemma RecordAppend(moves: seq<string>, ts: seq<string>, t: string)
    requires moves == Prefix(ts, MAX_PGN_MOVES) && (ts != [] ==> ts[|ts| - 1] != t)
    ensures Record(moves, t) == Prefix(ts + [t], MAX_PGN_MOVES)
  {
  }

  lemma {:induction false} TextsAppend(ms: seq<Move>, m: Move)
    requires OnBoard(m) && forall i :: 0 <= i < |ms| ==> OnBoard(ms[i])
    ensures Texts(ms + [m]) == Texts(ms) + [MoveText(m)]
  {
    assert (ms + [m])[..|ms|] == ms;
  }

  /** The last two positions of a run. */
  lemma {:induction false} LastSteps(p: Position, init: seq<Move>, last: Move, m: Move)
    requires Inv(p) && LegalRun(p, (init + [last]) + [m])
    ensures var q := Play(p, init); Inv(q) && LegalMove(q, last) && LegalMove(Step(q, last), m)
  {
    LegalRunAppend(p, init + [last], m);
    LegalRunAppend(p, init, last);
    PlayAppend(p, init, last);
    RunKeepsInv(p, init);
  }

  /** The last two moves of a run have different texts. */
  lemma {:induction false} LastMoveDiffers(p: Position, ms: seq<Move>, m: Move)
    requires Inv(p) && ms != [] && LegalRun(p, ms + [m]) && OnBoard(m) && OnBoard(ms[|ms| - 1])
    ensures MoveText(ms[|ms| - 1]) != MoveText(m)
  {
    hide *;
    var init, last := ms[..|ms| - 1], ms[|ms| - 1];
    assert init + [last] == ms;
    LastSteps(p, init, last, m);
    ConsecutiveTextsDiffer(Play(p, init), last, m);
  }

  /** Handling the last broadcast once more changes nothing: the board is protected by the
      empty source square, the record by the comparison with its last entry. */
  lemma {:induction false} HandleAgain(r: Replica, ms: seq<Move>, m: Move)
    requires LegalRun(Start(), ms + [m]) && LegalRun(Start(), ms)
    requires Follows(r, ms + [m])
    ensures OnBoard(m) && Handle(r, Announce(Play(Start(), ms), m)) == r
  {
    hide Inv, LegalRun, Play, InCheck, ApplyMove;
    var p := Play(Start(), ms);
    LegalRunAppend(Start(), ms, m);
    PlayAppend(Start(), ms, m);
    ReachableInv(ms);
    LegalMovesAreOnBoard(Start(), ms + [m]);
    SourceIsEmpty(p, m);
    ApplyIsStep(r.game, m);
    FlagsAreRight(p, m);
    assert Clip(FormatCoordinate(m.from) + FormatCoordinate(m.to)) == MoveText(m);
  }

  // ----- delivery of a whole game

  lemma {:induction false} LastOfRun(p: Position, ms: seq<Move>)
    requires ms != [] && LegalRun(p, ms)
    ensures LegalRun(p, ms[..|ms| - 1]) && OnBoard(ms[|ms| - 1])
  {
    assert ms[..|ms| - 1] + [ms[|ms| - 1]] == ms;
    LegalRunAppend(p, ms[..|ms| - 1], ms[|ms| - 1]);
  }

  /** The state after the broadcasts of `ms`, the i-th one delivered `copies[i] + 1` times: a
      player who sits on both sides of a game receives every broadcast twice. */
  ghost function Receive(r: Replica, ms: seq<Move>, copies: seq<nat>): Replica
    requires |copies| == |ms| && LegalRun(Start(), ms)
    decreases |ms|
  {
    if ms == [] then r
    else
      var init, m := ms[..|ms| - 1], ms[|ms| - 1];
      LastOfRun(Start(), ms);
      Repeat(Handle(Receive(r, init, copies[..|ms| - 1]), Announce(Play(Start(), init), m)),
             Announce(Play(Start(), init), m), copies[|ms| - 1])
  }

  ghost function Repeat(r: Replica, b: Broadcast, n: nat): Replica
    decreases n
  {
    if n == 0 then r else Repeat(Handle(r, b), b, n - 1)
  }

  lemma {:induction false} RepeatChangesNothing(r: Replica, b: Broadcast, n: nat)
    requires Handle(r, b) == r
    ensures Repeat(r, b, n) == r
    decreases n
  {
    if n > 0 { RepeatChangesNothing(r, b, n - 1); }
  }

  /** Replica agreement: after any prefix of a game's broadcasts, delivered in order and each
      at least once, the client holds the server's position, the texts of the first 512 moves
      and the right check flags. */
  lemma {:induction false} ReplicaAgrees(r: Replica, ms: seq<Move>, copies: seq<nat>)
    requires |copies| == |ms| && LegalRun(Start(), ms)
    requires r.game == Start() && r.moves == []
    ensures Follows(Receive(r, ms, copies), ms)
    decreases |ms|
  {
    hide *;
    if ms == [] {
      FollowsFromStart(r, ms, copies);
    } else {
      var init, m := ms[..|ms| - 1], ms[|ms| - 1];
      assert init + [m] == ms;
      LastOfRun(Start(), ms);
      ReplicaAgrees(r, init, copies[..|ms| - 1]);
      var r1 := Receive(r, init, copies[..|ms| - 1]);
      HandleNext(r1, init, m);
      HandleAgain(Handle(r1, Announce(Play(Start(), init), m)), init, m);
      LastReceived(r, ms, copies);
    }
  }

  lemma {:induction false} FollowsFromStart(r: Replica, ms: seq<Move>, copies: seq<nat>)
    requires ms == [] && copies == [] && r.game == Start() && r.moves == []
    ensures LegalRun(Start(), ms) && Follows(Receive(r, ms, copies), ms)
  {
    hide Start;
  }

  /** If handling the last broadcast again changes nothing, it counts once. */
  lemma {:induction false} LastReceived(r: Replica, ms: seq<Move>, copies: seq<nat>)
    requires |copies| == |ms| && LegalRun(Start(), ms) && ms != []
    requires LegalRun(Start(), ms[..|ms| - 1]) && OnBoard(ms[|ms| - 1])
    requires var init, m := ms[..|ms| - 1], ms[|ms| - 1];
             var b := Announce(Play(Start(), init), m);
             var r2 := Handle(Receive(r, init, copies[..|ms| - 1]), b);
             Handle(r2, b) == r2
    ensures var init, m := ms[..|ms| - 1], ms[|ms| - 1];
            Receive(r, ms, copies) ==
              Handle(Receive(r, init, copies[..|ms| - 1]), Announce(Play(Start(), init), m))
  {
    hide Handle, LegalRun, Announce, Play, Start, Repeat;
    var init, m := ms[..|ms| - 1], ms[|ms| - 1];
    var b := Announce(Play(Start(), init), m);
    RepeatChangesNothing(Handle(Receive(r, init, copies[..|ms| - 1]), b), b, copies[|ms| - 1]);
  }
}
