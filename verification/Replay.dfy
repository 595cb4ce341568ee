/** Replaying a saved game: the cursor of client/replay.c, and the round trip from the server's
    game through the client's record and the saved file back to the board. */
module Replay {
  import opened ChessBoard
  import opened Rules
  import opened Games
  import opened RuleEngine
  import opened FenRoundTrip
  import opened Notation
  import opened Client
  import opened Pgn

  const AUTO_PLAY_MS: int := 500

  /** One token of the file: its first two and next two characters are the squares. */
  function PlayToken(p: Position, token: string): Position {
    if |token| >= 4 then ApplyFromServer(p, token[0..2], token[2..4]).1 else p
  }

  /** The position after the first `k` tokens. */
  function Shown(moves: seq<string>, k: nat): Position
    requires k <= |moves|
  {
    if k == 0 then Start() else PlayToken(Shown(moves, k - 1), moves[k - 1])
  }

  datatype Key = Up | Down | Enter | Space | Other

  datatype Cursor = Cursor(current: int, autoPlay: bool, lastAuto: int)

  predicate InRange(c: Cursor, count: nat) {
    -1 <= c.current < count
  }

  /** Automatic play, at the start of each turn of the event loop. */
  function Advance(c: Cursor, count: nat, now: int, after: int): Cursor {
    if c.autoPlay && c.current < count - 1 && now - c.lastAuto >= AUTO_PLAY_MS
    then c.(current := c.current + 1, lastAuto := after) else c
  }

  function Press(c: Cursor, count: nat, key: Key, now: int): Cursor {
    match key
    case Up => if c.current >= 0 then c.(current := c.current - 1, autoPlay := false) else c
    case Down => if c.current < count - 1 then c.(current := c.current + 1, autoPlay := false) else c
    case Enter => if c.current < count - 1 then c.(current := c.current + 1, autoPlay := false) else c
    case Space => if c.autoPlay then c.(autoPlay := false) else c.(autoPlay := true, lastAuto := now)
    case Other => c
  }

  class Player {
    const game: Game
    const moves: seq<string>
    var current: int
    var autoPlay: bool
    var lastAuto: int

    ghost function State(): Cursor
      reads this
    {
      Cursor(current, autoPlay, lastAuto)
    }

    /** The cursor is in range, and the board shows the moves up to it and no others. */
    ghost predicate Valid()
      reads this, game, game.board
    {
      game.Valid() && InRange(State(), |moves|) && game.Pos() == Shown(moves, current + 1)
    }

    constructor (tokens: seq<string>)
      requires tokens != []
      ensures Valid() && fresh(game) && fresh(game.board)
      ensures moves == tokens && State() == Cursor(-1, false, 0)
    {
      game := new Game.Zeroed();
      moves := tokens;
      current, autoPlay, lastAuto := -1, false, 0;
      new;
      InitStartpos(game);
    }

    /** `replay_to_move`: the whole prefix is played again from the start position. */
    method ReplayToMove(target: int)
      requires game.Valid() && -1 <= target < |moves|
      modifies game, game.board
      ensures game.Pos() == Shown(moves, target + 1)
    {
      hide PlayToken, Start;
      InitStartpos(game);
      var i := 0;
      while i <= target && i < |moves|
        invariant 0 <= i <= target + 1 && game.Pos() == Shown(moves, i)
      {
        PlayMove(moves[i]);
        i := i + 1;
      }
    }

    method PlayMove(token: string)
      requires game.Valid()
      modifies game, game.board
      ensures game.Pos() == PlayToken(old(game.Pos()), token)
    {
      hide ApplyMove;
      if |token| >= 4 {
        var fx, fy := (token[0] as int) - ('a' as int), (token[1] as int) - ('1' as int);
        var tx, ty := (token[2] as int) - ('a' as int), (token[3] as int) - ('1' as int);
        if InBoard(Sq(fx, fy)) && InBoard(Sq(tx, ty)) {
          game.ApplyMove(fx, fy, tx, ty);
        }
      }
    }

    /** One turn of the event loop: automatic play, then one key. */
    method Turn(now: int, after: int, key: Key, keyNow: int)
      requires Valid()
      modifies this, game, game.board
      ensures Valid()
      ensures State() == Press(Advance(old(State()), |moves|, now, after), |moves|, key, keyNow)
      ensures var auto := old(autoPlay) && old(current) + 1 < |moves| && now - old(lastAuto) >= 500;
              var shown := old(current) + if auto then 2 else 1;
              && (key == Up ==> game.Pos() == Shown(moves, if shown > 0 then shown - 1 else 0))
              && (key == Down || key == Enter ==>
                    game.Pos() == Shown(moves, if shown < |moves| then shown + 1 else shown))
              && (key == Space || key == Other ==> game.Pos() == Shown(moves, shown))
    {
      hide Shown, Start;
      if autoPlay && current < |moves| - 1 && now - lastAuto >= AUTO_PLAY_MS {
        current := current + 1;
        ReplayToMove(current);
        lastAuto := after;
      }
      if key == Up && current >= 0 {
        current := current - 1;
        ReplayToMove(current);
        autoPlay := false;
      } else if (key == Down || key == Enter) && current < |moves| - 1 {
        current := current + 1;
        ReplayToMove(current);
        autoPlay := false;
      } else if key == Space {
        autoPlay := !autoPlay;
        if autoPlay { lastAuto := keyNow; }
      }
    }
  }

  // ----- what the keys do

  /** The automatic step shows one more move, exactly when automatic play is on, a move is left and
      half a second has passed; it notes the time. */
  lemma AutoPlayAdvances(c: Cursor, count: nat, now: int, after: int)
    requires InRange(c, count)
    ensures var c' := Advance(c, count, now, after);
            if c.autoPlay && c.current + 1 < count && now >= c.lastAuto + 500 then
              c'.current == c.current + 1 && c'.autoPlay && c'.lastAuto == after
            else c' == c
  {
  }

  /** Up goes back one move unless at the start; Down and Enter go forward one move unless at the end;
      these stop automatic play. Space switches it on, noting the time, or off. Nothing else happens. */
  lemma KeysMoveTheCursor(c: Cursor, count: nat, key: Key, now: int)
    requires InRange(c, count)
    ensures var c' := Press(c, count, key, now);
            && (key.Up? ==> if c.current == -1 then c' == c
                            else c'.current == c.current - 1 && !c'.autoPlay && c'.lastAuto == c.lastAuto)
            && (key.Down? || key.Enter? ==>
                  if c.current == count - 1 then c' == c
                  else c'.current == c.current + 1 && !c'.autoPlay && c'.lastAuto == c.lastAuto)
            && (key.Space? ==>
                  && c'.current == c.current && c'.autoPlay == !c.autoPlay
                  && c'.lastAuto == if c.autoPlay then c.lastAuto else now)
            && (key.Other? ==> c' == c)
  {
  }

  // ----- runs of the event loop

  /** What one turn reads: the clock before and after automatic play, a key, and the clock
      when the key is handled. */
  datatype Input = Input(now: int, after: int, key: Key, keyNow: int)

  function TurnCursor(c: Cursor, count: nat, i: Input): Cursor {
    Press(Advance(c, count, i.now, i.after), count, i.key, i.keyNow)
  }

  function RunCursor(c: Cursor, count: nat, inputs: seq<Input>): Cursor
    decreases |inputs|
  {
    if inputs == [] then c
    else RunCursor(TurnCursor(c, count, inputs[0]), count, inputs[1..])
  }

  /** Whatever keys are pressed, the cursor stays between "before the first" and the last move. */
  lemma {:induction false} CursorStaysInRange(c: Cursor, count: nat, inputs: seq<Input>)
    requires InRange(c, count)
    ensures InRange(RunCursor(c, count, inputs), count)
    decreases |inputs|
  {
    if inputs != [] {
      CursorStaysInRange(TurnCursor(c, count, inputs[0]), count, inputs[1..]);
    }
  }

  /** Without automatic play Down and then Up lead back, whenever they are pressed. */
  lemma {:induction false} DownThenUpRestores(c: Cursor, count: nat, down: Input, up: Input)
    requires InRange(c, count) && c.current < count - 1 && !c.autoPlay && down.key == Down && up.key == Up
    ensures RunCursor(c, count, [down, up]) == c
  {
    var d := TurnCursor(c, count, down);
    assert [down, up][1..] == [up] && [up][1..] == [];
    assert TurnCursor(d, count, up) == c;
    assert RunCursor(TurnCursor(d, count, up), count, []) == c;
    assert RunCursor(d, count, [up]) == c;
  }

  /** Pressing Down n times without automatic play goes n moves forward, or to the end. */
  lemma {:induction false} DownsGoForward(c: Cursor, count: nat, inputs: seq<Input>)
    requires InRange(c, count) && !c.autoPlay && forall i :: 0 <= i < |inputs| ==> inputs[i].key == Down
    ensures var c', ahead := RunCursor(c, count, inputs), c.current + |inputs|;
            c'.current == (if ahead < count then ahead else count - 1) && !c'.autoPlay
    decreases |inputs|
  {
    if inputs != [] {
      DownsGoForward(TurnCursor(c, count, inputs[0]), count, inputs[1..]);
    }
  }

  /** Pressing Up n times goes n moves back, or to the start. */
  lemma {:induction false} UpsGoBack(c: Cursor, count: nat, inputs: seq<Input>)
    requires InRange(c, count) && !c.autoPlay && forall i :: 0 <= i < |inputs| ==> inputs[i].key == Up
    ensures var c', behind := RunCursor(c, count, inputs), c.current - |inputs|;
            c'.current == (if behind >= -1 then behind else -1) && !c'.autoPlay
    decreases |inputs|
  {
    if inputs != [] {
      UpsGoBack(TurnCursor(c, count, inputs[0]), count, inputs[1..]);
    }
  }

  /** No keys, and at least half a second from the last step to each turn. */
  predicate LeftAlone(inputs: seq<Input>, since: int)
    decreases |inputs|
  {
    inputs == [] ||
    (&& inputs[0].key == Other && since + 500 <= inputs[0].now <= inputs[0].after
     && LeftAlone(inputs[1..], inputs[0].after))
  }

  /** Left alone with automatic play on, the replay shows one more move a turn until the last. */
  lemma {:induction false} AutoPlayRuns(c: Cursor, count: nat, inputs: seq<Input>, since: int)
    requires InRange(c, count) && c.autoPlay && c.lastAuto <= since && LeftAlone(inputs, since)
    ensures var c', ahead := RunCursor(c, count, inputs), c.current + |inputs|;
            c'.current == (if ahead < count then ahead else count - 1) && c'.autoPlay
    decreases |inputs|
  {
    if inputs != [] {
      AutoPlayRuns(TurnCursor(c, count, inputs[0]), count, inputs[1..], inputs[0].after);
    }
  }

  // ----- from the server's game to the replayed board

  /** A token shorter than four characters, or whose first four do not name two squares, is skipped; of
      any other those four decide. */
  lemma TokenIsPlayed(p: Position, token: string)
    ensures (forall m :: OnBoard(m) && |token| >= 4 && token[..4] == MoveText(m) ==> PlayToken(p, token) == Step(p, m))
    ensures (forall m :: OnBoard(m) ==> |token| < 4 || token[..4] != MoveText(m)) ==> PlayToken(p, token) == p
  {
    if |token| >= 4 {
      var s, d := Coordinate(token[0..2]), Coordinate(token[2..4]);
      if InBoard(s) && InBoard(d) {
        assert MoveText(Move(s, d)) == token[..4];
      }
      forall m | OnBoard(m) && token[..4] == MoveText(m) ensures PlayToken(p, token) == Step(p, m) {
        TokenPrefix(token, m);
      }
    }
  }

  lemma TokenPrefix(token: string, m: Move)
    requires OnBoard(m) && |token| >= 4 && token[..4] == MoveText(m)
    ensures Coordinate(token[0..2]) == m.from && Coordinate(token[2..4]) == m.to
  {
    assert token[0] == MoveText(m)[0] && token[1] == MoveText(m)[1];
    assert token[2] == MoveText(m)[2] && token[3] == MoveText(m)[3];
  }

  lemma TokenIsStep(p: Position, m: Move)
    requires OnBoard(m)
    ensures PlayToken(p, MoveText(m)) == Step(p, m)
  {
    ApplyIsStep(p, m);
    assert MoveText(m)[0..2] == FormatCoordinate(m.from) && MoveText(m)[2..4] == FormatCoordinate(m.to);
  }

  /** Replaying the texts of moves plays the moves. */
  lemma {:induction false} ShownIsPlay(ms: seq<Move>, k: nat)
    requires k <= |ms| && forall i :: 0 <= i < |ms| ==> OnBoard(ms[i])
    ensures Shown(Texts(ms), k) == Play(Start(), ms[..k])
  {
    hide Step, Start, ApplyMove, MoveText;
    if k == 0 {
      assert ms[..0] == [];
    } else {
      ShownIsPlay(ms, k - 1);
      assert ms[..k] == ms[..k - 1] + [ms[k - 1]];
      PlayAppend(Start(), ms[..k - 1], ms[k - 1]);
      TokenIsStep(Play(Start(), ms[..k - 1]), ms[k - 1]);
    }
  }

  lemma {:induction false} ShownOfPrefix(moves: seq<string>, n: nat, k: nat)
    requires k <= n <= |moves|
    ensures Shown(moves[..n], k) == Shown(moves, k)
  {
    if k > 0 { ShownOfPrefix(moves, n, k - 1); }
  }

  lemma TextIsEntry(m: Move)
    requires OnBoard(m)
    ensures IsEntry(MoveText(m))
  {
    var t := MoveText(m);
    assert |t| == 4 && t == [t[0], t[1], t[2], t[3]];
  }

  /** The record of any game consists of entries that can be saved and loaded. */
  lemma {:induction false} RecordsAreEntries(ms: seq<Move>)
    requires forall i :: 0 <= i < |ms| ==> OnBoard(ms[i])
    ensures AreEntries(Texts(ms))
  {
    forall i | 0 <= i < |ms| ensures IsEntry(Texts(ms)[i]) {
      TextIsEntry(ms[i]);
    }
  }

  /** Record, save, load and replay of a server game: for a client that has followed the moves
      `ms`, the loaded file is its record, and replaying it to the k-th move shows the server's
      position after k moves, up to the 512 moves that are recorded. */
  lemma {:induction false} ReplayIsFaithful(
    r: Replica, ms: seq<Move>, date: string, white: string, black: string, result: string, k: nat)
    requires LegalRun(Start(), ms) && Follows(r, ms)
    requires TagsFit(date, white, black, result) && !HasBlankLine(white) && !HasBlankLine(black)
    ensures var loaded := Loaded(Saved(date, white, black, result, r.moves));
            && |loaded| == (if |ms| <= 512 then |ms| else 512)
            && (k <= |loaded| ==> Shown(loaded, k) == Play(Start(), ms[..k]))
  {
    hide Loaded, Saved, Shown, Play, LegalRun, IsEntry;
    LegalMovesAreOnBoard(Start(), ms);
    RecordsAreEntries(ms);
    SavedLoads(date, white, black, result, r.moves);
    if k <= |r.moves| {
      ShownIsPlay(ms, k);
      if |ms| > 512 { ShownOfPrefix(Texts(ms), 512, k); }
    }
  }

  lemma {:induction false} FollowerHoldsPosition(r: Replica, ms: seq<Move>)
    requires LegalRun(Start(), ms) && Follows(r, ms)
    ensures r.game == Play(Start(), ms)
  {
    hide LegalRun, Play, Start, InCheck;
  }

  /** So every step of the replay of a game shows the server's position, and the last one its final
      position unless the game has more than 512 moves. */
  lemma {:induction false} WholeReplayIsFaithful(
    r: Replica, ms: seq<Move>, date: string, white: string, black: string, result: string)
    requires LegalRun(Start(), ms) && Follows(r, ms)
    requires TagsFit(date, white, black, result) && !HasBlankLine(white) && !HasBlankLine(black)
    ensures var loaded := Loaded(Saved(date, white, black, result, r.moves));
            && |loaded| == (if |ms| <= 512 then |ms| else 512)
            && (forall k :: 0 <= k <= |loaded| ==> Shown(loaded, k) == Play(Start(), ms[..k]))
            && (|ms| <= 512 ==> Shown(loaded, |loaded|) == Play(Start(), ms) == r.game)
  {
    hide *;
    FollowerHoldsPosition(r, ms);
    var loaded := Loaded(Saved(date, white, black, result, r.moves));
    ReplayIsFaithful(r, ms, date, white, black, result, 0);
    forall k | 0 <= k <= |loaded| ensures Shown(loaded, k) == Play(Start(), ms[..k]) {
      ReplayIsFaithful(r, ms, date, white, black, result, k);
    }
    assert ms[..|ms|] == ms;
  }
}
