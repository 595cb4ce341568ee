/** server/match_manager.c with its global arrays and counters, and the move and resign
    handlers: each method is one section under the mutex, or one step of the move handler. */
module MatchManagement {
  import opened Pieces
  import opened ChessBoard
  import opened RuleEngine
  import opened FenRoundTrip
  import opened Notation
  import opened Matching

  class MatchManager {
    const waiting: array<Waiter>
    const games: array<Slot>
    var waitingCount: int
    var gameCount: int
    var counter: nat

    ghost predicate Valid() {
      waiting.Length == MAX_WAITING_PLAYERS && games.Length == MAX_ACTIVE_GAMES
    }

    ghost function State(): Manager
      reads this, waiting, games
    {
      Manager(waiting[..], games[..], waitingCount, gameCount, counter)
    }

    constructor (blankWaiter: Waiter, blankSlot: Slot)
      requires !blankWaiter.active && !blankSlot.active
      ensures Valid() && fresh(waiting) && fresh(games)
      ensures State() ==
              Manager(seq(MAX_WAITING_PLAYERS, _ => blankWaiter), seq(MAX_ACTIVE_GAMES, _ => blankSlot), 0, 0, 1)
    {
      waiting := new Waiter[MAX_WAITING_PLAYERS](_ => blankWaiter);
      games := new Slot[MAX_ACTIVE_GAMES](_ => blankSlot);
      waitingCount, gameCount, counter := 0, 0, 1;
    }

    method FindFreeSlot() returns (j: nat)
      requires Valid()
      ensures j == First(games[..], Free())
    {
      j := 0;
      while j < MAX_ACTIVE_GAMES && games[j].active
        invariant 0 <= j <= MAX_ACTIVE_GAMES && forall k :: 0 <= k < j ==> games[k].active
      {
        j := j + 1;
      }
      FirstIs(games[..], Free(), j);
    }

    method FindSeat(fd: int) returns (j: nat)
      requires Valid()
      ensures j == FindGame(State(), fd)
    {
      j := 0;
      while j < MAX_ACTIVE_GAMES && !(games[j].active && (games[j].whiteFd == fd || games[j].blackFd == fd))
        invariant 0 <= j <= MAX_ACTIVE_GAMES && forall k :: 0 <= k < j ==> !Seats(fd)(games[k])
      {
        j := j + 1;
      }
      FirstIs(games[..], Seats(fd), j);
    }

    method FindWaiter(fd: int) returns (i: nat)
      requires Valid()
      ensures i == First(waiting[..], WaitsAs(fd))
    {
      i := 0;
      while i < MAX_WAITING_PLAYERS && !(waiting[i].active && waiting[i].fd == fd)
        invariant 0 <= i <= MAX_WAITING_PLAYERS && forall k :: 0 <= k < i ==> !WaitsAs(fd)(waiting[k])
      {
        i := i + 1;
      }
      FirstIs(waiting[..], WaitsAs(fd), i);
    }

    method FindAnyWaiter(active: bool) returns (i: nat)
      requires Valid()
      ensures i == First(waiting[..], if active then Waits() else WaitsNot())
    {
      i := 0;
      while i < MAX_WAITING_PLAYERS && waiting[i].active != active
        invariant 0 <= i <= MAX_WAITING_PLAYERS && forall k :: 0 <= k < i ==> waiting[k].active != active
      {
        i := i + 1;
      }
      FirstIs(waiting[..], if active then Waits() else WaitsNot(), i);
    }

    method GenerateGameId(time: nat) returns (id: string)
      requires Valid()
      modifies this
      ensures id == GameId(time, old(counter)) && State() == old(State()).(counter := old(counter) + 1)
    {
      id := GameId(time, counter);
      counter := counter + 1;
    }

    /** The game of a new pair, in slot `j`. */
    method OpenGame(j: nat, i: nat, fd: int, name: string, r: Readings) returns (result: MatchResult)
      requires Valid() && j < MAX_ACTIVE_GAMES && i < MAX_WAITING_PLAYERS
      modifies this, games
      ensures var slot := NewSlot(GameId(r.idTime, old(counter)), fd, name, waiting[i], r);
              && State() == old(State()).(games := old(games[..])[j := slot], gameCount := old(gameCount) + 1,
                                         counter := old(counter) + 1)
              && result == Started(slot.gameId, if r.coin % 2 == 0 then White else Black, waiting[i].fd, waiting[i].id)
    {
      var currentIsWhite := r.coin % 2 == 0;
      var id := GenerateGameId(r.idTime);
      var g := new Game.Zeroed();
      InitStartpos(g);
      var start := g.Freeze();
      var w := waiting[i];
      games[j] := games[j].(gameId := id);
      games[j] := games[j].(startTime := r.start, active := true);
      games[j] := games[j].(position := start);
      games[j] := games[j].(limit := TIME_LIMIT_MS, whiteTime := TIME_LIMIT_MS, blackTime := TIME_LIMIT_MS);
      games[j] := games[j].(lastMove := r.moveMs, lastCheck := r.checkMs);
      if currentIsWhite {
        games[j] := games[j].(whiteFd := fd, blackFd := w.fd, whiteId := name, blackId := w.id);
        result := Started(id, White, w.fd, w.id);
      } else {
        games[j] := games[j].(whiteFd := w.fd, blackFd := fd, whiteId := w.id, blackId := name);
        result := Started(id, Black, w.fd, w.id);
      }
      gameCount := gameCount + 1;
    }

    method ClearWaiter(i: nat)
      requires Valid() && i < MAX_WAITING_PLAYERS
      modifies this, waiting
      ensures State() == DropWaiter(old(State()), i)
    {
      waiting[i] := waiting[i].(active := false);
      waitingCount := waitingCount - 1;
    }

    method ClearGame(i: nat)
      requires Valid() && i < MAX_ACTIVE_GAMES
      modifies this, games
      ensures State() == EndGame(old(State()), i)
    {
      games[i] := games[i].(active := false);
      gameCount := gameCount - 1;
    }

    method AddPlayerToMatching(fd: int, name: Option<string>, r: Readings) returns (result: MatchResult)
      requires Valid()
      modifies this, waiting, games
      ensures (State(), result) == Add(old(State()), fd, name, r)
    {
      hide NewSlot, GameId, Waits, WaitsNot, Free;
      if name.None? { return Error("Player ID is null"); }
      var i := FindAnyWaiter(true);
      if i < MAX_WAITING_PLAYERS {
        var j := FindFreeSlot();
        if j < MAX_ACTIVE_GAMES {
          result := OpenGame(j, i, fd, name.value, r);
          ClearWaiter(i);
          return;
        }
        return Error("No available game slots");
      }
      var k := FindAnyWaiter(false);
      if k < MAX_WAITING_PLAYERS {
        waiting[k] := Waiter(fd, name.value, r.wait, true);
        waitingCount := waitingCount + 1;
        return Waiting;
      }
      return Error("Matching queue is full");
    }

    method RemovePlayerFromMatching(fd: int) returns (removed: bool)
      requires Valid()
      modifies this, waiting
      ensures (State(), removed) == Cancel(old(State()), fd)
    {
      var i := FindWaiter(fd);
      if i == MAX_WAITING_PLAYERS { return false; }
      ClearWaiter(i);
      return true;
    }

    method RemoveGame(id: string) returns (removed: bool)
      requires Valid()
      modifies this, games
      ensures (State(), removed) == Matching.RemoveGame(old(State()), id)
    {
      var i := 0;
      while i < MAX_ACTIVE_GAMES && !(games[i].active && games[i].gameId == id)
        invariant 0 <= i <= MAX_ACTIVE_GAMES && forall k :: 0 <= k < i ==> !Named(id)(games[k])
      {
        i := i + 1;
      }
      FirstIs(games[..], Named(id), i);
      if i == MAX_ACTIVE_GAMES { return false; }
      ClearGame(i);
      return true;
    }

    method HandleResign(fd: int) returns (departure: Departure)
      requires Valid()
      modifies this, games
      ensures (State(), departure) == Resign(old(State()), fd)
    {
      var i := FindSeat(fd);
      if i == MAX_ACTIVE_GAMES { return NotPlaying; }
      departure := Leave(games[i], fd);
      ClearGame(i);
    }

    method HandlePlayerDisconnect(fd: int) returns (departure: Departure)
      requires Valid()
      modifies this, waiting, games
      ensures (State(), departure) == Disconnect(old(State()), fd)
    {
      var i := FindWaiter(fd);
      if i < MAX_WAITING_PLAYERS {
        ClearWaiter(i);
        return LeftQueue;
      }
      departure := HandleResign(fd);
    }

    /** The body of the loop of `check_game_timeouts`. */
    method CheckSlot(i: nat, now: int) returns (winner: Option<Team>)
      requires Valid() && i < MAX_ACTIVE_GAMES
      modifies this, games
      ensures State() == TickOne(old(State()), i, now) && winner == TimeoutWinner(old(games[i]), now)
    {
      winner := None;
      if !games[i].active { assert games[..] == games[..][i := games[i]]; return; }
      var elapsed := now - games[i].lastCheck;
      if elapsed < TICK_MS { assert games[..] == games[..][i := games[i]]; return; }
      var timeout := false;
      if games[i].position.side.White? {
        games[i] := games[i].(whiteTime := games[i].whiteTime - Int32(elapsed));
        if games[i].whiteTime <= 0 {
          timeout, winner := true, Some(Black);
          games[i] := games[i].(whiteTime := 0);
        }
      } else {
        games[i] := games[i].(blackTime := games[i].blackTime - Int32(elapsed));
        if games[i].blackTime <= 0 {
          timeout, winner := true, Some(White);
          games[i] := games[i].(blackTime := 0);
        }
      }
      games[i] := games[i].(lastCheck := now);
      if timeout {
        ClearGame(i);
      }
    }

    method CheckGameTimeouts(now: int)
      requires Valid()
      modifies this, games
      ensures State() == Tick(old(State()), now)
    {
      for i := 0 to MAX_ACTIVE_GAMES
        invariant State() == TickUpTo(old(State()), i, now)
      {
        var winner := CheckSlot(i, now);
      }
    }

    // ----- the move handler

    /** Turn, coordinates, legality and the move itself, on the slot found before. */
    method TryMove(i: nat, fd: int, from: string, to: string) returns (check: MoveCheck)
      requires Valid() && i < MAX_ACTIVE_GAMES
      modifies games
      ensures check == CheckMove(old(games[i]), fd, from, to)
      ensures State() == if check.Playable? then MakeMove(old(State()), i, check.move) else old(State())
    {
      var team := if games[i].whiteFd == fd then White else Black;
      if games[i].position.side != team { return Refused("It's not your turn"); }
      var source := ParseCoordinate(from);
      if source.None? { return Refused("Invalid source coordinate"); }
      var target := ParseCoordinate(to);
      if target.None? { return Refused("Invalid destination coordinate"); }
      var g := new Game.Of(games[i].position);
      var legal := g.IsMoveLegal(source.value.x, source.value.y, target.value.x, target.value.y);
      if !legal { return Refused("Illegal move"); }
      g.ApplyMove(source.value.x, source.value.y, target.value.x, target.value.y);
      var after := g.Freeze();
      games[i] := games[i].(position := after);
      return Playable(Move(source.value, target.value));
    }

    /** The end conditions. */
    method JudgeSlot(i: nat) returns (v: Verdict)
      requires Valid() && i < MAX_ACTIVE_GAMES
      ensures v == Judge(games[i].position)
    {
      var g := new Game.Of(games[i].position);
      var check := g.IsInCheck(g.side);
      var checked := if check then Some(g.side) else None;
      var mate := g.IsCheckmate();
      if mate { return Verdict(true, Some(g.side.Opponent()), Mate, checked); }
      var stale := g.IsStalemate();
      if stale { return Verdict(true, None, Stale, checked); }
      var fifty := g.IsFiftyMoveRule();
      if fifty { return Verdict(true, None, Draw, checked); }
      return Verdict(false, None, Unknown, checked);
    }

    /** The whole handler, when no timer tick falls between its steps; `sent` says whether the
        reply to the player could be sent. */
    method HandleMove(fd: int, from: string, to: string, now: int, sent: bool)
      returns (check: MoveCheck, verdict: Option<Verdict>)
      requires Valid()
      modifies this, games
      ensures var i := FindGame(old(State()), fd);
              if i == MAX_ACTIVE_GAMES then
                check == Refused("You are not in an active game") && verdict.None? && State() == old(State())
              else
                && check == CheckMove(old(games[..])[i], fd, from, to)
                && if check.Refused? then verdict.None? && State() == old(State())
                   else
                     var s := StampMove(MakeMove(old(State()), i, check.move), i, now);
                     if sent then State() == FinishMove(s, i) && verdict == Some(Judge(s.games[i].position))
                     else State() == s && verdict.None?
    {
      var i := FindSeat(fd);
      if i == MAX_ACTIVE_GAMES { return Refused("You are not in an active game"), None; }
      check := TryMove(i, fd, from, to);
      if check.Refused? { return check, None; }
      games[i] := games[i].(lastMove := now);
      if !sent { return check, None; }
      var v := JudgeSlot(i);
      if v.ends {
        var removed := RemoveGame(games[i].gameId);
      }
      verdict := Some(v);
    }
  }
}
