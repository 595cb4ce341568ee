/** The move handler in the terms of its callers: which requests it accepts and how it refuses the
    others, and what each step of the server leaves alone. */
module MoveLaws {
  import opened Pieces
  import opened ChessBoard
  import opened Rules
  import opened Games
  import opened Notation
  import opened Matching
  import opened MatchingLaws
  import opened ServerRun
  import opened ServerSafety

  // ----- one request

  /** It is the turn of `fd`. Who sits on both sides of a game counts as White only. */
  predicate HasTurn(g: Slot, fd: int) {
    if g.position.side.White? then fd == g.whiteFd else fd == g.blackFd && fd != g.whiteFd
  }

  /** A request by a player of the game is accepted exactly if it is his turn and it names a legal
      move; otherwise the refusal tells the first thing that is wrong. */
  lemma RequestIsJudged(g: Slot, fd: int, from: string, to: string)
    requires SitsAt(g, fd)
    ensures var answer, turn := CheckMove(g, fd, from, to), HasTurn(g, fd);
            && (forall m :: answer == Playable(m) <==> turn && NamesMove(from, to, m) && LegalMove(g.position, m))
            && (answer == Refused("It's not your turn") <==> !turn)
            && (answer == Refused("Invalid source coordinate") <==> turn && !NamesSquare(from))
            && (answer == Refused("Invalid destination coordinate") <==>
                  turn && NamesSquare(from) && !NamesSquare(to))
            && (answer == Refused("Illegal move") <==>
                  turn && exists m :: NamesMove(from, to, m) && !LegalMove(g.position, m))
  {
    hide LegalMove, ParseCoordinate, FormatCoordinate;
    ParsedIsNamed(from);
    ParsedIsNamed(to);
    DifferentRefusals();
    var answer := CheckMove(g, fd, from, to);
    forall m ensures answer == Playable(m) <==>
                       HasTurn(g, fd) && NamesMove(from, to, m) && LegalMove(g.position, m)
    {
      CoordinatesAreInverse(from, m.from);
      CoordinatesAreInverse(to, m.to);
    }
    if ParseCoordinate(from).Some? && ParseCoordinate(to).Some? {
      var m := Move(ParseCoordinate(from).value, ParseCoordinate(to).value);
      CoordinatesAreInverse(from, m.from);
      CoordinatesAreInverse(to, m.to);
      assert NamesMove(from, to, m);
    }
  }

  lemma DifferentRefusals()
    ensures "It's not your turn" != "Invalid source coordinate" && "It's not your turn" != "Illegal move"
    ensures "It's not your turn" != "Invalid destination coordinate"
    ensures "Invalid source coordinate" != "Invalid destination coordinate"
    ensures "Invalid source coordinate" != "Illegal move" && "Invalid destination coordinate" != "Illegal move"
  {
    assert "It's not your turn"[2] == '\'' && "Illegal move"[1] == 'l';
    assert "Invalid source coordinate"[8] == 's' && "Invalid destination coordinate"[8] == 'd';
  }

  /** A player who was paired with himself cannot answer his own first move. */
  lemma PairedWithHimselfIsStuck(g: Slot, fd: int, from: string, to: string)
    requires SitsAt(g, fd) && g.whiteFd == g.blackFd && g.position.side.Black?
    ensures CheckMove(g, fd, from, to) == Refused("It's not your turn")
  {
    RequestIsJudged(g, fd, from, to);
  }

  // ----- the request in the server

  /** `fd` sits in slot `i`, and in no active slot before it. */
  predicate FirstSeat(m: Manager, i: int, fd: int) {
    0 <= i < |m.games| && SitsAt(m.games[i], fd) && forall k :: 0 <= k < i ==> !SitsAt(m.games[k], fd)
  }

  /** Only the position of slot `i` differs. */
  predicate OnlyPosition(m: Manager, m': Manager, i: int, p: Position) {
    && 0 <= i < |m.games| && m'.games == m.games[i := m.games[i].(position := p)]
    && m'.waiting == m.waiting && m'.waitingCount == m.waitingCount && m'.gameCount == m.gameCount
    && m'.counter == m.counter
  }

  lemma FoundGame(w: World, i: nat, fd: int, from: string, to: string)
    requires w.pending.None? && FirstSeat(w.m, i, fd)
    ensures Next(w, MoveFind(fd, from, to)) == w.(pending := Some(Pending(i, w.m.games[i].gameId, fd, from, to, Found)))
  {
    FirstIs(w.m.games, Seats(fd), i);
  }

  lemma SeatOfAnybody(w: World, i: nat, fd: int)
    requires Distinct(w.m) && i < |w.m.games| && SitsAt(w.m.games[i], fd)
    ensures FirstSeat(w.m, i, fd)
  {
    forall k | 0 <= k < i ensures !SitsAt(w.m.games[k], fd) {
      if SitsAt(w.m.games[k], fd) { TwoSeats(w.m, k, i, fd); }
    }
  }

  lemma TwoSeats(m: Manager, k: nat, i: nat, fd: int)
    requires k < i < |m.games| && SitsAt(m.games[k], fd) && SitsAt(m.games[i], fd)
    ensures Places(m, fd) >= 2
  {
    var rest := m.games[i := m.games[i].(active := false)];
    TotalUpdate(m.games, SeatsWeight(fd), i, m.games[i].(active := false));
    TotalFromOne(rest, SeatsWeight(fd), k);
    TotalNonNegative(m.waiting, WaitsAsWeight(fd));
  }

  lemma MoveIsEntered(w: World, m: Move)
    requires AtStage(w, Found) && w.pending.value.gameId in w.history
    requires var p := w.pending.value; CheckMove(w.m.games[p.slot], p.fd, p.from, p.to) == Playable(m)
    ensures var p, w' := w.pending.value, Next(w, MoveMake);
            && w'.pending == Some(p.(stage := Made))
            && OnlyPosition(w.m, w'.m, p.slot, Step(w.m.games[p.slot].position, m))
            && w'.history == w.history[p.gameId := w.history[p.gameId] + [m]]
            && w'.created == w.created && w'.ended == w.ended && w'.announced == w.announced
            && w'.unsent == w.unsent && w'.born == w.born
  {
    hide CheckMove, Step;
    var p := w.pending.value;
    NothingEnds(w.m.games, MakeMove(w.m, p.slot, m).games, |w.m.games|);
  }

  lemma RefusalChangesNothing(w: World, why: string)
    requires AtStage(w, Found)
    requires var p := w.pending.value; CheckMove(w.m.games[p.slot], p.fd, p.from, p.to) == Refused(why)
    ensures Next(w, MoveMake) == w.(pending := None)
  {
    hide CheckMove, EndedIds;
  }

  /** With any other games beside it: between requests, a request by a player goes to the first active
      game in which he sits. If it is his turn there and he names a legal move, the move is added to
      that game's history and its board follows; nothing else changes. Any other request changes nothing. */
  lemma {:induction false} MoveIsAnswered(w: World, i: nat, fd: int, from: string, to: string)
    requires Reachable(w) && w.pending.None? && FirstSeat(w.m, i, fd)
    ensures Enabled(w, MoveFind(fd, from, to)) && Enabled(Next(w, MoveFind(fd, from, to)), MoveMake)
    ensures var w', id := Next(Next(w, MoveFind(fd, from, to)), MoveMake), w.m.games[i].gameId;
            && id in w.history
            && (forall m :: HasTurn(w.m.games[i], fd) && NamesMove(from, to, m)
                            && LegalMove(w.m.games[i].position, m) ==>
                  && w'.history == w.history[id := w.history[id] + [m]]
                  && OnlyPosition(w.m, w'.m, i, Play(Start(), w.history[id] + [m]))
                  && w'.pending == Some(Pending(i, id, fd, from, to, Made))
                  && w'.created == w.created && w'.ended == w.ended && w'.announced == w.announced
                  && w'.unsent == w.unsent && w'.born == w.born)
            && ((forall m :: HasTurn(w.m.games[i], fd) && NamesMove(from, to, m) ==>
                   !LegalMove(w.m.games[i].position, m)) ==> w' == w)
  {
    hide Reachable, LegalMove, CheckMove, Play, Start, Step, HasTurn, NamesMove;
    var g := w.m.games[i];
    BoardsShowTheGames(w, i);
    FoundGame(w, i, fd, from, to);
    RequestIsJudged(g, fd, from, to);
    var w1 := w.(pending := Some(Pending(i, g.gameId, fd, from, to, Found)));
    var answer := CheckMove(g, fd, from, to);
    hide Next, Enabled, OnlyPosition;
    MakeIsEnabled(w, fd, from, to, w1);
    match answer
    case Playable(m) =>
      MoveIsEntered(w1, m);
      PlayAppend(Start(), w.history[g.gameId], m);
      assert forall n :: HasTurn(g, fd) && NamesMove(from, to, n) && LegalMove(g.position, n) ==> n == m;
    case Refused(why) =>
      RefusalChangesNothing(w1, why);
  }

  lemma MakeIsEnabled(w: World, fd: int, from: string, to: string, w1: World)
    requires w.pending.None?
    ensures Enabled(w, MoveFind(fd, from, to)) && (Enabled(w1, MoveMake) <==> AtStage(w1, Found))
  {
  }

  // ----- what a step leaves alone

  /** The same game between the same players, on the same terms. */
  predicate SameGame(a: Slot, b: Slot) {
    && b.gameId == a.gameId && b.whiteFd == a.whiteFd && b.blackFd == a.blackFd
    && b.whiteId == a.whiteId && b.blackId == a.blackId && b.startTime == a.startTime && b.limit == a.limit
  }

  predicate SameClock(a: Slot, b: Slot) {
    b.whiteTime == a.whiteTime && b.blackTime == a.blackTime && b.lastCheck == a.lastCheck
  }

  predicate HandlesSlot(w: World, i: int) {
    w.pending.Some? && w.pending.value.slot == i
  }

  /** Whatever happens to the server, an active game keeps its id, its players, their names, its start
      and its limit. Its clocks change on a timer tick only; its board only when the handler that holds it
      makes a move; the time of its last move only when that handler stamps it. It stops being
      active only on a tick, when a player of it resigns or is disconnected, or by the handler's verdict. */
  lemma OnlyItsOwnStepsChangeIt(w: World, e: Event, i: nat)
    requires Enabled(w, e) && i < |w.m.games| && w.m.games[i].active
    ensures |Next(w, e).m.games| == |w.m.games|
    ensures var a, b := w.m.games[i], Next(w, e).m.games[i];
            && SameGame(a, b)
            && (!e.TimerTick? ==> SameClock(a, b))
            && (!(e.MoveMake? && HandlesSlot(w, i)) ==> b.position == a.position)
            && (!(e.MoveStamp? && HandlesSlot(w, i)) ==> b.lastMove == a.lastMove)
            && (e.MoveStamp? && HandlesSlot(w, i) ==> b.lastMove == e.now)
            && (b.active || e.TimerTick? || e.MoveFinish?
                || ((e.Resignation? || e.Disconnection?) && SitsAt(a, e.fd)))
  {
    hide EndedIds, Step, CheckMove, FinishMove, Tick, Add, Resign, Disconnect, Cancel, SameClock, SameGame, SitsAt;
    match e
    case Request(fd, name, r) => RequestLeavesAlone(w.m, fd, name, r, i);
    case CancelRequest(fd) => CancelLeavesAlone(w.m, fd, i);
    case Resignation(fd) => ResignLeavesAlone(w.m, fd, i);
    case Disconnection(fd) => DisconnectLeavesAlone(w.m, fd, i);
    case TimerTick(now) => TickLeavesAlone(w.m, now, i);
    case MoveFind(fd, from, to) => NothingChanges(w.m.games[i]);
    case MoveMake => MakeLeavesAlone(w, i);
    case MoveStamp(now) => StampLeavesAlone(w.m, w.pending.value.slot, now, i);
    case MoveFinish => FinishLeavesAlone(w.m, w.pending.value.slot, i);
    case MoveUnsent => NothingChanges(w.m.games[i]);
  }

  lemma NothingChanges(g: Slot)
    ensures SameGame(g, g) && SameClock(g, g)
  {
  }

  predicate Untouched(m: Manager, m': Manager, i: nat) {
    |m'.games| == |m.games| && i < |m.games| && m'.games[i] == m.games[i]
  }

  lemma RequestLeavesAlone(m: Manager, fd: int, name: Option<string>, r: Readings, i: nat)
    requires i < |m.games| && m.games[i].active
    ensures var m' := Add(m, fd, name, r).0; Untouched(m, m', i) && SameGame(m.games[i], m'.games[i])
    ensures SameClock(m.games[i], Add(m, fd, name, r).0.games[i])
  {
  }

  lemma CancelLeavesAlone(m: Manager, fd: int, i: nat)
    requires i < |m.games|
    ensures var m' := Cancel(m, fd).0; Untouched(m, m', i) && SameGame(m.games[i], m'.games[i])
    ensures SameClock(m.games[i], Cancel(m, fd).0.games[i])
  {
  }

  predicate MayEnd(m: Manager, m': Manager, i: nat) {
    && |m'.games| == |m.games| && i < |m.games|
    && SameGame(m.games[i], m'.games[i]) && SameClock(m.games[i], m'.games[i])
    && m'.games[i].position == m.games[i].position && m'.games[i].lastMove == m.games[i].lastMove
  }

  lemma ResignLeavesAlone(m: Manager, fd: int, i: nat)
    requires i < |m.games| && m.games[i].active
    ensures var m' := Resign(m, fd).0; MayEnd(m, m', i) && (m'.games[i].active || SitsAt(m.games[i], fd))
  {
  }

  lemma DisconnectLeavesAlone(m: Manager, fd: int, i: nat)
    requires i < |m.games| && m.games[i].active
    ensures var m' := Disconnect(m, fd).0; MayEnd(m, m', i) && (m'.games[i].active || SitsAt(m.games[i], fd))
  {
  }

  lemma TickLeavesAlone(m: Manager, now: int, i: nat)
    requires i < |m.games|
    ensures var m' := Tick(m, now);
            && |m'.games| == |m.games| && SameGame(m.games[i], m'.games[i])
            && m'.games[i].position == m.games[i].position && m'.games[i].lastMove == m.games[i].lastMove
  {
    TickShrinks(m, now);
    hide Tick;
    assert Tick(m, now).games[i] == TickSlot(m.games[i], now);
  }

  lemma MakeLeavesAlone(w: World, i: nat)
    requires AtStage(w, Found) && i < |w.m.games|
    ensures var a, games := w.m.games[i], AfterMake(w).m.games;
            && |games| == |w.m.games| && SameGame(a, games[i]) && SameClock(a, games[i])
            && games[i].active == a.active && games[i].lastMove == a.lastMove
            && (!HandlesSlot(w, i) ==> games[i].position == a.position)
  {
    hide CheckMove, Step, EndedIds;
  }

  lemma StampLeavesAlone(m: Manager, k: nat, now: int, i: nat)
    requires k < |m.games| && i < |m.games|
    ensures var a, games := m.games[i], StampMove(m, k, now).games;
            && |games| == |m.games| && SameGame(a, games[i]) && SameClock(a, games[i])
            && games[i].active == a.active && games[i].position == a.position
            && games[i].lastMove == if i == k then now else a.lastMove
  {
  }

  lemma FinishLeavesAlone(m: Manager, k: nat, i: nat)
    requires k < |m.games| && i < |m.games|
    ensures MayEnd(m, FinishMove(m, k), i)
  {
    hide Judge;
  }

  /** The handler's verdict ends the game of its own slot or, if that has ended already or is not over,
      changes nothing. */
  lemma VerdictEndsOwnGame(w: World)
    requires Reachable(w) && AtStage(w, Stamped)
    ensures var g, m' := w.m.games[w.pending.value.slot], Next(w, MoveFinish).m;
            if g.active && GameOver(g.position) then EndsSlot(w.m, m', w.pending.value.slot) else m' == w.m
  {
    hide Reachable, WorldFits, Next, Checkmate, Stalemate, FiftyMoves, InCheck;
    ReachableFits(w);
    HandlerKeepsItsSlot(w);
    RemovesOwnGame(w);
    FinishIs(w);
  }
}
