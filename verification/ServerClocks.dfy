/** How fair the clocks are in a run of the server: the time charged to a side against the time it
    was to move. */
module ServerClocks {
  import opened Pieces
  import opened Games
  import opened Matching
  import opened Clocks
  import opened ServerRun
  import opened ServerSafety
  import opened MoveLaws

  /** An event and the time at which it happens. */
  datatype Timed = Timed(time: int, event: Event)

  /** The clock readings are those of the time of the event. */
  predicate Punctual(te: Timed) {
    (te.event.TimerTick? ==> te.event.now == te.time) && (te.event.MoveStamp? ==> te.event.now == te.time)
  }

  /** A run of the server, whatever else happens in it, in the course of which the game in slot `i`
      stays active; ticks are at most `gap` after the last processed one. */
  ghost predicate TimedRun(w: World, i: nat, at: int, es: seq<Timed>, gap: int)
    requires i < |w.m.games|
    decreases |es|
  {
    es == [] ||
    (&& Enabled(w, es[0].event) && Punctual(es[0]) && es[0].time >= at
     && (es[0].event.TimerTick? ==> es[0].time - w.m.games[i].lastCheck <= gap)
     && var w' := Next(w, es[0].event);
     && i < |w'.m.games| && w'.m.games[i].active && TimedRun(w', i, es[0].time, es[1..], gap))
  }

  ghost function Final(w: World, i: nat, at: int, es: seq<Timed>, gap: int): (r: World)
    requires i < |w.m.games| && TimedRun(w, i, at, es, gap)
    ensures i < |r.m.games|
    decreases |es|
  {
    if es == [] then w else Final(Next(w, es[0].event), i, es[0].time, es[1..], gap)
  }

  /** The time of the last event. */
  function Until(at: int, es: seq<Timed>): int {
    if es == [] then at else es[|es| - 1].time
  }

  /** Time passes for the side to move on the board of slot `i` until the event; a processed tick
      settles the open time. */
  ghost function Enter(a: Account, te: Timed, g': Slot): Account {
    var b := Elapse(a, te.time);
    (if te.event.TimerTick? && te.time - a.g.lastCheck >= TICK_MS then Settle(b) else b).(g := g')
  }

  ghost function Books(a: Account, w: World, i: nat, at: int, es: seq<Timed>, gap: int): Account
    requires i < |w.m.games| && TimedRun(w, i, at, es, gap)
    decreases |es|
  {
    if es == [] then a
    else
      var w' := Next(w, es[0].event);
      Books(Enter(a, es[0], w'.m.games[i]), w', i, es[0].time, es[1..], gap)
  }

  // ----- one event

  /** How many moves have been made in the game of slot `i`. */
  function MovesMade(w: World, i: nat): nat
    requires i < |w.m.games|
  {
    var id := w.m.games[i].gameId;
    if id in w.history then |w.history[id]| else 0
  }

  ghost predicate Kept(a: Account, w: World, i: nat, at: int, gap: int) {
    && Reachable(w) && i < |w.m.games| && w.m.games[i].active && a.g == w.m.games[i] && a.at == at
    && exists k: nat :: Balanced(a, MovesMade(w, i), k, gap)
  }

  /** Only a move made in the slot adds to its game's history. */
  lemma HistoryStays(w: World, e: Event, i: nat)
    requires Reachable(w) && Enabled(w, e) && i < |w.m.games| && w.m.games[i].active
    requires !(e.MoveMake? && HandlesSlot(w, i))
    ensures i < |Next(w, e).m.games| && MovesMade(Next(w, e), i) == MovesMade(w, i)
  {
    OnlyItsOwnStepsChangeIt(w, e, i);
    BoardsShowTheGames(w, i);
    hide Reachable;
    SameHistory(w, e, i);
  }

  lemma SameHistory(w: World, e: Event, i: nat)
    requires Reachable(w) && Enabled(w, e) && i < |w.m.games| && w.m.games[i].active
    requires !(e.MoveMake? && HandlesSlot(w, i))
    ensures var id := w.m.games[i].gameId;
            id in w.history ==> id in Next(w, e).history && Next(w, e).history[id] == w.history[id]
  {
    hide Reachable, EndedIds, CheckMove, FinishMove, Step, Tick, Resign, Disconnect, Cancel, WorldFits, Add, AfterMake,
         AfterRequest, StampMove;
    ReachableFits(w);
    match e
    case Request(fd, name, r) => RequestKeepsHistory(w, fd, name, r, i);
    case MoveMake => MakeKeepsHistory(w, i);
    case CancelRequest(fd) =>
    case Resignation(fd) =>
    case Disconnection(fd) =>
    case TimerTick(now) =>
    case MoveFind(fd, from, to) =>
    case MoveStamp(now) =>
    case MoveFinish =>
    case MoveUnsent =>
  }

  lemma RequestKeepsHistory(w: World, fd: int, name: Option<string>, r: Readings, i: nat)
    requires WorldFits(w) && i < |w.m.games| && w.m.games[i].active
    ensures var id := w.m.games[i].gameId;
            id in w.history ==>
              id in AfterRequest(w, fd, name, r).history && AfterRequest(w, fd, name, r).history[id] == w.history[id]
  {
    NewId(w, r.idTime);
    hide RecordsFit, SlotsFit, PendingFits, IsGameId, GameId, EndedIds;
  }

  lemma MakeKeepsHistory(w: World, i: nat)
    requires WorldFits(w) && AtStage(w, Found) && i < |w.m.games| && w.m.games[i].active && !HandlesSlot(w, i)
    ensures var id := w.m.games[i].gameId;
            id in w.history ==> id in AfterMake(w).history && AfterMake(w).history[id] == w.history[id]
  {
    OtherGame(w, i);
    hide WorldFits, CheckMove, EndedIds, MakeMove;
  }

  /** A move in the slot turns the board and is one more; a refused request changes nothing. */
  lemma OwnMove(w: World, i: nat)
    requires Reachable(w) && AtStage(w, Found) && HandlesSlot(w, i) && w.m.games[i].active
    ensures var w' := Next(w, MoveMake);
            && i < |w'.m.games|
            && ((w'.m.games[i].position.side == w.m.games[i].position.side.Opponent()
                 && MovesMade(w', i) == MovesMade(w, i) + 1)
                || (w'.m.games[i] == w.m.games[i] && MovesMade(w', i) == MovesMade(w, i)))
  {
    BoardsShowTheGames(w, i);
    HandlerKeepsItsSlot(w);
    var p := w.pending.value;
    var answer := CheckMove(w.m.games[i], p.fd, p.from, p.to);
    hide Reachable, CheckMove, Step, LegalMove, Next, Play, Start;
    match answer
    case Playable(m) =>
      MoveIsEntered(w, m);
      PlayableIsLegal(w.m.games[i], p.fd, p.from, p.to);
      MoveTurns(w.m.games[i].position, m);
    case Refused(why) =>
      RefusalChangesNothing(w, why);
  }

  lemma EventKeepsBooks(a: Account, w: World, i: nat, at: int, te: Timed, gap: int)
    requires Kept(a, w, i, at, gap) && Enabled(w, te.event) && Punctual(te) && te.time >= at && 0 <= gap < INT32_END
    requires te.event.TimerTick? ==> te.time - w.m.games[i].lastCheck <= gap
    requires i < |Next(w, te.event).m.games| && Next(w, te.event).m.games[i].active
    ensures Kept(Enter(a, te, Next(w, te.event).m.games[i]), Next(w, te.event), i, te.time, gap)
  {
    hide Reachable, Balanced, Next, Enabled, MovesMade;
    var k: nat :| Balanced(a, MovesMade(w, i), k, gap);
    ReachableStep(w, te.event);
    var k' := EventBalances(a, w, i, k, te, gap);
    EnterIs(a, te, Next(w, te.event).m.games[i]);
  }

  lemma EnterIs(a: Account, te: Timed, g': Slot)
    ensures Enter(a, te, g').g == g' && Enter(a, te, g').at == te.time
    ensures !te.event.TimerTick? ==> Enter(a, te, g') == Elapse(a, te.time).(g := g')
  {
  }

  lemma EventBalances(a: Account, w: World, i: nat, k: nat, te: Timed, gap: int) returns (k': nat)
    requires Reachable(w) && i < |w.m.games| && w.m.games[i].active && a.g == w.m.games[i]
    requires Balanced(a, MovesMade(w, i), k, gap)
    requires Enabled(w, te.event) && Punctual(te) && te.time >= a.at && 0 <= gap < INT32_END
    requires te.event.TimerTick? ==> te.time - w.m.games[i].lastCheck <= gap
    requires i < |Next(w, te.event).m.games| && Next(w, te.event).m.games[i].active
    ensures var w' := Next(w, te.event); Balanced(Enter(a, te, w'.m.games[i]), MovesMade(w', i), k', gap)
  {
    hide Reachable, Balanced, Next, Enabled, MovesMade, Enter, Elapse;
    var n, g' := MovesMade(w, i), Next(w, te.event).m.games[i];
    OnlyItsOwnStepsChangeIt(w, te.event, i);
    EnterIs(a, te, g');
    k' := k;
    if te.event.MoveMake? && HandlesSlot(w, i) {
      MakeMeansFound(w);
      OwnMove(w, i);
      if MovesMade(Next(w, te.event), i) == n {
        BalancedAfterWait(a, n, k, gap, te.time, g');
      } else {
        BalancedAfterMove(a, n, k, gap, te.time, g');
        k' := k + 1;
      }
    } else {
      HistoryStays(w, te.event, i);
      if te.event.TimerTick? {
        TickReaches(w, te.time, i);
        k' := TickKeepsBooks(a, n, k, gap, te, g');
      } else {
        BalancedAfterWait(a, n, k, gap, te.time, g');
      }
    }
  }

  lemma MakeMeansFound(w: World)
    ensures Enabled(w, MoveMake) <==> AtStage(w, Found)
  {
  }

  lemma TickReaches(w: World, now: int, i: nat)
    requires i < |w.m.games| && Enabled(w, TimerTick(now))
    ensures |Next(w, TimerTick(now)).m.games| == |w.m.games|
    ensures Next(w, TimerTick(now)).m.games[i] == TickSlot(w.m.games[i], now)
  {
    TickShrinks(w.m, now);
    hide Tick, EndedIds;
  }

  lemma TickKeepsBooks(a: Account, n: nat, k: nat, gap: int, te: Timed, g': Slot) returns (k': nat)
    requires Balanced(a, n, k, gap) && te.event.TimerTick? && te.time >= a.at
    requires te.time - a.g.lastCheck <= gap < INT32_END && g' == TickSlot(a.g, te.time) && g'.active
    ensures Balanced(Enter(a, te, g'), n, k', gap)
  {
    assert a.g.active;
    hide Balanced, TickSlot, Elapse, Settle;
    if te.time - a.g.lastCheck >= TICK_MS {
      BalancedAfterTick(a, n, k, gap, te.time, g');
      k' := 0;
    } else {
      TickCharges(a.g, te.time);
      BalancedAfterWait(a, n, k, gap, te.time, g');
      k' := k;
    }
  }

  lemma {:induction false} RunKeepsBooks(a: Account, w: World, i: nat, at: int, es: seq<Timed>, gap: int)
    requires Kept(a, w, i, at, gap) && TimedRun(w, i, at, es, gap) && 0 <= gap < INT32_END
    ensures Kept(Books(a, w, i, at, es, gap), Final(w, i, at, es, gap), i, Until(at, es), gap)
    decreases |es|
  {
    if es != [] {
      var w' := Next(w, es[0].event);
      hide Kept, Next, Enabled, Enter, Punctual;
      EventKeepsBooks(a, w, i, at, es[0], gap);
      RunKeepsBooks(Enter(a, es[0], w'.m.games[i]), w', i, es[0].time, es[1..], gap);
    }
  }

  // ----- whole games

  /** A game that has just been opened. */
  ghost predicate JustOpened(w: World, i: nat) {
    && Reachable(w) && i < |w.m.games| && w.m.games[i].active
    && w.m.games[i].whiteTime == w.m.games[i].blackTime == w.m.games[i].limit
    && w.m.games[i].gameId in w.history && w.history[w.m.games[i].gameId] == []
  }

  /** A request that starts a game opens such a game. */
  lemma StartedIsJustOpened(w: World, fd: int, name: string, r: Readings)
    requires Reachable(w) && w.pending.None? && Add(w.m, fd, Some(name), r).1.Started?
    ensures exists j: nat ::
              && JustOpened(Next(w, Request(fd, Some(name), r)), j)
              && Next(w, Request(fd, Some(name), r)).m.games[j].gameId == Add(w.m, fd, Some(name), r).1.gameId
              && Next(w, Request(fd, Some(name), r)).m.games[j].lastCheck == r.checkMs
  {
    ReachableFits(w);
    hide WorldFits, Reachable, EndedIds, Start, GameId;
    ReachableStep(w, Request(fd, Some(name), r));
    var j, slot := RequestStarts(w, fd, name, r);
    assert JustOpened(Next(w, Request(fd, Some(name), r)), j);
  }

  lemma RequestStarts(w: World, fd: int, name: string, r: Readings) returns (j: nat, slot: Slot)
    requires WorldFits(w) && w.pending.None? && Add(w.m, fd, Some(name), r).1.Started?
    ensures j < |w.m.games| && Next(w, Request(fd, Some(name), r)).m.games == w.m.games[j := slot]
    ensures slot.active && slot.whiteTime == slot.blackTime == slot.limit && slot.lastCheck == r.checkMs
    ensures slot.gameId == Add(w.m, fd, Some(name), r).1.gameId
    ensures var w' := Next(w, Request(fd, Some(name), r)); slot.gameId in w'.history && w'.history[slot.gameId] == []
  {
    hide IdsFit, RecordsFit, SlotsFit, PendingFits, EndedIds, GameId, Start;
    j := First(w.m.games, Free());
    slot := Add(w.m, fd, Some(name), r).0.games[j];
  }

  function NewAccount(g: Slot): Account {
    Account(g, g.lastCheck, 0, 0, 0, 0)
  }

  /** Attribution bound: from the opening of a game on, in any run of the server with ticks, moves and
      whatever else, as long as the game is active, the time charged to each side differs from the time
      it was really to move (both up to the last processed tick) by at most the number of moves made
      times the largest gap between processed ticks, and the two errors cancel. */
  lemma {:induction false} ChargesAreFair(w: World, i: nat, es: seq<Timed>, gap: int)
    requires JustOpened(w, i) && 0 <= gap < INT32_END && TimedRun(w, i, w.m.games[i].lastCheck, es, gap)
    ensures var at, w' := w.m.games[i].lastCheck, Final(w, i, w.m.games[i].lastCheck, es, gap);
            var a, n := Books(NewAccount(w.m.games[i]), w, i, at, es, gap), MovesMade(w', i);
            && a.g == w'.m.games[i]
            && Abs(Charged(a.g, White) - a.white) <= n * gap && Abs(Charged(a.g, Black) - a.black) <= n * gap
            && Charged(a.g, White) - a.white == -(Charged(a.g, Black) - a.black)
  {
    var g := w.m.games[i];
    OpeningIsBalanced(w, i, gap);
    hide JustOpened, TimedRun, Books, Final, Balanced, MovesMade, Charged, Reachable, NewAccount;
    RunKeepsBooks(NewAccount(g), w, i, g.lastCheck, es, gap);
    var a, n := Books(NewAccount(g), w, i, g.lastCheck, es, gap), MovesMade(Final(w, i, g.lastCheck, es, gap), i);
    var k: nat :| Balanced(a, n, k, gap);
    BalancedIsFair(a, n, k, gap);
  }

  lemma OpeningIsBalanced(w: World, i: nat, gap: int)
    requires JustOpened(w, i)
    ensures Kept(NewAccount(w.m.games[i]), w, i, w.m.games[i].lastCheck, gap)
  {
    hide Reachable;
    assert Balanced(NewAccount(w.m.games[i]), MovesMade(w, i), 0, gap);
  }

  lemma {:induction false} LimitStays(w: World, i: nat, at: int, es: seq<Timed>, gap: int)
    requires i < |w.m.games| && w.m.games[i].active && TimedRun(w, i, at, es, gap)
    ensures Final(w, i, at, es, gap).m.games[i].limit == w.m.games[i].limit
    decreases |es|
  {
    if es != [] {
      OnlyItsOwnStepsChangeIt(w, es[0].event, i);
      hide Next, Enabled, Punctual;
      LimitStays(Next(w, es[0].event), i, es[0].time, es[1..], gap);
    }
  }

  /** A side that then loses on time was really to move for its whole time, up to the number of moves
      times the largest gap. */
  lemma {:induction false} TimeoutIsFair(w: World, i: nat, es: seq<Timed>, gap: int, now: int)
    requires JustOpened(w, i) && 0 <= gap < INT32_END && TimedRun(w, i, w.m.games[i].lastCheck, es, gap)
    requires var w' := Final(w, i, w.m.games[i].lastCheck, es, gap);
             && Enabled(w', TimerTick(now)) && !Next(w', TimerTick(now)).m.games[i].active
             && Until(w.m.games[i].lastCheck, es) <= now
             && now - w'.m.games[i].lastCheck <= gap
    ensures var at, w' := w.m.games[i].lastCheck, Final(w, i, w.m.games[i].lastCheck, es, gap);
            var a, loser := Books(NewAccount(w.m.games[i]), w, i, at, es, gap), w'.m.games[i].position.side;
            && TimeoutWinner(w'.m.games[i], now) == Some(loser.Opponent())
            && RealTime(Elapse(a, now), loser) >= w.m.games[i].limit - MovesMade(w', i) * gap
  {
    var g := w.m.games[i];
    hide Reachable, TimedRun, Books, Final, Enabled, Next, Balanced, MovesMade;
    OpeningIsBalanced(w, i, gap);
    LimitStays(w, i, g.lastCheck, es, gap);
    RunKeepsBooks(NewAccount(g), w, i, g.lastCheck, es, gap);
    var w' := Final(w, i, g.lastCheck, es, gap);
    var a := Books(NewAccount(g), w, i, g.lastCheck, es, gap);
    var k: nat :| Balanced(a, MovesMade(w', i), k, gap);
    TickReaches(w', now, i);
    BalancedTimeout(a, MovesMade(w', i), k, gap, now);
  }
}
