/** Which games a server can come to hold: every game that may be accepted can be played, and the
    reply to any of its moves can get lost. */
module ServerGames {
  import opened Pieces
  import opened ChessBoard
  import opened Rules
  import opened Games
  import opened Notation
  import opened Matching
  import opened MatchingLaws
  import opened SampleGames
  import opened Draws
  import opened ServerRun
  import opened ServerSafety

  const WHITE_FD: int := 1
  const BLACK_FD: int := 2

  predicate OnlyActive(games: seq<Slot>, i: nat) {
    i < |games| && games[i].active && forall k :: 0 <= k < |games| && k != i ==> !games[k].active
  }

  predicate Seated(g: Slot) {
    g.whiteFd == WHITE_FD && g.blackFd == BLACK_FD
  }

  /** Between requests slot `i` holds the only game, in which the moves `ms` have been made; if `sent`,
      every reply has been sent and every move broadcast. */
  ghost predicate Hosts(w: World, i: nat, ms: seq<Move>, sent: bool) {
    && Reachable(w) && w.pending.None? && OnlyActive(w.m.games, i) && Seated(w.m.games[i])
    && var id := w.m.games[i].gameId;
    && id in w.history && w.history[id] == ms
    && (sent ==> id !in w.unsent && id in w.announced && w.announced[id] == ms)
  }

  // ----- the first game of a server

  lemma FirstRequest(w: World, name: string, r: Readings)
    requires Reachable(w) && w.pending.None? && w.m.waitingCount == 0
    requires forall k :: 0 <= k < |w.m.games| ==> !w.m.games[k].active
    ensures var w' := Next(w, Request(WHITE_FD, Some(name), r));
            && Reachable(w') && w'.m.waitingCount == 1 && w'.m.games == w.m.games && w'.pending.None?
            && w'.unsent == w.unsent
            && var j := First(w'.m.waiting, Waits()); j < |w'.m.waiting| && w'.m.waiting[j].fd == WHITE_FD
  {
    ReachableFits(w);
    hide RecordsFit, SlotsFit, PendingFits, IdsFit;
    ReachableStep(w, Request(WHITE_FD, Some(name), r));
    RequestIsAnswered(w.m, WHITE_FD, name, r);
    WaiterIs(w.m, WHITE_FD, name, r);
  }

  lemma SecondRequest(w: World, name: string, r: Readings) returns (i: nat)
    requires Reachable(w) && w.pending.None? && w.m.waitingCount == 1 && w.unsent == {} && r.coin % 2 == 1
    requires var j := First(w.m.waiting, Waits()); j < |w.m.waiting| && w.m.waiting[j].fd == WHITE_FD
    requires forall k :: 0 <= k < |w.m.games| ==> !w.m.games[k].active
    ensures Hosts(Next(w, Request(BLACK_FD, Some(name), r)), i, [], true)
  {
    ReachableFits(w);
    assert Sized(w.m);
    hide WorldFits, Reachable;
    ReachableStep(w, Request(BLACK_FD, Some(name), r));
    i := First(w.m.games, Free());
    assert i == 0;
  }

  lemma ServerOpens() returns (w: World, i: nat)
    ensures Hosts(w, i, [], true)
  {
    var r := Readings(1, 0, 0, 0, 0, 0);
    var blankSlot := Slot("", 0, 0, "", "", 0, false, Start(), 0, 0, 0, 0, 0);
    var w0 := Initial(Waiter(0, "", 0, false), blankSlot);
    PlayersStartApart(Waiter(0, "", 0, false), blankSlot);
    hide Reachable, Start, Hosts, Next;
    FirstRequest(w0, "", r);
    w := Next(w0, Request(WHITE_FD, Some(""), r));
    i := SecondRequest(w, "", r);
    w := Next(w, Request(BLACK_FD, Some(""), r));
  }

  // ----- one move

  function MoverFd(p: Position): int {
    if p.side.White? then WHITE_FD else BLACK_FD
  }

  lemma FindsGame(w: World, i: nat, fd: int, from: string, to: string)
    requires w.pending.None? && OnlyActive(w.m.games, i) && Seated(w.m.games[i]) && (fd == WHITE_FD || fd == BLACK_FD)
    ensures Next(w, MoveFind(fd, from, to)) == w.(pending := Some(Pending(i, w.m.games[i].gameId, fd, from, to, Found)))
  {
    FirstIs(w.m.games, Seats(fd), i);
  }

  lemma LegalIsPlayable(g: Slot, m: Move)
    requires Seated(g) && LegalMove(g.position, m)
    ensures OnBoard(m)
    ensures CheckMove(g, MoverFd(g.position), FormatCoordinate(m.from), FormatCoordinate(m.to)) == Playable(m)
  {
    CoordinatesAreInverse(FormatCoordinate(m.from), m.from);
    CoordinatesAreInverse(FormatCoordinate(m.to), m.to);
  }

  /** The move handler is at `stage` with the only game, in which the moves `ms` have been made. */
  ghost predicate Handles(w: World, stage: Stage, i: nat, ms: seq<Move>, sent: bool) {
    && Reachable(w) && AtStage(w, stage) && w.pending.value.slot == i
    && OnlyActive(w.m.games, i) && Seated(w.m.games[i])
    && var id := w.m.games[i].gameId;
    && w.pending.value.gameId == id && id in w.history && w.history[id] == ms && (sent ==> id !in w.unsent)
  }

  lemma EnabledIs(w: World, fd: int, from: string, to: string)
    ensures Enabled(w, MoveFind(fd, from, to)) <==> w.pending.None?
    ensures Enabled(w, MoveMake) <==> AtStage(w, Found)
    ensures Enabled(w, MoveStamp(0)) <==> AtStage(w, Made)
    ensures Enabled(w, MoveFinish) <==> AtStage(w, Stamped)
    ensures Enabled(w, MoveUnsent) <==> AtStage(w, Stamped)
  {
  }

  lemma MoveIsFound(w: World, i: nat, ms: seq<Move>, m: Move, sent: bool) returns (w': World)
    requires Hosts(w, i, ms, sent) && LegalMove(Play(Start(), ms), m)
    ensures Handles(w', Found, i, ms, sent)
    ensures var p := w'.pending.value; CheckMove(w'.m.games[i], p.fd, p.from, p.to) == Playable(m)
  {
    BoardsShowTheGames(w, i);
    hide Reachable, Play, Start, LegalMove, Next, Enabled, CheckMove;
    LegalIsPlayable(w.m.games[i], m);
    var fd, from, to := MoverFd(w.m.games[i].position), FormatCoordinate(m.from), FormatCoordinate(m.to);
    FindsGame(w, i, fd, from, to);
    EnabledIs(w, fd, from, to);
    ReachableStep(w, MoveFind(fd, from, to));
    w' := Next(w, MoveFind(fd, from, to));
  }

  lemma MakeIs(w: World, m: Move)
    requires AtStage(w, Found)
    requires var p := w.pending.value; CheckMove(w.m.games[p.slot], p.fd, p.from, p.to) == Playable(m)
    requires w.pending.value.gameId in w.history
    ensures var p, w' := w.pending.value, Next(w, MoveMake);
            && w'.pending == Some(p.(stage := Made)) && w'.unsent == w.unsent
            && w'.m == MakeMove(w.m, p.slot, m) && w'.history == w.history[p.gameId := w.history[p.gameId] + [m]]
  {
    hide CheckMove, EndedIds;
  }

  lemma MoveIsApplied(w: World, i: nat, ms: seq<Move>, m: Move, sent: bool) returns (w': World)
    requires Handles(w, Found, i, ms, sent)
    requires var p := w.pending.value; CheckMove(w.m.games[i], p.fd, p.from, p.to) == Playable(m)
    ensures Handles(w', Made, i, ms + [m], sent)
  {
    hide Reachable, Next, Enabled, CheckMove, Step;
    EnabledIs(w, 0, "", "");
    MakeIs(w, m);
    ReachableStep(w, MoveMake);
    w' := Next(w, MoveMake);
  }

  lemma StampIs(w: World)
    requires AtStage(w, Made)
    ensures var p, w' := w.pending.value, Next(w, MoveStamp(0));
            && w'.pending == Some(p.(stage := Stamped)) && w'.unsent == w.unsent
            && w'.m == StampMove(w.m, p.slot, 0) && w'.history == w.history
  {
    hide EndedIds;
  }

  lemma MoveIsStamped(w: World, i: nat, ms: seq<Move>, sent: bool) returns (w': World)
    requires Handles(w, Made, i, ms, sent)
    ensures Handles(w', Stamped, i, ms, sent)
  {
    hide Reachable, Next, Enabled;
    EnabledIs(w, 0, "", "");
    StampIs(w);
    ReachableStep(w, MoveStamp(0));
    w' := Next(w, MoveStamp(0));
  }

  /** A legal move is found, made and stamped. */
  lemma MoveIsMade(w: World, i: nat, ms: seq<Move>, m: Move, sent: bool) returns (w': World)
    requires Hosts(w, i, ms, sent) && LegalMove(Play(Start(), ms), m)
    ensures Handles(w', Stamped, i, ms + [m], sent)
  {
    w' := MoveIsFound(w, i, ms, m, sent);
    hide Hosts, LegalMove, Play, Start, CheckMove;
    w' := MoveIsApplied(w', i, ms, m, sent);
    w' := MoveIsStamped(w', i, ms + [m], sent);
  }

  /** When the reply is sent, the move is broadcast, and the game goes on or ends. */
  lemma ReplyIsSent(w: World, i: nat, ms: seq<Move>) returns (w': World)
    requires Handles(w, Stamped, i, ms, true) && ms != []
    ensures Reachable(w') && w'.pending.None?
    ensures var id := w.m.games[i].gameId;
            && id in w'.created && id in w'.history && w'.history[id] == ms
            && id in w'.announced && w'.announced[id] == ms && id !in w'.unsent
    ensures !GameOver(Play(Start(), ms)) ==> Hosts(w', i, ms, true)
  {
    LastStepDecides(w);
    BoardsShowTheGames(w, i);
    SlotsAreStill(w, i);
    hide Reachable, Play, Start, GameOver, Next, Enabled, FinishMove, AtStage;
    EnabledIs(w, 0, "", "");
    ReachableStep(w, MoveFinish);
    w' := Next(w, MoveFinish);
    FinishIs(w);
    AllMovesAreBroadcast(w', w.m.games[i].gameId);
  }

  /** The last step leaves the idle slots idle. */
  lemma SlotsAreStill(w: World, i: nat)
    requires AtStage(w, Stamped) && w.pending.value.slot == i && OnlyActive(w.m.games, i)
    ensures var games := FinishMove(w.m, i).games;
            && |games| == |w.m.games| && forall k :: 0 <= k < |games| && k != i ==> !games[k].active
  {
    hide Judge;
  }

  /** When the reply is lost, the game goes on even if it is over, and nobody hears of the move. */
  lemma ReplyIsLost(w: World, i: nat, ms: seq<Move>, sent: bool) returns (w': World)
    requires Handles(w, Stamped, i, ms, sent) && ms != []
    ensures Hosts(w', i, ms, false)
    ensures var id := w.m.games[i].gameId;
            && w'.m.games[i].gameId == id && id in w'.unsent && id in w'.announced && |w'.announced[id]| < |ms|
            && (sent ==> w'.announced[id] == ms[..|ms| - 1])
  {
    hide WorldFits, Reachable, Next, Enabled;
    ReachableFits(w);
    HeldRecord(w);
    EnabledIs(w, 0, "", "");
    ReachableStep(w, MoveUnsent);
    UnsentIsGiveUp(w);
    w' := Next(w, MoveUnsent);
  }

  // ----- whole games

  /** Any legal run is played as long as no reply is sent; if it can be accepted, it is played with
      every reply sent. */
  lemma {:induction false} GameIsPlayed(ms: seq<Move>, sent: bool) returns (w: World, i: nat)
    requires LegalRun(Start(), ms) && (sent ==> AcceptedRun(Start(), ms) && !GameOver(Play(Start(), ms)))
    ensures Hosts(w, i, ms, sent)
    decreases |ms|, 1
  {
    if ms == [] {
      w, i := ServerOpens();
    } else {
      var w0;
      w0, i := LastMoveIsMade(ms, sent);
      if sent { w := ReplyIsSent(w0, i, ms); } else { w := ReplyIsLost(w0, i, ms, false); }
    }
  }

  lemma {:induction false} LastMoveIsMade(ms: seq<Move>, sent: bool) returns (w: World, i: nat)
    requires ms != [] && LegalRun(Start(), ms) && (sent ==> AcceptedRun(Start(), ms))
    ensures Handles(w, Stamped, i, ms, sent)
    decreases |ms|, 0
  {
    hide *;
    var init, m := ms[..|ms| - 1], ms[|ms| - 1];
    assert init + [m] == ms;
    LegalRunAppend(Start(), init, m);
    AcceptedRunAppend(Start(), init, m);
    w, i := GameIsPlayed(init, sent);
    w := MoveIsMade(w, i, init, m, sent);
  }

  /** Between requests `ms` are the moves made in game `id`, all of them broadcast. */
  ghost predicate Broadcasts(w: World, id: string, ms: seq<Move>) {
    && Reachable(w) && w.pending.None? && id in w.created && id !in w.unsent
    && id in w.history && w.history[id] == ms && id in w.announced && w.announced[id] == ms
  }

  /** The converse of `ServerGamesAreChess`: every run that the rules of acceptance allow is the
      history of a game on some server, all of it broadcast; the game has ended exactly if it is over. */
  lemma {:induction false} EveryGameCanBePlayed(ms: seq<Move>)
    requires AcceptedRun(Start(), ms)
    ensures exists w, id :: Broadcasts(w, id, ms) && (id in w.ended <==> GameOver(Play(Start(), ms)))
  {
    AcceptedIsLegal(Start(), ms);
    if GameOver(Play(Start(), ms)) {
      if ms == [] { StartIsNotOver(); }
      var w0, i := LastMoveIsMade(ms, true);
      var w := ReplyIsSent(w0, i, ms);
      OverMeansEnded(w, w0.m.games[i].gameId);
      assert Broadcasts(w, w0.m.games[i].gameId, ms);
    } else {
      var w, i := GameIsPlayed(ms, true);
      HostedIsRunning(w, i, ms);
      assert Broadcasts(w, w.m.games[i].gameId, ms);
    }
  }

  lemma HostedIsRunning(w: World, i: nat, ms: seq<Move>)
    requires Hosts(w, i, ms, true)
    ensures w.m.games[i].gameId in w.created && w.m.games[i].gameId !in w.ended
  {
    ReachableFits(w);
  }

  /** A server that has ended a game as drawn although nobody claimed it. */
  lemma DrawsComeUnclaimed()
    ensures exists w, id :: Broadcasts(w, id, ShuffleRun(0, 100)) && id in w.ended
    ensures Judge(Play(Start(), ShuffleRun(0, 100))).how == Draw
  {
    hide *;
    DrawnWithoutClaim();
    JudgedOver(Play(Start(), ShuffleRun(0, 100)));
    EveryGameCanBePlayed(ShuffleRun(0, 100));
  }

  lemma JudgedOver(p: Position)
    ensures Judge(p).ends <==> GameOver(p)
  {
    hide Checkmate, Stalemate, FiftyMoves, InCheck;
  }

  /** A server on which a game runs on although a position has occurred at least k + 1 times. */
  lemma {:induction false} RepetitionsRunOn(k: nat)
    requires k <= 24
    ensures exists w, id ::
              && Broadcasts(w, id, ShuffleRun(0, 4 * k)) && id !in w.ended
              && Occurrences(Start(), w.history[id], Start()) >= k + 1
  {
    hide *;
    RepetitionIsIgnored(k);
    EveryGameCanBePlayed(ShuffleRun(0, 4 * k));
    var w, id :| Broadcasts(w, id, ShuffleRun(0, 4 * k)) && id !in w.ended;
    HistoryIs(w, id, ShuffleRun(0, 4 * k));
  }

  lemma {:induction false} HistoryIs(w: World, id: string, ms: seq<Move>)
    requires Broadcasts(w, id, ms)
    ensures id in w.history && w.history[id] == ms
  {
  }

  /** At any move of any game the reply can get lost: then all moves have been made, the last one
      has not been broadcast, and the game is still running, whether it is over or not. */
  lemma {:induction false} AnyReplyCanBeLost(ms: seq<Move>)
    requires AcceptedRun(Start(), ms) && ms != []
    ensures exists w, i: nat :: StillRunning(w, i, ms) && w.announced[w.m.games[i].gameId] == ms[..|ms| - 1]
  {
    AcceptedIsLegal(Start(), ms);
    var w0, i := LastMoveIsMade(ms, true);
    var w := ReplyIsLost(w0, i, ms, true);
    BoardsShowTheGames(w, i);
    assert StillRunning(w, i, ms);
  }

  /** Between requests slot `i` holds a running game in which the moves `ms` have been made, but
      not all of them broadcast. */
  ghost predicate StillRunning(w: World, i: nat, ms: seq<Move>) {
    && Reachable(w) && w.pending.None? && i < |w.m.games| && w.m.games[i].active
    && w.m.games[i].position == Play(Start(), ms)
    && var id := w.m.games[i].gameId;
    && id in w.history && w.history[id] == ms && id in w.announced && |w.announced[id]| < |ms|
  }

  /** Lost at the first move: the opponent never hears of it. */
  lemma FirstMoveCanGoUnnoticed()
    ensures exists w, i: nat :: StillRunning(w, i, [F3]) && w.announced[w.m.games[i].gameId] == []
  {
    StartOpens();
    var p := Start();
    PlaysF3(p);
    assert AcceptedRun(p, [F3]);
    AnyReplyCanBeLost([F3]);
  }

  /** Lost at the mating move: the mated game goes on, and the loser has not heard of the mate. */
  lemma MateCanGoUnnoticed()
    ensures exists w, i: nat ::
              StillRunning(w, i, FoolsMate()) && Checkmate(w.m.games[i].position)
              && w.announced[w.m.games[i].gameId] == [F3, E5, G4]
  {
    hide Checkmate, Start, Play, AcceptedRun, Reachable;
    FoolsMateIsMate();
    AnyReplyCanBeLost(FoolsMate());
    assert FoolsMate()[..3] == [F3, E5, G4];
  }

  /** When replies keep getting lost a game has no bound: it runs on for any number of moves. */
  lemma LostRepliesUndoTheBound(n: nat)
    requires n > 0
    ensures exists w, i: nat, ms :: |ms| == n && StillRunning(w, i, ms)
  {
    LegalGamesHaveNoBound(n);
    var ms := ShuffleRun(0, n);
    var w0, i := LastMoveIsMade(ms, false);
    var w := ReplyIsLost(w0, i, ms, false);
    BoardsShowTheGames(w, i);
    assert StillRunning(w, i, ms);
  }
}
