/** The invariant of every run of the server, and what follows from it. */
module ServerSafety {
  import opened Pieces
  import opened ChessBoard
  import opened Rules
  import opened Invariant
  import opened Games
  import opened Material
  import opened Strings
  import opened Matching
  import opened MatchingLaws
  import opened Clocks
  import opened ServerRun

  // ----- ids: created, active, ended

  predicate NoDuplicates<T(==)>(s: seq<T>) {
    forall i, j :: 0 <= i < j < |s| ==> s[i] != s[j]
  }

  predicate ActiveIdsDiffer(games: seq<Slot>) {
    forall i, j :: 0 <= i < j < |games| && games[i].active && games[j].active ==> games[i].gameId != games[j].gameId
  }

  predicate ActiveIdsFit(w: World) {
    forall i :: 0 <= i < |w.m.games| && w.m.games[i].active ==>
      w.m.games[i].gameId in w.created && w.m.games[i].gameId !in w.ended
  }

  /** Every game created has its own id, is active in at most one slot, and is ended at most
      once; the active ones are those created and not ended. */
  predicate IdsFit(w: World) {
    && (forall id :: id in w.created ==> IsGameId(id, w.m.counter))
    && NoDuplicates(w.created) && NoDuplicates(w.ended)
    && (forall id :: id in w.ended ==> id in w.created) && (forall id :: id in w.unsent ==> id in w.created)
    && ActiveIdsDiffer(w.m.games) && ActiveIdsFit(w)
    && |w.created| == |w.ended| + w.m.gameCount
  }

  // ----- games: moves made, moves broadcast, boards and clocks

  /** Of the moves `made`, all have been broadcast unless some reply could not be sent. */
  predicate AnnouncedFits(announced: map<string, seq<Move>>, unsent: set<string>, id: string, made: seq<Move>) {
    id in announced &&
    if id in unsent then |announced[id]| < |made| else announced[id] == made
  }

  /** The handler has made a move in game `id` that it has yet to judge and to broadcast. */
  predicate InHand(w: World, id: string) {
    w.pending.Some? && w.pending.value.gameId == id && w.pending.value.stage != Found
  }

  /** The moves made are a legal run from the start position; as long as every reply was sent, no
      move was accepted in a position in which the game was over. */
  ghost predicate MovesFit(made: seq<Move>, allSent: bool) {
    LegalRun(Start(), made) && (allSent ==> AcceptedRun(Start(), made))
  }

  /** What holds of every game ever created, running or ended. */
  ghost predicate RecordFits(w: World, id: string) {
    && id in w.history
    && var made := w.history[id];
    && MovesFit(made, id !in w.unsent)
    && if InHand(w, id) then made != [] && AnnouncedFits(w.announced, w.unsent, id, made[..|made| - 1])
       else
         && AnnouncedFits(w.announced, w.unsent, id, made)
         && (GameOver(Play(Start(), made)) ==> id in w.ended || id in w.unsent)
  }

  ghost predicate RecordsFit(w: World) {
    forall id :: id in w.created ==> RecordFits(w, id)
  }

  /** The board of a game shows the moves made in it. */
  predicate Shows(history: map<string, seq<Move>>, g: Slot) {
    g.gameId in history && g.position == Play(Start(), history[g.gameId])
  }

  predicate ClockOf(born: map<string, int>, g: Slot) {
    g.gameId in born && ClockFits(g, born[g.gameId])
  }

  ghost predicate SlotsFit(w: World) {
    forall i :: 0 <= i < |w.m.games| && w.m.games[i].active ==>
      Shows(w.history, w.m.games[i]) && ClockOf(w.born, w.m.games[i])
  }

  ghost predicate OverUnsent(unsent: set<string>, g: Slot) {
    GameOver(g.position) ==> g.gameId in unsent
  }

  /** The slot that the handler holds still belongs to the same game, which is active or ended,
      and its position is that game's. */
  ghost predicate PendingFits(w: World) {
    w.pending.Some? ==>
      var p := w.pending.value;
      && p.slot < |w.m.games| && w.m.games[p.slot].gameId == p.gameId
      && p.gameId in w.created && (w.m.games[p.slot].active || p.gameId in w.ended)
      && Shows(w.history, w.m.games[p.slot])
      && (p.stage == Found ==> OverUnsent(w.unsent, w.m.games[p.slot]))
  }

  ghost predicate WorldFits(w: World) {
    Counted(w.m) && IdsFit(w) && RecordsFit(w) && SlotsFit(w) && PendingFits(w)
  }

  // ----- steps that create no game

  /** Same players and id; activity can only be lost. */
  predicate Shrinks(a: seq<Slot>, b: seq<Slot>) {
    |a| == |b| && forall i :: 0 <= i < |a| ==>
      && b[i].gameId == a[i].gameId && b[i].whiteFd == a[i].whiteFd && b[i].blackFd == a[i].blackFd
      && (b[i].active ==> a[i].active)
  }

  lemma {:induction false} EndedSound(a: seq<Slot>, b: seq<Slot>, n: nat, id: string)
    requires n <= |a| == |b|
    ensures id in EndedIds(a, b, n) <==> exists i :: 0 <= i < n && Ends(a[i], b[i]) && a[i].gameId == id
  {
    if n > 0 { EndedSound(a, b, n - 1, id); }
  }

  lemma {:induction false} EndedDiffer(a: seq<Slot>, b: seq<Slot>, n: nat)
    requires n <= |a| == |b| && ActiveIdsDiffer(a)
    ensures NoDuplicates(EndedIds(a, b, n))
  {
    if n > 0 {
      EndedDiffer(a, b, n - 1);
      if Ends(a[n - 1], b[n - 1]) { EndedSound(a, b, n - 1, a[n - 1].gameId); }
    }
  }

  lemma {:induction false} EndedCount(a: seq<Slot>, b: seq<Slot>, n: nat)
    requires Shrinks(a, b) && n <= |a|
    ensures |EndedIds(a, b, n)| == Total(a[..n], PlayingWeight()) - Total(b[..n], PlayingWeight())
  {
    if n > 0 {
      EndedCount(a, b, n - 1);
      assert a[..n][..n - 1] == a[..n - 1] && b[..n][..n - 1] == b[..n - 1];
    }
  }

  lemma NoDuplicatesConcat<T>(s: seq<T>, t: seq<T>)
    requires NoDuplicates(s) && NoDuplicates(t) && forall x :: x in t ==> x !in s
    ensures NoDuplicates(s + t)
  {
    forall i, j | 0 <= i < j < |s + t| ensures (s + t)[i] != (s + t)[j] {
      if i < |s| <= j { assert t[j - |s|] in t && s[i] in s; }
    }
  }

  /** Such a step ends each game at most once, and keeps the books. */
  lemma IdsAfterShrink(w: World, m: Manager)
    requires Counted(w.m) && IdsFit(w) && Counted(m) && Shrinks(w.m.games, m.games) && m.counter == w.m.counter
    ensures IdsFit(Become(w, m))
  {
    var a, b, n := w.m.games, m.games, |m.games|;
    var freshIds := EndedIds(a, b, n);
    forall id ensures id in freshIds <==> exists i :: 0 <= i < n && Ends(a[i], b[i]) && a[i].gameId == id {
      EndedSound(a, b, n, id);
    }
    EndedDiffer(a, b, n);
    NoDuplicatesConcat(w.ended, freshIds);
    EndedCount(a, b, n);
    assert a[..n] == a && b[..n] == b;
  }

  /** Ending games does no harm to their records. */
  lemma RecordsAfterBecome(w: World, m: Manager)
    requires RecordsFit(w)
    ensures RecordsFit(Become(w, m))
  {
    hide MovesFit, AnnouncedFits, GameOver, Play, Start, EndedIds;
    forall id | id in w.created ensures RecordFits(Become(w, m), id) {
      assert RecordFits(w, id);
    }
  }

  /** Slots that differ in nothing a game depends on. */
  predicate Quiet(a: seq<Slot>, b: seq<Slot>) {
    Shrinks(a, b) && forall i :: 0 <= i < |a| ==>
      && b[i].position == a[i].position && b[i].limit == a[i].limit && b[i].lastCheck == a[i].lastCheck
      && b[i].whiteTime == a[i].whiteTime && b[i].blackTime == a[i].blackTime
  }

  lemma SlotsAfterQuiet(w: World, m: Manager)
    requires SlotsFit(w) && Quiet(w.m.games, m.games)
    ensures SlotsFit(Become(w, m))
  {
    hide Play, Start;
  }

  /** The handler's slot stays its own: a game that ends meanwhile is entered in the log. */
  lemma PendingAfterShrink(w: World, m: Manager)
    requires PendingFits(w) && Shrinks(w.m.games, m.games)
    requires forall i :: 0 <= i < |m.games| ==> m.games[i].position == w.m.games[i].position
    ensures PendingFits(Become(w, m))
  {
    hide Play, GameOver, Start;
    if w.pending.Some? {
      EndedSound(w.m.games, m.games, |m.games|, w.pending.value.gameId);
    }
  }

  lemma QuietStep(w: World, m: Manager)
    requires WorldFits(w) && Counted(m) && Quiet(w.m.games, m.games) && m.counter == w.m.counter
    ensures WorldFits(Become(w, m))
  {
    hide IdsFit, RecordsFit, SlotsFit, PendingFits, Counted;
    IdsAfterShrink(w, m);
    RecordsAfterBecome(w, m);
    SlotsAfterQuiet(w, m);
    PendingAfterShrink(w, m);
  }

  lemma CancelFits(w: World, fd: int)
    requires WorldFits(w)
    ensures WorldFits(Become(w, Cancel(w.m, fd).0))
  {
    hide IdsFit, RecordsFit, SlotsFit, PendingFits;
    var i := First(w.m.waiting, WaitsAs(fd));
    if i < |w.m.waiting| { DropWaiterKeepsCounts(w.m, i); }
    QuietStep(w, Cancel(w.m, fd).0);
  }

  lemma EndGameFits(w: World, i: nat)
    requires WorldFits(w) && i < |w.m.games| && w.m.games[i].active
    ensures WorldFits(Become(w, EndGame(w.m, i)))
  {
    hide IdsFit, RecordsFit, SlotsFit, PendingFits;
    EndGameKeepsCounts(w.m, i);
    QuietStep(w, EndGame(w.m, i));
  }

  lemma NothingFits(w: World)
    requires WorldFits(w)
    ensures WorldFits(Become(w, w.m))
  {
    hide IdsFit, RecordsFit, SlotsFit, PendingFits;
    QuietStep(w, w.m);
  }

  lemma ResignFits(w: World, fd: int)
    requires WorldFits(w)
    ensures WorldFits(Become(w, Resign(w.m, fd).0))
  {
    hide WorldFits;
    var i := First(w.m.games, Seats(fd));
    if i < |w.m.games| { EndGameFits(w, i); } else { NothingFits(w); }
  }

  lemma DisconnectFits(w: World, fd: int)
    requires WorldFits(w)
    ensures WorldFits(Become(w, Disconnect(w.m, fd).0))
  {
    hide WorldFits;
    if First(w.m.waiting, WaitsAs(fd)) < |w.m.waiting| {
      CancelFits(w, fd);
    } else {
      ResignFits(w, fd);
    }
  }

  // ----- timer ticks

  lemma TickShrinks(m: Manager, now: int)
    ensures Shrinks(m.games, Tick(m, now).games) && Tick(m, now).counter == m.counter
    ensures forall i :: 0 <= i < |m.games| ==> Tick(m, now).games[i] == TickSlot(m.games[i], now)
  {
    forall i | 0 <= i < |m.games| ensures Tick(m, now).games[i] == TickSlot(m.games[i], now) {
      TickGames(m, |m.games|, now, i);
    }
    if m.games != [] { TickGames(m, |m.games|, now, 0); }
  }

  lemma SlotsAfterTick(w: World, now: int)
    requires SlotsFit(w) && Enabled(w, TimerTick(now))
    ensures SlotsFit(Become(w, Tick(w.m, now)))
  {
    TickShrinks(w.m, now);
    hide Play, Start, Tick;
    var m := Tick(w.m, now);
    forall i | 0 <= i < |m.games| && m.games[i].active
      ensures Shows(w.history, m.games[i]) && ClockOf(w.born, m.games[i])
    {
      TickKeepsClock(w.m.games[i], now, w.born[w.m.games[i].gameId]);
    }
  }

  lemma TickFits(w: World, now: int)
    requires WorldFits(w) && Enabled(w, TimerTick(now))
    ensures WorldFits(Become(w, Tick(w.m, now)))
  {
    TickKeepsCounts(w.m, |w.m.games|, now);
    TickShrinks(w.m, now);
    hide IdsFit, RecordsFit, SlotsFit, PendingFits, Counted, TickSlot, TickUpTo;
    var m := Tick(w.m, now);
    forall i | 0 <= i < |m.games| ensures m.games[i].position == w.m.games[i].position {
      TickKeepsPosition(w.m.games[i], now);
    }
    IdsAfterShrink(w, m);
    RecordsAfterBecome(w, m);
    SlotsAfterTick(w, now);
    PendingAfterShrink(w, m);
  }

  lemma TickKeepsPosition(g: Slot, now: int)
    ensures TickSlot(g, now).position == g.position
  {
  }

  // ----- the steps of the move handler

  lemma OtherGame(w: World, i: nat)
    requires IdsFit(w) && PendingFits(w) && w.pending.Some?
    requires i < |w.m.games| && w.m.games[i].active && i != w.pending.value.slot
    ensures w.m.games[i].gameId != w.pending.value.gameId
  {
    var p := w.pending.value;
    if w.m.games[p.slot].active {
      if i < p.slot { assert w.m.games[i].gameId != w.m.games[p.slot].gameId; }
    }
  }

  /** A record that a step leaves alone still fits. */
  lemma RecordTransfers(w: World, w': World, id: string)
    requires RecordFits(w, id) && (InHand(w', id) <==> InHand(w, id))
    requires id in w'.history && w'.history[id] == w.history[id]
    requires id in w.announced ==> id in w'.announced && w'.announced[id] == w.announced[id]
    requires id in w'.unsent <==> id in w.unsent
    requires id in w.ended ==> id in w'.ended
    ensures RecordFits(w', id)
  {
    hide MovesFit, GameOver, Play, Start, InHand;
  }

  /** Steps that change neither records nor slots, and move the handler between stages with
      nothing in hand, or with the same move in hand. */
  lemma HandlerMoves(w: World, pending: Option<Pending>)
    requires WorldFits(w)
    requires var w' := w.(pending := pending); PendingFits(w') && forall id :: InHand(w', id) <==> InHand(w, id)
    ensures WorldFits(w.(pending := pending))
  {
    var w' := w.(pending := pending);
    hide RecordFits, MovesFit, GameOver, Play, Start, InHand, IsGameId, Counted, PendingFits;
    forall id | id in w.created ensures RecordFits(w', id) {
      assert RecordFits(w, id);
      RecordHasHistory(w, id);
      RecordTransfers(w, w', id);
    }
  }

  lemma RecordHasHistory(w: World, id: string)
    requires RecordFits(w, id)
    ensures id in w.history
  {
  }

  /** Dropping a request that was refused. */
  lemma RefusedFits(w: World)
    requires WorldFits(w) && AtStage(w, Found)
    ensures WorldFits(w.(pending := None))
  {
    hide RecordsFit, SlotsFit, IdsFit, Counted;
    HandlerMoves(w, None);
  }

  ghost function MadeWorld(w: World, move: Move): World
    requires AtStage(w, Found) && w.pending.value.gameId in w.history
  {
    var p := w.pending.value;
    Become(w, MakeMove(w.m, p.slot, move))
      .(pending := Some(p.(stage := Made)), history := w.history[p.gameId := w.history[p.gameId] + [move]])
  }

  /** A legal move extends the run, and an accepted run if the game is not over. */
  lemma MoveExtends(w: World, move: Move)
    requires WorldFits(w) && AtStage(w, Found) && LegalMove(w.m.games[w.pending.value.slot].position, move)
    ensures var p := w.pending.value;
            && p.gameId in w.history
            && MovesFit(w.history[p.gameId] + [move], p.gameId !in w.unsent)
            && Step(w.m.games[p.slot].position, move) == Play(Start(), w.history[p.gameId] + [move])
  {
    var p := w.pending.value;
    assert RecordFits(w, p.gameId);
    hide Step, LegalMove, GameOver, LegalRun, AcceptedRun, Play, Start;
    var past := w.history[p.gameId];
    LegalRunAppend(Start(), past, move);
    AcceptedRunAppend(Start(), past, move);
    PlayAppend(Start(), past, move);
  }

  lemma MadeRecords(w: World, move: Move)
    requires WorldFits(w) && AtStage(w, Found) && LegalMove(w.m.games[w.pending.value.slot].position, move)
    ensures w.pending.value.gameId in w.history && RecordsFit(MadeWorld(w, move))
  {
    hide MovesFit, GameOver, Play, Start, Step, LegalMove, EndedIds, MakeMove, IdsFit, SlotsFit, Counted;
    MoveExtends(w, move);
    var p := w.pending.value;
    var w' := MadeWorld(w, move);
    forall id | id in w.created ensures RecordFits(w', id) {
      assert RecordFits(w, id);
      if id == p.gameId {
        assert (w.history[id] + [move])[..|w.history[id]|] == w.history[id];
      } else {
        RecordTransfers(w, w', id);
      }
    }
  }

  lemma MadeSlots(w: World, move: Move)
    requires WorldFits(w) && AtStage(w, Found) && LegalMove(w.m.games[w.pending.value.slot].position, move)
    ensures w.pending.value.gameId in w.history && SlotsFit(MadeWorld(w, move))
  {
    hide RecordsFit, IdsFit, Counted, MovesFit, GameOver, Play, Start, Step, LegalMove, EndedIds;
    MoveExtends(w, move);
    var p := w.pending.value;
    var w' := MadeWorld(w, move);
    forall i | 0 <= i < |w'.m.games| && w'.m.games[i].active
      ensures Shows(w'.history, w'.m.games[i]) && ClockOf(w'.born, w'.m.games[i])
    {
      if i != p.slot { OtherGame(w, i); }
    }
  }

  lemma MadePending(w: World, move: Move)
    requires WorldFits(w) && AtStage(w, Found) && LegalMove(w.m.games[w.pending.value.slot].position, move)
    ensures w.pending.value.gameId in w.history && PendingFits(MadeWorld(w, move))
  {
    hide RecordsFit, IdsFit, SlotsFit, Counted, MovesFit, GameOver, Play, Start, Step, LegalMove, EndedIds;
    MoveExtends(w, move);
    PendingStays(w, MakeMove(w.m, w.pending.value.slot, move));
  }

  lemma PendingStays(w: World, m: Manager)
    requires PendingFits(w) && w.pending.Some? && Shrinks(w.m.games, m.games)
    ensures var p := w.pending.value; m.games[p.slot].active || p.gameId in Become(w, m).ended
  {
    EndedSound(w.m.games, m.games, |m.games|, w.pending.value.gameId);
  }

  lemma MadeIds(w: World, move: Move)
    requires WorldFits(w) && AtStage(w, Found)
    ensures var m := MakeMove(w.m, w.pending.value.slot, move); Counted(m) && IdsFit(Become(w, m))
  {
    hide IdsFit, RecordsFit, SlotsFit, PendingFits, Step;
    var slot := w.pending.value.slot;
    var m := MakeMove(w.m, slot, move);
    SameActivityKeepsCounts(w.m, slot, m.games[slot]);
    IdsAfterShrink(w, m);
  }

  lemma PlayableFits(w: World, move: Move)
    requires WorldFits(w) && AtStage(w, Found) && LegalMove(w.m.games[w.pending.value.slot].position, move)
    ensures w.pending.value.gameId in w.history && WorldFits(MadeWorld(w, move))
  {
    MadeIds(w, move);
    MadeRecords(w, move);
    MadeSlots(w, move);
    MadePending(w, move);
    hide LegalMove, RecordsFit, SlotsFit, PendingFits, Counted, MakeMove;
  }

  lemma PlayableIsLegal(g: Slot, fd: int, from: string, to: string)
    requires CheckMove(g, fd, from, to).Playable?
    ensures LegalMove(g.position, CheckMove(g, fd, from, to).move)
  {
    hide LegalMove;
  }

  lemma MakeFits(w: World)
    requires WorldFits(w) && Enabled(w, MoveMake)
    ensures WorldFits(AfterMake(w))
  {
    hide WorldFits, CheckMove, LegalMove, MakeMove, Become;
    var p := w.pending.value;
    var check := CheckMove(w.m.games[p.slot], p.fd, p.from, p.to);
    if check.Refused? {
      RefusedFits(w);
    } else {
      PlayableIsLegal(w.m.games[p.slot], p.fd, p.from, p.to);
      PlayableFits(w, check.move);
    }
  }

  lemma StampIsQuiet(m: Manager, i: nat, now: int)
    requires Counted(m) && i < |m.games|
    ensures Counted(StampMove(m, i, now)) && Quiet(m.games, StampMove(m, i, now).games)
  {
    SameActivityKeepsCounts(m, i, StampMove(m, i, now).games[i]);
  }

  lemma AdvanceStage(w: World)
    requires WorldFits(w) && AtStage(w, Made)
    ensures WorldFits(w.(pending := Some(w.pending.value.(stage := Stamped))))
  {
    hide RecordsFit, SlotsFit, IdsFit, Counted, Shows;
    HandlerMoves(w, Some(w.pending.value.(stage := Stamped)));
  }

  lemma StampFits(w: World, now: int)
    requires WorldFits(w) && Enabled(w, MoveStamp(now))
    ensures WorldFits(Next(w, MoveStamp(now)))
  {
    hide IdsFit, RecordsFit, SlotsFit, PendingFits, Counted, Quiet;
    StampIsQuiet(w.m, w.pending.value.slot, now);
    QuietStep(w, StampMove(w.m, w.pending.value.slot, now));
    AdvanceStage(Become(w, StampMove(w.m, w.pending.value.slot, now)));
  }

  /** Removal by id hits the handler's own slot, or nothing if the game has timed out. */
  lemma RemovesOwnGame(w: World)
    requires WorldFits(w) && w.pending.Some?
    ensures var p := w.pending.value;
            First(w.m.games, Named(p.gameId)) == if w.m.games[p.slot].active then p.slot else |w.m.games|
  {
    var p := w.pending.value;
    forall i | 0 <= i < |w.m.games| && i != p.slot ensures !Named(p.gameId)(w.m.games[i]) {
      if w.m.games[i].active { OtherGame(w, i); }
    }
    FirstIs(w.m.games, Named(p.gameId), if w.m.games[p.slot].active then p.slot else |w.m.games|);
  }

  /** The verdict removes the game from the handler's slot exactly if it is over. */
  lemma FinishedSlot(w: World)
    requires AtStage(w, Stamped) && WorldFits(w)
    ensures var m, i := FinishMove(w.m, w.pending.value.slot), w.pending.value.slot;
            && |m.games| == |w.m.games|
            && m.games[i] == w.m.games[i].(active := w.m.games[i].active && !GameOver(w.m.games[i].position))
            && (GameOver(m.games[i].position) ==> w.pending.value.gameId in Become(w, m).ended)
  {
    RemovesOwnGame(w);
    var m, i := FinishMove(w.m, w.pending.value.slot), w.pending.value.slot;
    assert w.m.games[i].active || w.pending.value.gameId in w.ended;
    hide WorldFits, Checkmate, Stalemate, FiftyMoves, InCheck;
    EndedSound(w.m.games, m.games, |m.games|, w.pending.value.gameId);
  }

  lemma FinishMoveFits(w: World)
    requires WorldFits(w) && AtStage(w, Stamped)
    ensures WorldFits(Become(w, FinishMove(w.m, w.pending.value.slot)))
  {
    var p := w.pending.value;
    RemovesOwnGame(w);
    hide WorldFits, Become, Checkmate, Stalemate, InCheck;
    if Judge(w.m.games[p.slot].position).ends && w.m.games[p.slot].active {
      EndGameFits(w, p.slot);
    } else {
      NothingFits(w);
    }
  }

  ghost function Announced(w: World): World
    requires w.pending.Some?
  {
    var id := w.pending.value.gameId;
    if id in w.history && id in w.announced && w.history[id] != []
    then w.(announced := w.announced[id := w.announced[id] + [w.history[id][|w.history[id]| - 1]]], pending := None)
    else w.(pending := None)
  }

  lemma OnlyRecordsChange(w: World, w': World)
    requires WorldFits(w) && RecordsFit(w') && w'.pending.None?
    requires w'.m == w.m && w'.created == w.created && w'.ended == w.ended
    requires w'.history == w.history && w'.born == w.born && forall id :: id in w'.unsent ==> id in w'.created
    ensures WorldFits(w')
  {
    hide RecordsFit, Play, Start, ClockFits, IsGameId, Counted;
  }

  /** The broadcast completes the record of the game in the handler's slot. */
  lemma AnnouncedFitsAll(w: World)
    requires WorldFits(w) && AtStage(w, Stamped)
    requires GameOver(w.m.games[w.pending.value.slot].position) ==> w.pending.value.gameId in w.ended
    ensures WorldFits(Announced(w))
  {
    forall id | id in w.created ensures RecordFits(Announced(w), id) {
      AnnouncedRecord(w, id);
    }
    hide WorldFits, RecordFits, GameOver;
    OnlyRecordsChange(w, Announced(w));
  }

  lemma AnnouncedRecord(w: World, id: string)
    requires RecordsFit(w) && PendingFits(w) && AtStage(w, Stamped) && id in w.created
    requires GameOver(w.m.games[w.pending.value.slot].position) ==> w.pending.value.gameId in w.ended
    ensures RecordFits(Announced(w), id)
  {
    assert RecordFits(w, id);
    hide RecordsFit, MovesFit, GameOver, Play, Start;
    if id == w.pending.value.gameId {
      assert Shows(w.history, w.m.games[w.pending.value.slot]);
      hide PendingFits;
      AnnouncedOwn(w, id);
    } else {
      hide PendingFits, RecordFits;
      RecordHasHistory(w, id);
      RecordTransfers(w, Announced(w), id);
    }
  }

  lemma AnnouncedOwn(w: World, id: string)
    requires w.pending.Some? && id == w.pending.value.gameId && InHand(w, id) && RecordFits(w, id)
    requires GameOver(Play(Start(), w.history[id])) ==> id in w.ended
    ensures RecordFits(Announced(w), id)
  {
    hide MovesFit, GameOver, Play, Start;
    var made := w.history[id];
    assert made == made[..|made| - 1] + [made[|made| - 1]];
  }

  lemma FinishFits(w: World)
    requires WorldFits(w) && Enabled(w, MoveFinish)
    ensures WorldFits(Next(w, MoveFinish))
  {
    FinishedSlot(w);
    FinishMoveFits(w);
    hide WorldFits, FinishMove, GameOver, EndedIds;
    AnnouncedFitsAll(Become(w, FinishMove(w.m, w.pending.value.slot)));
  }

  /** Giving up because the reply was not sent. */
  lemma UnsentFits(w: World)
    requires WorldFits(w) && AtStage(w, Stamped)
    ensures WorldFits(GiveUp(w))
  {
    forall id | id in w.created ensures RecordFits(GiveUp(w), id) {
      UnsentRecord(w, id);
    }
    UnsentAreCreated(w);
    hide WorldFits, RecordFits, GameOver;
    OnlyRecordsChange(w, GiveUp(w));
  }

  lemma UnsentAreCreated(w: World)
    requires IdsFit(w) && PendingFits(w) && AtStage(w, Stamped)
    ensures forall id :: id in GiveUp(w).unsent ==> id in w.created
  {
    hide IsGameId, Shows, OverUnsent;
  }

  lemma UnsentRecord(w: World, id: string)
    requires RecordsFit(w) && AtStage(w, Stamped) && id in w.created
    ensures RecordFits(GiveUp(w), id)
  {
    assert RecordFits(w, id);
    hide LegalRun, AcceptedRun, GameOver, Play, Start;
    if id != w.pending.value.gameId { RecordTransfers(w, GiveUp(w), id); }
  }

  lemma FindFits(w: World, fd: int, from: string, to: string)
    requires WorldFits(w) && w.pending.None?
    ensures WorldFits(AfterFind(w, fd, from, to))
  {
    var i := FindGame(w.m, fd);
    if i < |w.m.games| {
      RunningIsNotOver(w, i);
      hide RecordsFit, GameOver, Play, IsGameId, Counted;
      HandlerMoves(w, Some(Pending(i, w.m.games[i].gameId, fd, from, to, Found)));
    }
  }

  lemma RunningIsNotOver(w: World, i: nat)
    requires WorldFits(w) && w.pending.None? && i < |w.m.games| && w.m.games[i].active
    ensures OverUnsent(w.unsent, w.m.games[i])
  {
    assert RecordFits(w, w.m.games[i].gameId);
    hide MovesFit, GameOver, Play, Start, AnnouncedFits;
  }

  // ----- requests

  lemma {:induction false} NothingEnds(a: seq<Slot>, b: seq<Slot>, n: nat)
    requires n <= |a| == |b| && forall i :: 0 <= i < |a| ==> !Ends(a[i], b[i])
    ensures EndedIds(a, b, n) == []
  {
    if n > 0 { NothingEnds(a, b, n - 1); }
  }

  lemma NewId(w: World, t: nat)
    requires IdsFit(w)
    ensures GameId(t, w.m.counter) !in w.created
    ensures forall id :: id in w.created + [GameId(t, w.m.counter)] ==> IsGameId(id, w.m.counter + 1)
  {
    var newId := GameId(t, w.m.counter);
    GameIdEnds(t, w.m.counter);
    assert IsGameId(newId, w.m.counter + 1);
    forall id | id in w.created ensures id != newId && IsGameId(id, w.m.counter + 1) {
      GameIdIsNew(id, t, w.m.counter);
      var c :| 0 <= c < w.m.counter && |id| >= 1 + |Dec(c)| && id[|id| - |Dec(c)| - 1..] == "_" + Dec(c);
    }
  }

  /** The world after a game has been opened in the free slot `j`. */
  ghost predicate Opened(w: World, w': World, j: nat, slot: Slot) {
    && j < |w.m.games| && !w.m.games[j].active && slot.active
    && w'.m.games == w.m.games[j := slot] && w'.m.gameCount == w.m.gameCount + 1
    && w'.m.counter == w.m.counter + 1 && w'.pending == w.pending
    && w'.created == w.created + [slot.gameId] && w'.ended == w.ended
    && w'.history == w.history[slot.gameId := []] && w'.born == w.born[slot.gameId := slot.lastCheck]
    && w'.announced == w.announced[slot.gameId := []] && w'.unsent == w.unsent
    && (exists t :: slot.gameId == GameId(t, w.m.counter))
    && slot.position == Start() && slot.limit == slot.whiteTime == slot.blackTime == TIME_LIMIT_MS
  }

  lemma OpenedIds(w: World, w': World, j: nat, slot: Slot)
    requires WorldFits(w) && Opened(w, w', j, slot)
    ensures IdsFit(w')
  {
    var t :| slot.gameId == GameId(t, w.m.counter);
    NewId(w, t);
    hide RecordsFit, SlotsFit, PendingFits, IsGameId, GameId, Start;
    NoDuplicatesConcat(w.created, [slot.gameId]);
  }

  lemma OpenedRecords(w: World, w': World, j: nat, slot: Slot)
    requires WorldFits(w) && Opened(w, w', j, slot) && w.pending.None?
    ensures RecordsFit(w')
  {
    var t :| slot.gameId == GameId(t, w.m.counter);
    NewId(w, t);
    hide IsGameId, GameId, Start, SlotsFit, PendingFits, RecordFits;
    forall id | id in w'.created ensures RecordFits(w', id) {
      if id == slot.gameId {
        OpenedRecord(w, w', id);
      } else {
        assert RecordFits(w, id);
        RecordHasHistory(w, id);
        RecordTransfers(w, w', id);
      }
    }
  }

  lemma OpenedRecord(w: World, w': World, id: string)
    requires IdsFit(w) && id !in w.created && w'.pending.None? && w'.unsent == w.unsent
    requires w'.history == w.history[id := []] && w'.announced == w.announced[id := []]
    ensures RecordFits(w', id)
  {
    StartIsNotOver();
    hide GameOver, Start, IsGameId;
  }

  lemma OpenedSlots(w: World, w': World, j: nat, slot: Slot)
    requires WorldFits(w) && Opened(w, w', j, slot) && w.pending.None?
    ensures SlotsFit(w') && PendingFits(w')
  {
    var t :| slot.gameId == GameId(t, w.m.counter);
    NewId(w, t);
    assert Shows(w'.history, slot);
    hide IsGameId, GameId, Start, Play, RecordsFit;
  }

  lemma RequestOpens(w: World, fd: int, name: Option<string>, r: Readings) returns (j: nat, slot: Slot)
    requires Sized(w.m) && Add(w.m, fd, name, r).1.Started?
    ensures Opened(w, AfterRequest(w, fd, name, r), j, slot)
  {
    var i := First(w.m.waiting, Waits());
    j := First(w.m.games, Free());
    slot := NewSlot(GameId(r.idTime, w.m.counter), fd, name.value, w.m.waiting[i], r);
    NothingEnds(w.m.games, w.m.games[j := slot], |w.m.games|);
  }

  lemma RequestFits(w: World, fd: int, name: Option<string>, r: Readings)
    requires WorldFits(w) && w.pending.None?
    ensures WorldFits(AfterRequest(w, fd, name, r))
  {
    AddKeepsCounts(w.m, fd, name, r);
    hide IdsFit, RecordsFit, SlotsFit, PendingFits;
    if Add(w.m, fd, name, r).1.Started? {
      var j, slot := RequestOpens(w, fd, name, r);
      hide Opened, Add;
      OpenedIds(w, AfterRequest(w, fd, name, r), j, slot);
      OpenedRecords(w, AfterRequest(w, fd, name, r), j, slot);
      OpenedSlots(w, AfterRequest(w, fd, name, r), j, slot);
    } else {
      QuietStep(w, Add(w.m, fd, name, r).0);
    }
  }

  // ----- all runs

  /** Every step of the server keeps the invariant, wherever the timer ticks fall. */
  lemma StepFits(w: World, e: Event)
    requires WorldFits(w) && Enabled(w, e)
    ensures WorldFits(Next(w, e))
  {
    hide WorldFits, Become, AfterRequest, AfterFind, AfterMake, AfterFinish;
    match e
    case Request(fd, name, r) => RequestFits(w, fd, name, r);
    case CancelRequest(fd) => CancelFits(w, fd);
    case Resignation(fd) => ResignFits(w, fd);
    case Disconnection(fd) => DisconnectFits(w, fd);
    case TimerTick(now) => TickFits(w, now);
    case MoveFind(fd, from, to) => FindFits(w, fd, from, to);
    case MoveMake => MakeFits(w);
    case MoveStamp(now) => StampFits(w, now);
    case MoveFinish => FinishFits(w);
    case MoveUnsent => UnsentFits(w);
  }

  ghost predicate IsRun(w: World, es: seq<Event>)
    decreases |es|
  {
    es == [] || (Enabled(w, es[0]) && IsRun(Next(w, es[0]), es[1..]))
  }

  ghost function After(w: World, es: seq<Event>): World
    requires IsRun(w, es)
    decreases |es|
  {
    if es == [] then w else After(Next(w, es[0]), es[1..])
  }

  lemma {:induction false} RunFits(w: World, es: seq<Event>)
    requires WorldFits(w) && IsRun(w, es)
    ensures WorldFits(After(w, es))
    decreases |es|
  {
    hide WorldFits, Next;
    if es != [] {
      StepFits(w, es[0]);
      RunFits(Next(w, es[0]), es[1..]);
    }
  }

  lemma InitialFits(blankWaiter: Waiter, blankSlot: Slot)
    requires !blankWaiter.active && !blankSlot.active
    ensures WorldFits(Initial(blankWaiter, blankSlot))
  {
    var w := Initial(blankWaiter, blankSlot);
    TotalZero(w.m.waiting, WaitingWeight());
    TotalZero(w.m.games, PlayingWeight());
  }

  // ----- what follows for every run

  ghost predicate Reachable(w: World) {
    exists blankWaiter: Waiter, blankSlot: Slot, es ::
      !blankWaiter.active && !blankSlot.active && IsRun(Initial(blankWaiter, blankSlot), es)
      && w == After(Initial(blankWaiter, blankSlot), es)
  }

  lemma ReachableFits(w: World)
    requires Reachable(w)
    ensures WorldFits(w)
  {
    hide WorldFits;
    var blankWaiter: Waiter, blankSlot: Slot, es :|
      !blankWaiter.active && !blankSlot.active && IsRun(Initial(blankWaiter, blankSlot), es)
      && w == After(Initial(blankWaiter, blankSlot), es);
    InitialFits(blankWaiter, blankSlot);
    RunFits(Initial(blankWaiter, blankSlot), es);
  }

  /** Under every interleaving: the counters count the active slots, at most one player waits,
      every game created is ended at most once, and those not ended are the active ones. */
  lemma BooksBalance(w: World)
    requires Reachable(w)
    ensures w.m.waitingCount == Total(w.m.waiting, WaitingWeight()) <= 1
    ensures w.m.gameCount == Total(w.m.games, PlayingWeight()) == |w.created| - |w.ended|
    ensures NoDuplicates(w.created) && NoDuplicates(w.ended) && forall id :: id in w.ended ==> id in w.created
  {
    hide RecordsFit, SlotsFit, PendingFits, IsGameId;
    ReachableFits(w);
  }

  /** The slot that the move handler points to is never given to another game, and `remove_game`
      at its end removes that very game or, if the clock ran out in between, nothing. */
  lemma HandlerKeepsItsSlot(w: World)
    requires Reachable(w) && w.pending.Some?
    ensures var p := w.pending.value;
            && p.slot < |w.m.games| && w.m.games[p.slot].gameId == p.gameId
            && RemoveGame(w.m, p.gameId) ==
                 if w.m.games[p.slot].active then (EndGame(w.m, p.slot), true) else (w.m, false)
  {
    ReachableFits(w);
    RemovesOwnGame(w);
  }

  /** The moves made in any game ever created, running or ended, form a legal run from the start
      position, so every position of the game satisfies the invariant of the rules. As long as
      every reply was sent, none was accepted in a position in which the game was over, and there are at most
      12,700 of them. */
  lemma ServerGamesAreChess(w: World, id: string)
    requires Reachable(w) && id in w.created
    ensures id in w.history && LegalRun(Start(), w.history[id]) && Inv(Play(Start(), w.history[id]))
    ensures id !in w.unsent ==> AcceptedRun(Start(), w.history[id]) && |w.history[id]| <= 12700
  {
    ReachableFits(w);
    assert RecordFits(w, id);
    hide AcceptedRun, LegalRun, Play, Inv, Start;
    ReachableInv(w.history[id]);
    if id !in w.unsent { EveryGameEnds(w.history[id]); }
  }

  /** Every running game stands in the position that its moves reach. */
  lemma BoardsShowTheGames(w: World, i: nat)
    requires Reachable(w) && i < |w.m.games| && w.m.games[i].active
    ensures var id := w.m.games[i].gameId;
            id in w.created && id in w.history && w.m.games[i].position == Play(Start(), w.history[id])
  {
    ReachableFits(w);
  }

  /** Between two requests all moves of a game, running or ended, have been broadcast exactly if
      every reply in it could be sent. */
  lemma AllMovesAreBroadcast(w: World, id: string)
    requires Reachable(w) && w.pending.None? && id in w.created
    ensures id in w.history && id in w.announced
    ensures w.announced[id] == w.history[id] <==> id !in w.unsent
  {
    ReachableFits(w);
    assert RecordFits(w, id);
    hide MovesFit, Play, Start, GameOver;
  }

  /** Between two requests a game that is still running is not over by the rules, unless a reply in
      it could not be sent. */
  lemma RunningMeansNotOver(w: World, i: nat)
    requires Reachable(w) && w.pending.None? && i < |w.m.games| && w.m.games[i].active
    ensures w.m.games[i].gameId !in w.unsent ==> !GameOver(w.m.games[i].position)
  {
    ReachableFits(w);
    hide WorldFits, Reachable, GameOver;
    RunningIsNotOver(w, i);
  }

  /** So a game that is over has been entered as ended, and no slot runs it any more. */
  lemma OverMeansEnded(w: World, id: string)
    requires Reachable(w) && w.pending.None? && id in w.created && id !in w.unsent
    requires id in w.history && GameOver(Play(Start(), w.history[id]))
    ensures id in w.ended
    ensures forall i :: 0 <= i < |w.m.games| && w.m.games[i].active ==> w.m.games[i].gameId != id
  {
    ReachableFits(w);
    assert RecordFits(w, id);
    hide MovesFit, Play, Start, GameOver;
  }

  lemma HeldRecord(w: World)
    requires WorldFits(w) && AtStage(w, Stamped)
    ensures var id := w.pending.value.gameId;
            && id in w.history && id in w.announced && w.history[id] != [] && |w.announced[id]| < |w.history[id]|
            && (id in w.unsent || w.announced[id] == w.history[id][..|w.history[id]| - 1])
  {
    assert RecordFits(w, w.pending.value.gameId);
    hide IdsFit, SlotsFit, MovesFit, Play, Start, GameOver;
  }

  lemma FinishIs(w: World)
    requires AtStage(w, Stamped)
    ensures var w', id := Next(w, MoveFinish), w.pending.value.gameId;
            && w'.m == FinishMove(w.m, w.pending.value.slot) && w'.history == w.history && w'.pending.None?
            && w'.created == w.created && w'.unsent == w.unsent
            && (id in w.history && id in w.announced && w.history[id] != [] ==>
                  w'.announced == w.announced[id := w.announced[id] + [w.history[id][|w.history[id]| - 1]]])
  {
    hide FinishMove, EndedIds;
  }

  lemma UnsentIsGiveUp(w: World)
    requires AtStage(w, Stamped)
    ensures Next(w, MoveUnsent) == GiveUp(w)
  {
    hide AfterRequest, AfterFind, AfterMake, AfterFinish, Become, GiveUp;
  }

  /** What the last step does to a running game: judged, it runs on exactly if it is not over, and
      its last move is broadcast; without a reply it runs on, over or not, and the move is not. */
  lemma LastStepDecides(w: World)
    requires Reachable(w) && AtStage(w, Stamped) && w.m.games[w.pending.value.slot].active
    ensures var i, g, id := w.pending.value.slot, w.m.games[w.pending.value.slot], w.pending.value.gameId;
            var judged, unsent := Next(w, MoveFinish), Next(w, MoveUnsent);
            && id in w.history && w.history[id] != [] && id in w.announced
            && |judged.m.games| == |w.m.games| && judged.m.games[i] == g.(active := !GameOver(g.position))
            && id in judged.announced && judged.announced[id] == w.announced[id] + [w.history[id][|w.history[id]| - 1]]
            && unsent.m == w.m && unsent.announced == w.announced && unsent.history == w.history
            && |w.announced[id]| < |w.history[id]|
  {
    ReachableFits(w);
    FinishedSlot(w);
    HeldRecord(w);
    FinishIs(w);
    UnsentIsGiveUp(w);
    hide WorldFits, Reachable, Next, Become, GameOver, FinishMove, AnnouncedFits, EndedIds;
  }

  /** Whatever is played and however the steps interleave: right after a timer tick at `now`,
      every active game was first checked after `now` - 2 * 600 s - 100 ms. */
  lemma NoGameOutlivesItsClocks(w: World, now: int, i: nat)
    requires Reachable(w) && Enabled(w, TimerTick(now)) && i < |w.m.games| && Tick(w.m, now).games[i].active
    ensures w.m.games[i].gameId in w.born && now < w.born[w.m.games[i].gameId] + 2 * TIME_LIMIT_MS + TICK_MS
  {
    ReachableFits(w);
    TickShrinks(w.m, now);
    hide Counted, IdsFit, RecordsFit, PendingFits, Play, Start, Tick;
    var g := w.m.games[i];
    if now >= w.born[g.gameId] + 2 * TIME_LIMIT_MS + TICK_MS { OldGamesEnd(g, now, w.born[g.gameId]); }
  }

  /** A request never finds the queue full. */
  lemma QueueIsNeverFull(w: World, fd: int, name: string, r: Readings)
    requires Reachable(w)
    ensures Add(w.m, fd, Some(name), r).1 != Error("Matching queue is full")
  {
    ReachableFits(w);
    hide IdsFit, RecordsFit, SlotsFit, PendingFits;
    RequestIsAnswered(w.m, fd, name, r);
  }

  // ----- players in one place

  lemma PlacesAfterShrink(m: Manager, m': Manager, f: int)
    requires Shrinks(m.games, m'.games) && m'.waiting == m.waiting
    ensures Places(m', f) <= Places(m, f)
  {
    TotalAtMost(m'.games, m.games, SeatsWeight(f));
  }

  lemma PlacesAfterCancel(m: Manager, fd: int, f: int)
    ensures Places(Cancel(m, fd).0, f) <= Places(m, f)
  {
    var i := First(m.waiting, WaitsAs(fd));
    if i < |m.waiting| { PlacesAfterDrop(m, i, f); }
  }

  lemma PlacesAfterResign(m: Manager, fd: int, f: int)
    ensures Places(Resign(m, fd).0, f) <= Places(m, f)
  {
    PlacesAfterShrink(m, Resign(m, fd).0, f);
  }

  lemma PlacesAfterFinish(m: Manager, i: nat, f: int)
    requires i < |m.games|
    ensures Places(FinishMove(m, i), f) <= Places(m, f)
  {
    hide Judge;
    PlacesAfterShrink(m, FinishMove(m, i), f);
  }

  lemma PlacesAfterTick(m: Manager, now: int, f: int)
    requires m.games != []
    ensures Places(Tick(m, now), f) <= Places(m, f)
  {
    TickShrinks(m, now);
    TickGames(m, |m.games|, now, 0);
    hide TickUpTo;
    PlacesAfterShrink(m, Tick(m, now), f);
  }

  lemma PlacesAfterMake(w: World, f: int)
    requires AtStage(w, Found)
    ensures Places(AfterMake(w).m, f) <= Places(w.m, f)
  {
    hide CheckMove, Step;
    PlacesAfterShrink(w.m, AfterMake(w).m, f);
  }

  /** No step but a request gives anybody a place. */
  lemma PlacesDoNotGrow(w: World, e: Event, f: int)
    requires Sized(w.m) && Enabled(w, e) && !e.Request?
    ensures Places(Next(w, e).m, f) <= Places(w.m, f)
  {
    hide Places, Cancel, Resign, Tick, FinishMove, AfterMake, EndedIds;
    match e
    case CancelRequest(fd) => PlacesAfterCancel(w.m, fd, f);
    case Resignation(fd) => PlacesAfterResign(w.m, fd, f);
    case Disconnection(fd) => PlacesAfterDisconnect(w.m, fd, f);
    case TimerTick(now) => PlacesAfterTick(w.m, now, f);
    case MoveFind(fd, from, to) =>
    case MoveMake => PlacesAfterMake(w, f);
    case MoveStamp(now) => PlacesAfterShrink(w.m, StampMove(w.m, w.pending.value.slot, now), f);
    case MoveFinish => PlacesAfterFinish(w.m, w.pending.value.slot, f);
    case MoveUnsent =>
  }

  lemma PlacesAfterDisconnect(m: Manager, fd: int, f: int)
    ensures Places(Disconnect(m, fd).0, f) <= Places(m, f)
  {
    PlacesAfterCancel(m, fd, f);
    PlacesAfterResign(m, fd, f);
  }

  /** A run in which only idle players request a game. */
  ghost predicate IdleRequests(w: World, es: seq<Event>)
    requires IsRun(w, es)
    decreases |es|
  {
    es != [] ==> (es[0].Request? ==> Places(w.m, es[0].fd) == 0) && IdleRequests(Next(w, es[0]), es[1..])
  }

  lemma PlacesAfterRequest(w: World, e: Event, f: int)
    requires Enabled(w, e) && e.Request?
    ensures Places(Next(w, e).m, f) <= Places(w.m, f) + One(f == e.fd)
  {
    hide Places, Add, EndedIds;
    PlacesAfterAdd(w.m, e.fd, e.name, e.r, f);
  }

  lemma DistinctStep(w: World, e: Event)
    requires Reachable(w) && Enabled(w, e) && Distinct(w.m) && (e.Request? ==> Places(w.m, e.fd) == 0)
    ensures Distinct(Next(w, e).m)
  {
    ReachableFits(w);
    assert Sized(w.m);
    hide Places, Next, Enabled, Counted, IdsFit, RecordsFit, SlotsFit, PendingFits, Reachable;
    forall f ensures Places(Next(w, e).m, f) <= 1 {
      if e.Request? {
        PlacesAfterRequest(w, e, f);
      } else {
        PlacesDoNotGrow(w, e, f);
      }
    }
  }

  lemma {:induction false} ReachableStep(w: World, e: Event)
    requires Reachable(w) && Enabled(w, e)
    ensures Reachable(Next(w, e))
  {
    hide Next, Enabled;
    var blankWaiter: Waiter, blankSlot: Slot, es :|
      !blankWaiter.active && !blankSlot.active && IsRun(Initial(blankWaiter, blankSlot), es)
      && w == After(Initial(blankWaiter, blankSlot), es);
    AfterAppend(Initial(blankWaiter, blankSlot), es, e);
    assert IsRun(Initial(blankWaiter, blankSlot), es + [e]);
  }

  lemma {:induction false} AfterAppend(w: World, es: seq<Event>, e: Event)
    requires IsRun(w, es) && Enabled(After(w, es), e)
    ensures IsRun(w, es + [e]) && After(w, es + [e]) == Next(After(w, es), e)
    decreases |es|
  {
    hide Next, Enabled;
    if es == [] {
      assert [] + [e] == [e] && [e][1..] == [];
    } else {
      assert (es + [e])[1..] == es[1..] + [e];
      AfterAppend(Next(w, es[0]), es[1..], e);
    }
  }

  /** If only idle players request games, nobody ever sits in two places. */
  lemma {:induction false} PlayersStayApart(w: World, es: seq<Event>)
    requires Reachable(w) && Distinct(w.m) && IsRun(w, es) && IdleRequests(w, es)
    ensures Distinct(After(w, es).m)
    decreases |es|
  {
    hide Next, Enabled, Reachable, Distinct;
    if es != [] {
      DistinctStep(w, es[0]);
      ReachableStep(w, es[0]);
      PlayersStayApart(Next(w, es[0]), es[1..]);
    }
  }

  lemma PlayersStartApart(blankWaiter: Waiter, blankSlot: Slot)
    requires !blankWaiter.active && !blankSlot.active
    ensures Distinct(Initial(blankWaiter, blankSlot).m) && Reachable(Initial(blankWaiter, blankSlot))
  {
    var w := Initial(blankWaiter, blankSlot);
    forall f ensures Places(w.m, f) <= 1 {
      TotalZero(w.m.waiting, WaitsAsWeight(f));
      TotalZero(w.m.games, SeatsWeight(f));
    }
    assert IsRun(w, []) && After(w, []) == w;
  }

  /** From the start of the server on: if only idle players request games, nobody ever sits in
      two places. */
  lemma {:induction false} IdlePlayersStayApart(blankWaiter: Waiter, blankSlot: Slot, es: seq<Event>)
    requires !blankWaiter.active && !blankSlot.active
    requires IsRun(Initial(blankWaiter, blankSlot), es) && IdleRequests(Initial(blankWaiter, blankSlot), es)
    ensures Distinct(After(Initial(blankWaiter, blankSlot), es).m)
  {
    hide *;
    PlayersStartApart(blankWaiter, blankSlot);
    PlayersStayApart(Initial(blankWaiter, blankSlot), es);
  }
}
