/** Runs of the server: the event loop and the timer thread, interleaved at the mutex.

    The event loop handles one message at a time. Handling a move takes four steps (find the
    game; check and make the move; stamp the time; reply, judge, broadcast and remove), and timer
    ticks may fall between any two of them, because the handler works on the game outside the
    mutex. When the reply to the player cannot be sent, the handler gives up before the last
    step: the move has been made, but it is neither judged nor broadcast. */
module ServerRun {
  import opened Pieces
  import opened ChessBoard
  import opened Strings
  import opened Matching
  import opened Clocks

  datatype Stage = Found | Made | Stamped

  /** The pointer to a slot that the move handler holds between its steps. */
  datatype Pending = Pending(slot: nat, gameId: string, fd: int, from: string, to: string, stage: Stage)

  /** The server, with a log of games created and ended, and for every game ever created the
      moves made, the moves broadcast and the time of its first check; `unsent` are the games in
      which a reply could not be sent. */
  datatype World = World(
    m: Manager, pending: Option<Pending>,
    created: seq<string>, ended: seq<string>,
    history: map<string, seq<Move>>, announced: map<string, seq<Move>>, unsent: set<string>,
    born: map<string, int>)

  datatype Event =
    | Request(fd: int, name: Option<string>, r: Readings)
    | CancelRequest(fd: int)
    | Resignation(fd: int)
    | Disconnection(fd: int)
    | TimerTick(now: int)
    | MoveFind(fd: int, from: string, to: string)
    | MoveMake
    | MoveStamp(now: int)
    | MoveFinish
    | MoveUnsent

  function Initial(blankWaiter: Waiter, blankSlot: Slot): World {
    World(Manager(seq(MAX_WAITING_PLAYERS, _ => blankWaiter), seq(MAX_ACTIVE_GAMES, _ => blankSlot), 0, 0, 1),
          None, [], [], map[], map[], {}, map[])
  }

  predicate AtStage(w: World, stage: Stage) {
    w.pending.Some? && w.pending.value.stage == stage && w.pending.value.slot < |w.m.games|
  }

  /** Which events can happen. Two processed ticks are less than 2^31 ms apart. */
  predicate Enabled(w: World, e: Event) {
    match e
    case TimerTick(now) =>
      forall i :: 0 <= i < |w.m.games| && w.m.games[i].active ==> now - w.m.games[i].lastCheck < INT32_END
    case MoveMake => AtStage(w, Found)
    case MoveStamp(_) => AtStage(w, Made)
    case MoveFinish => AtStage(w, Stamped)
    case MoveUnsent => AtStage(w, Stamped)
    case _ => w.pending.None?
  }

  predicate Ends(a: Slot, b: Slot) {
    a.active && (!b.active || b.gameId != a.gameId)
  }

  /** The games among the first `n` slots that a step ends. */
  function EndedIds(a: seq<Slot>, b: seq<Slot>, n: nat): seq<string>
    requires n <= |a| == |b|
  {
    if n == 0 then []
    else EndedIds(a, b, n - 1) + if Ends(a[n - 1], b[n - 1]) then [a[n - 1].gameId] else []
  }

  ghost function Become(w: World, m: Manager): World {
    w.(m := m, ended := w.ended + if |m.games| == |w.m.games| then EndedIds(w.m.games, m.games, |m.games|) else [])
  }

  ghost function AfterRequest(w: World, fd: int, name: Option<string>, r: Readings): World {
    var (m, result) := Add(w.m, fd, name, r);
    var w' := Become(w, m);
    if result.Started? then
      w'.(created := w.created + [result.gameId], history := w.history[result.gameId := []],
          announced := w.announced[result.gameId := []], born := w.born[result.gameId := r.checkMs])
    else w'
  }

  ghost function AfterFind(w: World, fd: int, from: string, to: string): World {
    var i := FindGame(w.m, fd);
    if i < |w.m.games| then w.(pending := Some(Pending(i, w.m.games[i].gameId, fd, from, to, Found))) else w
  }

  ghost function AfterMake(w: World): World
    requires AtStage(w, Found)
  {
    var p := w.pending.value;
    var check := CheckMove(w.m.games[p.slot], p.fd, p.from, p.to);
    if check.Refused? then w.(pending := None)
    else
      var past := if p.gameId in w.history then w.history[p.gameId] else [];
      Become(w, MakeMove(w.m, p.slot, check.move))
        .(pending := Some(p.(stage := Made)), history := w.history[p.gameId := past + [check.move]])
  }

  /** Judged, broadcast, and removed if it is over. */
  ghost function AfterFinish(w: World): World
    requires AtStage(w, Stamped)
  {
    var id := w.pending.value.gameId;
    var w' := Become(w, FinishMove(w.m, w.pending.value.slot)).(pending := None);
    if id in w.history && id in w.announced && w.history[id] != []
    then w'.(announced := w.announced[id := w.announced[id] + [w.history[id][|w.history[id]| - 1]]])
    else w'
  }

  /** Nothing further happens to a move whose reply could not be sent. */
  function GiveUp(w: World): World
    requires AtStage(w, Stamped)
  {
    w.(unsent := w.unsent + {w.pending.value.gameId}, pending := None)
  }

  ghost function Next(w: World, e: Event): World
    requires Enabled(w, e)
  {
    match e
    case Request(fd, name, r) => AfterRequest(w, fd, name, r)
    case CancelRequest(fd) => Become(w, Cancel(w.m, fd).0)
    case Resignation(fd) => Become(w, Resign(w.m, fd).0)
    case Disconnection(fd) => Become(w, Disconnect(w.m, fd).0)
    case TimerTick(now) => Become(w, Tick(w.m, now))
    case MoveFind(fd, from, to) => AfterFind(w, fd, from, to)
    case MoveMake => AfterMake(w)
    case MoveStamp(now) =>
      Become(w, StampMove(w.m, w.pending.value.slot, now)).(pending := Some(w.pending.value.(stage := Stamped)))
    case MoveFinish => AfterFinish(w)
    case MoveUnsent => GiveUp(w)
  }

  // ----- game ids

  predicate IsGameId(id: string, below: nat) {
    exists c :: 0 <= c < below && |id| >= 1 + |Dec(c)| && id[|id| - |Dec(c)| - 1..] == "_" + Dec(c)
  }

  lemma {:induction false} GameIdEnds(t: nat, c: nat)
    ensures var id := GameId(t, c); |id| >= 1 + |Dec(c)| && id[|id| - |Dec(c)| - 1..] == "_" + Dec(c)
    ensures GameId(t, c) == "game_" + Dec(t % 100000) + ("_" + Dec(c))
  {
    var head := "game_" + Dec(t % 100000);
    assert GameId(t, c) == head + ("_" + Dec(c));
  }

  /** The counter makes every id new. */
  lemma GameIdIsNew(id: string, t: nat, c: nat)
    requires IsGameId(id, c)
    ensures id != GameId(t, c)
  {
    GameIdEnds(t, c);
    if id == GameId(t, c) {
      var k :| 0 <= k < c && |id| >= 1 + |Dec(k)| && id[|id| - |Dec(k)| - 1..] == "_" + Dec(k);
      SameTail(id, Dec(k), Dec(c));
      DecIsInjective(k, c);
    }
  }

  lemma SeparatorInside(id: string, a: string, b: string)
    requires |a| < |b|
    requires |id| >= 1 + |a| && id[|id| - |a| - 1..] == "_" + a
    requires |id| >= 1 + |b| && id[|id| - |b| - 1..] == "_" + b
    ensures b[|b| - |a| - 1] == '_'
  {
    var s, t := id[|id| - |a| - 1..], id[|id| - |b| - 1..];
    assert s[0] == '_' && t[|b| - |a|] == id[|id| - |a| - 1] == s[0];
    assert t[|b| - |a|] == b[|b| - |a| - 1];
  }

  /** The number at the end of an id is determined by the id: no digit is a separator. */
  lemma SameTail(id: string, a: string, b: string)
    requires AllDigits(a) && AllDigits(b)
    requires |id| >= 1 + |a| && id[|id| - |a| - 1..] == "_" + a
    requires |id| >= 1 + |b| && id[|id| - |b| - 1..] == "_" + b
    ensures a == b
  {
    if |a| < |b| {
      SeparatorInside(id, a, b);
    } else if |b| < |a| {
      SeparatorInside(id, b, a);
    } else {
      assert ("_" + a)[1..] == a && ("_" + b)[1..] == b;
    }
  }
}
