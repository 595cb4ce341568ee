/** The match manager of server/match_manager.c and the handlers that change it, on values:
    what each locked section computes. The loops over the slots are in MatchManager.dfy. */
module Matching {
  import opened Pieces
  import opened ChessBoard
  import opened Rules
  import opened Games
  import opened Strings
  import opened Notation

  const MAX_WAITING_PLAYERS: nat := 100
  const MAX_ACTIVE_GAMES: nat := 50
  const TIME_LIMIT_MS: int := 600000
  const TICK_MS: int := 100

  datatype Waiter = Waiter(fd: int, id: string, since: nat, active: bool)

  datatype Slot = Slot(
    gameId: string,
    whiteFd: int, blackFd: int, whiteId: string, blackId: string,
    startTime: nat, active: bool, position: Position,
    limit: int, whiteTime: int, blackTime: int, lastMove: int, lastCheck: int)

  datatype Manager = Manager(waiting: seq<Waiter>, games: seq<Slot>, waitingCount: int, gameCount: int, counter: nat)

  /** The index of the first element that satisfies `f`, or the length. */
  function First<T>(s: seq<T>, f: T -> bool): (i: nat)
    ensures i <= |s| && (i < |s| ==> f(s[i])) && forall j :: 0 <= j < i ==> !f(s[j])
  {
    if s == [] || f(s[0]) then 0
    else
      var i := 1 + First(s[1..], f);
      assert forall j :: 0 < j < i ==> s[j] == s[1..][j - 1];
      i
  }

  lemma {:induction false} FirstIs<T>(s: seq<T>, f: T -> bool, i: nat)
    requires i <= |s| && (i < |s| ==> f(s[i])) && forall j :: 0 <= j < i ==> !f(s[j])
    ensures First(s, f) == i
  {
  }

  function Waits(): Waiter -> bool { (w: Waiter) => w.active }

  function WaitsNot(): Waiter -> bool { (w: Waiter) => !w.active }

  function WaitsAs(fd: int): Waiter -> bool { (w: Waiter) => w.active && w.fd == fd }

  function Free(): Slot -> bool { (g: Slot) => !g.active }

  function Seats(fd: int): Slot -> bool { (g: Slot) => g.active && (g.whiteFd == fd || g.blackFd == fd) }

  function Named(id: string): Slot -> bool { (g: Slot) => g.active && g.gameId == id }

  // ----- slots leaving the active state

  function DropWaiter(m: Manager, i: nat): Manager
    requires i < |m.waiting|
  {
    m.(waiting := m.waiting[i := m.waiting[i].(active := false)], waitingCount := m.waitingCount - 1)
  }

  function EndGame(m: Manager, i: nat): Manager
    requires i < |m.games|
  {
    m.(games := m.games[i := m.games[i].(active := false)], gameCount := m.gameCount - 1)
  }

  // ----- add_player_to_matching

  /** The clock readings taken while a request is handled, in seconds and milliseconds. */
  datatype Readings = Readings(coin: nat, idTime: nat, start: nat, moveMs: int, checkMs: int, wait: nat)

  datatype MatchResult =
    | Error(message: string)
    | Waiting
    | Started(gameId: string, team: Team, opponentFd: int, opponentName: string)

  /** `generate_game_id`. */
  function GameId(time: nat, counter: nat): string {
    "game_" + (Dec(time % 100000) + ("_" + Dec(counter)))
  }

  function NewSlot(id: string, fd: int, name: string, w: Waiter, r: Readings): Slot {
    var white := r.coin % 2 == 0;
    Slot(id,
         if white then fd else w.fd, if white then w.fd else fd,
         if white then name else w.id, if white then w.id else name,
         r.start, true, Start(),
         TIME_LIMIT_MS, TIME_LIMIT_MS, TIME_LIMIT_MS, r.moveMs, r.checkMs)
  }

  function Add(m: Manager, fd: int, name: Option<string>, r: Readings): (Manager, MatchResult) {
    if name.None? then (m, Error("Player ID is null"))
    else
      var i := First(m.waiting, Waits());
      if i < |m.waiting| then
        var j := First(m.games, Free());
        if j < |m.games| then
          var w := m.waiting[i];
          var slot := NewSlot(GameId(r.idTime, m.counter), fd, name.value, w, r);
          (DropWaiter(m.(games := m.games[j := slot], gameCount := m.gameCount + 1, counter := m.counter + 1), i),
           Started(slot.gameId, if r.coin % 2 == 0 then White else Black, w.fd, w.id))
        else (m, Error("No available game slots"))
      else
        var k := First(m.waiting, WaitsNot());
        if k < |m.waiting| then
          (m.(waiting := m.waiting[k := Waiter(fd, name.value, r.wait, true)], waitingCount := m.waitingCount + 1),
           Waiting)
        else (m, Error("Matching queue is full"))
  }

  // ----- leaving

  /** `remove_player_from_matching`. */
  function Cancel(m: Manager, fd: int): (Manager, bool) {
    var i := First(m.waiting, WaitsAs(fd));
    if i < |m.waiting| then (DropWaiter(m, i), true) else (m, false)
  }

  /** `find_game_by_player_fd`: the slot, or the number of slots. */
  function FindGame(m: Manager, fd: int): nat {
    First(m.games, Seats(fd))
  }

  /** `remove_game`. */
  function RemoveGame(m: Manager, id: string): (Manager, bool) {
    var i := First(m.games, Named(id));
    if i < |m.games| then (EndGame(m, i), true) else (m, false)
  }

  /** Who is told, and who has won, when `fd` leaves a game. */
  datatype Departure = NotPlaying | LeftQueue | LeftGame(opponentFd: int, winner: Team)

  function Leave(g: Slot, fd: int): Departure {
    if g.whiteFd == fd then LeftGame(g.blackFd, Black) else LeftGame(g.whiteFd, White)
  }

  /** `handle_resign_message`. */
  function Resign(m: Manager, fd: int): (Manager, Departure) {
    var i := First(m.games, Seats(fd));
    if i < |m.games| then (EndGame(m, i), Leave(m.games[i], fd)) else (m, NotPlaying)
  }

  /** `handle_player_disconnect`. */
  function Disconnect(m: Manager, fd: int): (Manager, Departure) {
    var i := First(m.waiting, WaitsAs(fd));
    if i < |m.waiting| then (DropWaiter(m, i), LeftQueue)
    else
      var j := First(m.games, Seats(fd));
      if j < |m.games| then (EndGame(m, j), Leave(m.games[j], fd)) else (m, NotPlaying)
  }

  // ----- check_game_timeouts

  /** The cast to `int32_t`. */
  function Int32(n: int): int {
    (n + 0x8000_0000) % 0x1_0000_0000 - 0x8000_0000
  }

  /** One slot at time `now`: the side to move is charged for the time since the last check,
      unless that is under 100 ms; at zero the game ends. */
  function TickSlot(g: Slot, now: int): Slot {
    if !g.active || now - g.lastCheck < TICK_MS then g
    else
      var elapsed := Int32(now - g.lastCheck);
      if g.position.side.White? then
        var left := g.whiteTime - elapsed;
        g.(whiteTime := if left <= 0 then 0 else left, lastCheck := now, active := left > 0)
      else
        var left := g.blackTime - elapsed;
        g.(blackTime := if left <= 0 then 0 else left, lastCheck := now, active := left > 0)
  }

  /** The winner announced when the tick ends the game. */
  function TimeoutWinner(g: Slot, now: int): Option<Team> {
    if g.active && !TickSlot(g, now).active then Some(g.position.side.Opponent()) else None
  }

  function TickOne(m: Manager, i: nat, now: int): Manager
    requires i < |m.games|
  {
    var g := TickSlot(m.games[i], now);
    m.(games := m.games[i := g], gameCount := if m.games[i].active && !g.active then m.gameCount - 1 else m.gameCount)
  }

  /** The first `n` slots. */
  function TickUpTo(m: Manager, n: nat, now: int): (r: Manager)
    requires n <= |m.games|
    ensures |r.games| == |m.games|
  {
    if n == 0 then m else TickOne(TickUpTo(m, n - 1, now), n - 1, now)
  }

  function Tick(m: Manager, now: int): Manager {
    TickUpTo(m, |m.games|, now)
  }

  // ----- handle_move_message, by its steps

  function FdAt(g: Slot, t: Team): int {
    if t.White? then g.whiteFd else g.blackFd
  }

  function SeatOf(g: Slot, fd: int): Team {
    if g.whiteFd == fd then White else Black
  }

  datatype MoveCheck = Refused(message: string) | Playable(move: Move)

  /** Turn, coordinates and legality. */
  ghost function CheckMove(g: Slot, fd: int, from: string, to: string): MoveCheck {
    if g.position.side != SeatOf(g, fd) then Refused("It's not your turn")
    else if ParseCoordinate(from).None? then Refused("Invalid source coordinate")
    else if ParseCoordinate(to).None? then Refused("Invalid destination coordinate")
    else
      var m := Move(ParseCoordinate(from).value, ParseCoordinate(to).value);
      if LegalMove(g.position, m) then Playable(m) else Refused("Illegal move")
  }

  function MakeMove(m: Manager, i: nat, move: Move): Manager
    requires i < |m.games|
  {
    m.(games := m.games[i := m.games[i].(position := Step(m.games[i].position, move))])
  }

  function StampMove(m: Manager, i: nat, now: int): Manager
    requires i < |m.games|
  {
    m.(games := m.games[i := m.games[i].(lastMove := now)])
  }

  datatype EndType = Unknown | Mate | Stale | Draw

  datatype Verdict = Verdict(ends: bool, winner: Option<Team>, how: EndType, checked: Option<Team>)

  /** The end conditions, in the order in which the handler tests them. */
  ghost function Judge(p: Position): Verdict {
    var checked := if InCheck(p.board, p.side) then Some(p.side) else None;
    if Checkmate(p) then Verdict(true, Some(p.side.Opponent()), Mate, checked)
    else if Stalemate(p) then Verdict(true, None, Stale, checked)
    else if FiftyMoves(p) then Verdict(true, None, Draw, checked)
    else Verdict(false, None, Unknown, checked)
  }

  /** The last step: the game that the moved slot names is removed if it is over. */
  ghost function FinishMove(m: Manager, i: nat): Manager
    requires i < |m.games|
  {
    if Judge(m.games[i].position).ends then RemoveGame(m, m.games[i].gameId).0 else m
  }
}
