/** What the operations of the match manager keep: the counters, the queue, and who sits where. */
module MatchingLaws {
  import opened Pieces
  import opened Games
  import opened Matching

  // ----- totals over slots

  function Total<T>(s: seq<T>, w: T -> int): int {
    if s == [] then 0 else Total(s[..|s| - 1], w) + w(s[|s| - 1])
  }

  lemma {:induction false} TotalUpdate<T>(s: seq<T>, w: T -> int, i: nat, x: T)
    requires i < |s|
    ensures Total(s[i := x], w) == Total(s, w) - w(s[i]) + w(x)
  {
    var t := s[i := x];
    if i == |s| - 1 {
      assert t[..|s| - 1] == s[..|s| - 1];
    } else {
      assert t[..|s| - 1] == s[..|s| - 1][i := x];
      TotalUpdate(s[..|s| - 1], w, i, x);
    }
  }

  lemma {:induction false} TotalAtMost<T>(s: seq<T>, t: seq<T>, w: T -> int)
    requires |s| == |t| && forall i :: 0 <= i < |s| ==> w(s[i]) <= w(t[i])
    ensures Total(s, w) <= Total(t, w)
  {
    if s != [] { TotalAtMost(s[..|s| - 1], t[..|t| - 1], w); }
  }

  lemma {:induction false} TotalFromOne<T>(s: seq<T>, w: T -> int, i: nat)
    requires i < |s| && forall j :: 0 <= j < |s| ==> w(s[j]) >= 0
    ensures Total(s, w) >= w(s[i])
  {
    TotalNonNegative(s[..|s| - 1], w);
    if i < |s| - 1 { TotalFromOne(s[..|s| - 1], w, i); }
  }

  lemma {:induction false} TotalNonNegative<T>(s: seq<T>, w: T -> int)
    requires forall j :: 0 <= j < |s| ==> w(s[j]) >= 0
    ensures Total(s, w) >= 0
  {
    if s != [] { TotalNonNegative(s[..|s| - 1], w); }
  }

  lemma {:induction false} TotalZero<T>(s: seq<T>, w: T -> int)
    requires forall j :: 0 <= j < |s| ==> w(s[j]) == 0
    ensures Total(s, w) == 0
  {
    if s != [] { TotalZero(s[..|s| - 1], w); }
  }

  function WaitingWeight(): Waiter -> int { (w: Waiter) => One(w.active) }

  function PlayingWeight(): Slot -> int { (g: Slot) => One(g.active) }

  function WaitsAsWeight(fd: int): Waiter -> int { (w: Waiter) => One(w.active && w.fd == fd) }

  function SeatsWeight(fd: int): Slot -> int {
    (g: Slot) => if g.active then One(g.whiteFd == fd) + One(g.blackFd == fd) else 0
  }

  /** In how many places `fd` occurs: waiting, at the white and at the black side of a game. */
  function Places(m: Manager, fd: int): int {
    Total(m.waiting, WaitsAsWeight(fd)) + Total(m.games, SeatsWeight(fd))
  }

  // ----- the counters

  predicate Sized(m: Manager) {
    |m.waiting| == MAX_WAITING_PLAYERS && |m.games| == MAX_ACTIVE_GAMES
  }

  /** The counters count, and at most one player waits. */
  predicate Counted(m: Manager) {
    && Sized(m)
    && m.waitingCount == Total(m.waiting, WaitingWeight()) && m.waitingCount <= 1
    && m.gameCount == Total(m.games, PlayingWeight())
  }

  lemma AddKeepsCounts(m: Manager, fd: int, name: Option<string>, r: Readings)
    requires Counted(m)
    ensures Counted(Add(m, fd, name, r).0)
  {
    if name.Some? {
      var i := First(m.waiting, Waits());
      if i < |m.waiting| {
        var j := First(m.games, Free());
        TotalUpdate(m.waiting, WaitingWeight(), i, m.waiting[i].(active := false));
        if j < |m.games| {
          var slot := NewSlot(GameId(r.idTime, m.counter), fd, name.value, m.waiting[i], r);
          TotalUpdate(m.games, PlayingWeight(), j, slot);
        }
      } else {
        TotalZero(m.waiting, WaitingWeight());
        var k := First(m.waiting, WaitsNot());
        assert k == 0;
        TotalUpdate(m.waiting, WaitingWeight(), k, Waiter(fd, name.value, r.wait, true));
      }
    }
  }

  lemma DropWaiterKeepsCounts(m: Manager, i: nat)
    requires Counted(m) && i < |m.waiting| && m.waiting[i].active
    ensures Counted(DropWaiter(m, i))
  {
    TotalUpdate(m.waiting, WaitingWeight(), i, m.waiting[i].(active := false));
  }

  lemma EndGameKeepsCounts(m: Manager, i: nat)
    requires Counted(m) && i < |m.games| && m.games[i].active
    ensures Counted(EndGame(m, i))
  {
    TotalUpdate(m.games, PlayingWeight(), i, m.games[i].(active := false));
  }

  lemma TickOneKeepsCounts(m: Manager, i: nat, now: int)
    requires Counted(m) && i < |m.games|
    ensures Counted(TickOne(m, i, now))
  {
    TotalUpdate(m.games, PlayingWeight(), i, TickSlot(m.games[i], now));
  }

  lemma {:induction false} TickKeepsCounts(m: Manager, n: nat, now: int)
    requires Counted(m) && n <= |m.games|
    ensures Counted(TickUpTo(m, n, now))
  {
    if n > 0 {
      TickKeepsCounts(m, n - 1, now);
      TickOneKeepsCounts(TickUpTo(m, n - 1, now), n - 1, now);
    }
  }

  lemma {:induction false} TickGames(m: Manager, n: nat, now: int, i: nat)
    requires i < |m.games| && n <= |m.games|
    ensures TickUpTo(m, n, now).games[i] == if i < n then TickSlot(m.games[i], now) else m.games[i]
    ensures TickUpTo(m, n, now).waiting == m.waiting && TickUpTo(m, n, now).counter == m.counter
  {
    if n > 0 {
      TickGames(m, n - 1, now, i);
      TickGames(m, n - 1, now, n - 1);
    }
  }

  /** Replacing a slot by one that is as active leaves the counts alone. */
  lemma SameActivityKeepsCounts(m: Manager, i: nat, g: Slot)
    requires Counted(m) && i < |m.games| && g.active == m.games[i].active
    ensures Counted(m.(games := m.games[i := g]))
  {
    TotalUpdate(m.games, PlayingWeight(), i, g);
  }

  // ----- the queue

  lemma CountedWaiting(m: Manager, i: nat)
    requires Counted(m) && i < |m.waiting| && m.waiting[i].active
    ensures m.waitingCount == 1
    ensures forall k :: 0 <= k < |m.waiting| && k != i ==> !m.waiting[k].active
  {
    TotalFromOne(m.waiting, WaitingWeight(), i);
    forall k | 0 <= k < |m.waiting| && k != i ensures !m.waiting[k].active {
      if m.waiting[k].active {
        var rest := m.waiting[i := m.waiting[i].(active := false)];
        TotalUpdate(m.waiting, WaitingWeight(), i, m.waiting[i].(active := false));
        TotalFromOne(rest, WaitingWeight(), k);
      }
    }
  }

  predicate SeatedAt(g: Slot, t: Team, fd: int, name: string) {
    if t.White? then g.whiteFd == fd && g.whiteId == name else g.blackFd == fd && g.blackId == name
  }

  predicate WaitsSince(waiting: seq<Waiter>, k: int, fd: int, name: string, since: nat)
    requires 0 <= k < |waiting|
  {
    waiting[k].active && waiting[k].fd == fd && waiting[k].id == name && waiting[k].since == since
  }

  /** A game in which nothing has happened yet. */
  predicate Unplayed(g: Slot, r: Readings) {
    && g.position == Start() && g.limit == g.whiteTime == g.blackTime == 600000
    && g.startTime == r.start && g.lastMove == r.moveMs && g.lastCheck == r.checkMs
  }

  /** A request is answered by pairing it with the one waiting player if a game slot is free,
      by an error if none is, and by waiting if nobody waits. The queue is never full. An even
      coin gives White to the player who asks. */
  lemma RequestIsAnswered(m: Manager, fd: int, name: string, r: Readings)
    requires Counted(m)
    ensures var (m', result) := Add(m, fd, Some(name), r);
            if m.waitingCount == 0 then
              && result == Waiting && m'.waitingCount == 1
              && m'.games == m.games && m'.gameCount == m.gameCount && m'.counter == m.counter
              && exists k :: 0 <= k < |m.waiting| && !m.waiting[k].active && WaitsSince(m'.waiting, k, fd, name, r.wait)
                   && m'.waiting == m.waiting[k := m'.waiting[k]]
            else if m.gameCount < MAX_ACTIVE_GAMES then
              && result.Started? && m'.waitingCount == 0 && m'.gameCount == m.gameCount + 1
              && m'.counter == m.counter + 1 && (result.team.White? <==> r.coin % 2 == 0)
              && exists i, j :: 0 <= i < |m.waiting| && 0 <= j < |m.games| && m.waiting[i].active && !m.games[j].active
                   && m'.games[j].active && m'.games[j].gameId == result.gameId
                   && result.opponentFd == m.waiting[i].fd && result.opponentName == m.waiting[i].id
                   && SeatedAt(m'.games[j], result.team, fd, name)
                   && SeatedAt(m'.games[j], result.team.Opponent(), m.waiting[i].fd, m.waiting[i].id)
                   && Unplayed(m'.games[j], r)
                   && m'.games == m.games[j := m'.games[j]]
                   && m'.waiting == m.waiting[i := m.waiting[i].(active := false)]
            else result == Error("No available game slots") && m' == m
    ensures Add(m, fd, None, r) == (m, Error("Player ID is null"))
  {
    var i := First(m.waiting, Waits());
    if i < |m.waiting| {
      CountedWaiting(m, i);
      var j := First(m.games, Free());
      if j < |m.games| {
        FreeMeansRoom(m, j);
      } else {
        AllActive(m.games);
      }
    } else {
      TotalZero(m.waiting, WaitingWeight());
      assert First(m.waiting, WaitsNot()) == 0;
    }
  }

  lemma FreeMeansRoom(m: Manager, j: nat)
    requires Counted(m) && j < |m.games| && !m.games[j].active
    ensures m.gameCount < MAX_ACTIVE_GAMES
  {
    var full := m.games[j := m.games[j].(active := true)];
    TotalUpdate(m.games, PlayingWeight(), j, m.games[j].(active := true));
    AtMostAll(full);
  }

  lemma {:induction false} AtMostAll(s: seq<Slot>)
    ensures Total(s, PlayingWeight()) <= |s|
  {
    if s != [] { AtMostAll(s[..|s| - 1]); }
  }

  lemma {:induction false} AllActive(s: seq<Slot>)
    requires forall k :: 0 <= k < |s| ==> s[k].active
    ensures Total(s, PlayingWeight()) == |s|
  {
    if s != [] { AllActive(s[..|s| - 1]); }
  }

  // ----- who sits where

  /** A successful request adds one place, for the player who made it. */
  lemma PlacesAfterAdd(m: Manager, fd: int, name: Option<string>, r: Readings, f: int)
    ensures var (m', result) := Add(m, fd, name, r);
            Places(m', f) == Places(m, f) + One(!result.Error? && f == fd)
  {
    if name.Some? {
      var i := First(m.waiting, Waits());
      if i < |m.waiting| {
        var j := First(m.games, Free());
        if j < |m.games| {
          TotalUpdate(m.waiting, WaitsAsWeight(f), i, m.waiting[i].(active := false));
          var slot := NewSlot(GameId(r.idTime, m.counter), fd, name.value, m.waiting[i], r);
          TotalUpdate(m.games, SeatsWeight(f), j, slot);
        }
      } else {
        var k := First(m.waiting, WaitsNot());
        if k < |m.waiting| {
          TotalUpdate(m.waiting, WaitsAsWeight(f), k, Waiter(fd, name.value, r.wait, true));
        }
      }
    }
  }

  /** Nobody sits in two places. */
  ghost predicate Distinct(m: Manager) {
    forall f :: Places(m, f) <= 1
  }

  lemma PlacesNonNegative(m: Manager, fd: int)
    ensures Places(m, fd) >= 0
  {
    TotalNonNegative(m.waiting, WaitsAsWeight(fd));
    TotalNonNegative(m.games, SeatsWeight(fd));
  }

  /** The code does not ask whether the player is idle: a successful request keeps players
      apart exactly when it comes from a player who sits nowhere. */
  lemma DistinctIffIdle(m: Manager, fd: int, name: Option<string>, r: Readings)
    requires Distinct(m) && !Add(m, fd, name, r).1.Error?
    ensures Distinct(Add(m, fd, name, r).0) <==> Places(m, fd) == 0
  {
    var m' := Add(m, fd, name, r).0;
    PlacesAfterAdd(m, fd, name, r, fd);
    PlacesNonNegative(m, fd);
    forall f ensures Places(m', f) == Places(m, f) + One(f == fd) {
      PlacesAfterAdd(m, fd, name, r, f);
    }
  }

  /** The witness: a player who asks twice is paired with himself. */
  lemma PairedWithHimself(m: Manager, fd: int, name: string, r: Readings)
    requires Counted(m) && m.waitingCount == 0 && m.gameCount < MAX_ACTIVE_GAMES
    ensures var m1 := Add(m, fd, Some(name), r).0;
            var m2 := Add(m1, fd, Some(name), r).0;
            exists j :: 0 <= j < |m2.games| && m2.games[j].active && m2.games[j].whiteFd == m2.games[j].blackFd == fd
  {
    AddKeepsCounts(m, fd, Some(name), r);
    var m1 := Add(m, fd, Some(name), r).0;
    RequestIsAnswered(m, fd, name, r);
    RequestIsAnswered(m1, fd, name, r);
    WaiterIs(m, fd, name, r);
    var m2 := Add(m1, fd, Some(name), r).0;
    var j := First(m1.games, Free());
    if j == |m1.games| { AllActive(m1.games); }
    assert m2.games[j].whiteFd == m2.games[j].blackFd == fd;
  }

  lemma WaiterIs(m: Manager, fd: int, name: string, r: Readings)
    requires Counted(m) && m.waitingCount == 0
    ensures var m1 := Add(m, fd, Some(name), r).0;
            var i := First(m1.waiting, Waits()); i < |m1.waiting| && m1.waiting[i].fd == fd
  {
    var i := First(m.waiting, Waits());
    if i < |m.waiting| { CountedWaiting(m, i); }
    var k := First(m.waiting, WaitsNot());
    assert k == 0;
  }

  lemma PlacesAfterDrop(m: Manager, i: nat, f: int)
    requires i < |m.waiting| && m.waiting[i].active
    ensures Places(DropWaiter(m, i), f) == Places(m, f) - One(m.waiting[i].fd == f)
  {
    TotalUpdate(m.waiting, WaitsAsWeight(f), i, m.waiting[i].(active := false));
  }

  lemma PlacesAfterEnd(m: Manager, i: nat, f: int)
    requires i < |m.games| && m.games[i].active
    ensures Places(EndGame(m, i), f) == Places(m, f) - One(m.games[i].whiteFd == f) - One(m.games[i].blackFd == f)
  {
    TotalUpdate(m.games, SeatsWeight(f), i, m.games[i].(active := false));
  }

  /** When players are apart, a disconnected player is nowhere afterwards, and nobody but an
      opponent has lost a place. */
  lemma DisconnectedIsGone(m: Manager, fd: int)
    requires Distinct(m)
    ensures var (m', d) := Disconnect(m, fd);
            && Places(m', fd) == 0
            && forall f :: f != fd && !(d.LeftGame? && d.opponentFd == f) ==> Places(m', f) == Places(m, f)
  {
    var (m', d) := Disconnect(m, fd);
    var i := First(m.waiting, WaitsAs(fd));
    var j := First(m.games, Seats(fd));
    PlacesNonNegative(m', fd);
    forall f ensures f != fd && !(d.LeftGame? && d.opponentFd == f) ==> Places(m', f) == Places(m, f) {
      if i < |m.waiting| { PlacesAfterDrop(m, i, f); }
      else if j < |m.games| { PlacesAfterEnd(m, j, f); }
    }
    if i < |m.waiting| {
      PlacesAfterDrop(m, i, fd);
    } else {
      TotalZero(m.waiting, WaitsAsWeight(fd));
      if j < |m.games| { PlacesAfterEnd(m, j, fd); } else { TotalZero(m.games, SeatsWeight(fd)); }
    }
  }

  // ----- leaving

  /** Entry `i`, a waiting one, is cleared, and nothing else changes. */
  predicate Unqueues(m: Manager, m': Manager, i: int) {
    && 0 <= i < |m.waiting| && m.waiting[i].active
    && m'.waiting == m.waiting[i := m.waiting[i].(active := false)] && m'.waitingCount == m.waitingCount - 1
    && m'.games == m.games && m'.gameCount == m.gameCount && m'.counter == m.counter
  }

  /** Slot `i`, an active one, is ended, and nothing else changes. */
  predicate EndsSlot(m: Manager, m': Manager, i: int) {
    && 0 <= i < |m.games| && m.games[i].active
    && m'.games == m.games[i := m.games[i].(active := false)] && m'.gameCount == m.gameCount - 1
    && m'.waiting == m.waiting && m'.waitingCount == m.waitingCount && m'.counter == m.counter
  }

  predicate IsWaiting(m: Manager, fd: int) {
    exists i :: 0 <= i < |m.waiting| && m.waiting[i].active && m.waiting[i].fd == fd
  }

  predicate SitsAt(g: Slot, fd: int) {
    g.active && (g.whiteFd == fd || g.blackFd == fd)
  }

  predicate IsPlaying(m: Manager, fd: int) {
    exists i :: 0 <= i < |m.games| && SitsAt(m.games[i], fd)
  }

  /** `d` tells of the end of slot `g` by the departure of `fd`: the win and the notice go to the other
      side. A player on both sides counts as White. */
  predicate LostBy(g: Slot, d: Departure, fd: int) {
    && d.LeftGame? && d.winner == (if g.whiteFd == fd then Black else White)
    && FdAt(g, d.winner.Opponent()) == fd && FdAt(g, d.winner) == d.opponentFd
  }

  /** Cancelling takes one waiting entry from the player, who is told so; if he does not wait, nothing
      changes and he is told that. Nobody else is affected, nor any game. */
  lemma CancellationIsAnswered(m: Manager, fd: int)
    ensures var (m', removed) := Cancel(m, fd);
            && (removed <==> IsWaiting(m, fd))
            && (if removed then exists i :: Unqueues(m, m', i) && m.waiting[i].fd == fd else m' == m)
            && (forall f :: Places(m', f) == Places(m, f) - One(removed && f == fd))
  {
    var i := First(m.waiting, WaitsAs(fd));
    var (m', removed) := Cancel(m, fd);
    if i < |m.waiting| {
      assert Unqueues(m, m', i) && m.waiting[i].fd == fd;
      forall f ensures Places(m', f) == Places(m, f) - One(f == fd) {
        PlacesAfterDrop(m, i, f);
      }
    } else {
      assert forall k :: 0 <= k < |m.waiting| ==> !WaitsAs(fd)(m.waiting[k]);
    }
  }

  /** With exact counters a player who has cancelled does not wait any more. */
  lemma CancelledIsNotWaiting(m: Manager, fd: int)
    requires Counted(m)
    ensures !IsWaiting(Cancel(m, fd).0, fd)
  {
    CancellationIsAnswered(m, fd);
    var (m', removed) := Cancel(m, fd);
    if removed {
      var i :| Unqueues(m, m', i) && m.waiting[i].fd == fd;
      CountedWaiting(m, i);
      forall k | 0 <= k < |m'.waiting| ensures !m'.waiting[k].active {
        assert k != i ==> m'.waiting[k] == m.waiting[k];
      }
    }
  }

  /** Resigning ends exactly one game, one in which the player sits, and the win and the notice
      go to the other side of it; a player without a game changes nothing. */
  lemma ResignationIsLost(m: Manager, fd: int)
    ensures var (m', d) := Resign(m, fd);
            if IsPlaying(m, fd) then exists i :: EndsSlot(m, m', i) && LostBy(m.games[i], d, fd)
            else d == NotPlaying && m' == m
  {
    var i := First(m.games, Seats(fd));
    var (m', d) := Resign(m, fd);
    if i < |m.games| {
      assert SitsAt(m.games[i], fd);
      assert EndsSlot(m, m', i) && LostBy(m.games[i], d, fd);
    } else {
      assert forall k :: 0 <= k < |m.games| ==> !Seats(fd)(m.games[k]);
    }
  }

  /** A player who loses the connection leaves the queue if he waits; otherwise one game in which he
      sits ends, won by and announced to the other side; otherwise nothing changes. */
  lemma DisconnectionIsLost(m: Manager, fd: int)
    ensures var (m', d) := Disconnect(m, fd);
            if IsWaiting(m, fd) then d == LeftQueue && exists i :: Unqueues(m, m', i) && m.waiting[i].fd == fd
            else if IsPlaying(m, fd) then exists i :: EndsSlot(m, m', i) && LostBy(m.games[i], d, fd)
            else d == NotPlaying && m' == m
  {
    var i := First(m.waiting, WaitsAs(fd));
    if i < |m.waiting| {
      assert Unqueues(m, Disconnect(m, fd).0, i) && m.waiting[i].fd == fd;
    } else {
      assert forall k :: 0 <= k < |m.waiting| ==> !WaitsAs(fd)(m.waiting[k]);
      ResignationIsLost(m, fd);
      assert Disconnect(m, fd) == Resign(m, fd);
    }
  }

  /** The game that is removed is active and bears the id; if there is none, nothing changes. */
  lemma RemovalIsAnswered(m: Manager, id: string)
    ensures var (m', removed) := RemoveGame(m, id);
            if (exists i :: 0 <= i < |m.games| && m.games[i].active && m.games[i].gameId == id) then
              removed && exists i :: EndsSlot(m, m', i) && m.games[i].gameId == id
            else !removed && m' == m
  {
    var i := First(m.games, Named(id));
    if i < |m.games| {
      assert EndsSlot(m, RemoveGame(m, id).0, i) && m.games[i].gameId == id;
    } else {
      assert forall k :: 0 <= k < |m.games| ==> !Named(id)(m.games[k]);
    }
  }
}
