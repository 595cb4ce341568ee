/** The game clocks: conservation, the life span of a game, and the books that compare the time charged
    to a side with the time it was to move. */
module Clocks {
  import opened Pieces
  import opened ChessBoard
  import opened Games
  import opened Matching

  const INT32_END: int := 0x8000_0000

  // ----- one tick

  /** The cast is exact exactly within the range of `int32_t`; otherwise it wraps around into it. */
  lemma CastIsExact(n: int)
    ensures Int32(n) == n <==> -INT32_END <= n < INT32_END
    ensures -INT32_END <= Int32(n) < INT32_END && (n - Int32(n)) % (2 * INT32_END) == 0
  {
  }

  /** Between two checks exactly 2^32 ms apart nothing is charged. */
  lemma WholeCycleIsFree(g: Slot)
    requires g.active && g.whiteTime > 0 && g.blackTime > 0
    ensures TickSlot(g, g.lastCheck + 0x1_0000_0000) == g.(lastCheck := g.lastCheck + 0x1_0000_0000)
  {
  }

  function Remaining(g: Slot, t: Team): int {
    if t.White? then g.whiteTime else g.blackTime
  }

  /** The clock of an active game that was first checked at `born`. */
  predicate ClockFits(g: Slot, born: int) {
    && g.limit == TIME_LIMIT_MS
    && g.whiteTime + g.blackTime == 2 * g.limit - (g.lastCheck - born)
    && g.whiteTime > 0 && g.blackTime > 0
  }

  /** A game ends on a tick exactly when the tick is processed and the side to move has no more
      time than has passed; otherwise the law of conservation is kept. */
  lemma TickKeepsClock(g: Slot, now: int, born: int)
    requires g.active && ClockFits(g, born) && now - g.lastCheck < INT32_END
    ensures var g' := TickSlot(g, now);
            && (g'.active <==> now - g.lastCheck < TICK_MS || now - g.lastCheck < Remaining(g, g.position.side))
            && (g'.active ==> ClockFits(g', born) && now - g'.lastCheck < TICK_MS)
            && Remaining(g', g.position.side.Opponent()) == Remaining(g, g.position.side.Opponent())
  {
    CastIsExact(now - g.lastCheck);
  }

  /** A tick within 100 ms of the last check changes nothing. Any other charges the side to move the time
      since, down to zero, and notes the time; nothing else changes but the activity. */
  lemma TickCharges(g: Slot, now: int)
    requires g.active && now - g.lastCheck < INT32_END
    ensures var g', t := TickSlot(g, now), g.position.side;
            var passed := now - g.lastCheck;
            if passed < 100 then g' == g
            else
              && g'.lastCheck == now
              && Remaining(g', t) == (if passed < Remaining(g, t) then Remaining(g, t) - passed else 0)
              && Remaining(g', t.Opponent()) == Remaining(g, t.Opponent())
              && g' == g.(whiteTime := g'.whiteTime, blackTime := g'.blackTime, lastCheck := now, active := g'.active)
              && (g'.active <==> passed < Remaining(g, t))
  {
    CastIsExact(now - g.lastCheck);
  }

  lemma IdleSlotsAreNotCharged(g: Slot, now: int)
    requires !g.active
    ensures TickSlot(g, now) == g
  {
  }

  /** The announced winner of a timed-out game has time left, and the loser has none. */
  lemma TimeoutIsLost(g: Slot, now: int, born: int, winner: Team)
    requires g.active && ClockFits(g, born) && now - g.lastCheck < INT32_END
    requires TimeoutWinner(g, now) == Some(winner)
    ensures Remaining(TickSlot(g, now), winner) > 0 && Remaining(TickSlot(g, now), winner.Opponent()) == 0
    ensures winner.Opponent() == g.position.side && now - g.lastCheck >= Remaining(g, g.position.side)
  {
    TickKeepsClock(g, now, born);
  }

  /** Whatever is played, no game is active after a tick at `born` + 2 limits + 100 ms or later. */
  lemma OldGamesEnd(g: Slot, now: int, born: int)
    requires g.active && ClockFits(g, born) && now - g.lastCheck < INT32_END
    requires now >= born + 2 * TIME_LIMIT_MS + TICK_MS
    ensures !TickSlot(g, now).active
  {
    TickKeepsClock(g, now, born);
  }

  // ----- attribution of time

  /** The books of one game: `white` and `black` are the times the sides were really to move up to the
      last processed tick; the open parts have passed since then, up to the time `at`. */
  datatype Account = Account(g: Slot, at: int, white: int, black: int, openWhite: int, openBlack: int)

  /** Time passes until `t`: it belongs to the side to move. */
  function Elapse(a: Account, t: int): Account {
    if a.g.position.side.White? then a.(at := t, openWhite := a.openWhite + (t - a.at))
    else a.(at := t, openBlack := a.openBlack + (t - a.at))
  }

  function Settle(a: Account): Account {
    a.(white := a.white + a.openWhite, black := a.black + a.openBlack, openWhite := 0, openBlack := 0)
  }

  function Charged(g: Slot, t: Team): int {
    g.limit - Remaining(g, t)
  }

  /** The time a side was really to move, up to now. */
  function RealTime(a: Account, t: Team): int {
    if t.White? then a.white + a.openWhite else a.black + a.openBlack
  }

  function OpenTime(a: Account, t: Team): int {
    if t.White? then a.openWhite else a.openBlack
  }

  /** After `n` moves, `k` of them since the last processed tick. */
  predicate Balanced(a: Account, n: nat, k: nat, gap: int) {
    && k <= n && a.g.active
    && a.openWhite >= 0 && a.openBlack >= 0 && a.openWhite + a.openBlack == a.at - a.g.lastCheck
    && (k == 0 ==> OpenTime(a, a.g.position.side.Opponent()) == 0)
    && Abs(Charged(a.g, White) - a.white) <= (n - k) * gap
    && Charged(a.g, White) + Charged(a.g, Black) == a.white + a.black
  }

  lemma MoveTurns(p: Position, m: Move)
    requires LegalMove(p, m)
    ensures Step(p, m).side == p.side.Opponent()
  {
  }

  lemma MoreMoves(n: nat, k: nat, gap: int)
    requires k <= n && gap >= 0
    ensures (n - k) * gap <= n * gap && (k >= 1 ==> (n - k) * gap + gap <= n * gap)
  {
    assert n * gap - (n - k) * gap == k * gap;
    if k >= 1 { assert k * gap >= gap; }
  }

  /** Two states of a slot with the same clocks. */
  predicate ClocksStill(g: Slot, g': Slot) {
    && g'.active && g'.limit == g.limit && g'.lastCheck == g.lastCheck
    && g'.whiteTime == g.whiteTime && g'.blackTime == g.blackTime
  }

  lemma BalancedAfterMove(a: Account, n: nat, k: nat, gap: int, t: int, g': Slot)
    requires Balanced(a, n, k, gap) && t >= a.at && ClocksStill(a.g, g')
    requires g'.position.side == a.g.position.side.Opponent()
    ensures Balanced(Elapse(a, t).(g := g'), n + 1, k + 1, gap)
  {
    assert n + 1 - (k + 1) == n - k;
  }

  lemma BalancedAfterWait(a: Account, n: nat, k: nat, gap: int, t: int, g': Slot)
    requires Balanced(a, n, k, gap) && t >= a.at && ClocksStill(a.g, g') && g'.position.side == a.g.position.side
    ensures Balanced(Elapse(a, t).(g := g'), n, k, gap)
  {
  }

  lemma BalancedAfterTick(a: Account, n: nat, k: nat, gap: int, t: int, g': Slot)
    requires Balanced(a, n, k, gap) && t >= a.at && TICK_MS <= t - a.g.lastCheck <= gap < INT32_END
    requires g' == TickSlot(a.g, t) && g'.active
    ensures Balanced(Settle(Elapse(a, t)).(g := g'), n, 0, gap)
  {
    TickCharges(a.g, t);
    MoreMoves(n, k, gap);
    hide TickSlot;
  }

  lemma BalancedIsFair(a: Account, n: nat, k: nat, gap: int)
    requires Balanced(a, n, k, gap) && gap >= 0
    ensures Abs(Charged(a.g, White) - a.white) <= n * gap && Abs(Charged(a.g, Black) - a.black) <= n * gap
    ensures Charged(a.g, White) - a.white == -(Charged(a.g, Black) - a.black)
  {
    MoreMoves(n, k, gap);
  }

  lemma BalancedTimeout(a: Account, n: nat, k: nat, gap: int, t: int)
    requires Balanced(a, n, k, gap) && t >= a.at && t - a.g.lastCheck <= gap < INT32_END
    requires !TickSlot(a.g, t).active
    ensures RealTime(Elapse(a, t), a.g.position.side) >= a.g.limit - n * gap
  {
    TickCharges(a.g, t);
    MoreMoves(n, k, gap);
    hide TickSlot;
  }
}
