/** The end of the chain: what the move handler announces is what the Laws say, and what the
    clients then hold is what the server holds. */
module Verdicts {
  import opened Pieces
  import opened ChessBoard
  import opened Rules
  import opened Invariant
  import opened Games
  import opened Notation
  import opened Matching
  import opened Client
  import opened ServerRun
  import opened ServerSafety
  import opened FideAgreement
  import opened Draws
  import opened Pgn
  import opened Replay
  import Fide

  /** The verdict after the moves `ms` of a game, in the terms of the Laws only: mate for the side
      that moved last (Article 5.1.1), stalemate (5.2.1), or a draw after fifty moves of each player
      without a pawn move or a capture (9.3.2, whether anyone claims it or not); and who is in check.
      Mate and stalemate are those of the Laws with castling, whatever is still unmoved. */
  lemma {:induction false} VerdictIsFide(ms: seq<Move>, unmoved: Fide.Unmoved)
    requires LegalRun(Start(), ms)
    ensures Fide.Run(View(Start()), ms)
    ensures var v, st := Judge(Play(Start(), ms)), Fide.Play(View(Start()), ms);
            var mated, stalemated := Fide.Mated(st, unmoved), Fide.Stalemated(st, unmoved);
            var fifty := Fide.FiftyMovesEach(View(Start()), ms);
            && (v.ends <==> mated || stalemated || fifty)
            && v.winner == (if mated then Some(st.turn.Opponent()) else None)
            && v.how == (if mated then Mate else if stalemated then Stale else if fifty then Draw else Unknown)
            && v.checked == (if Fide.InCheck(st.diagram, st.turn) then Some(st.turn) else None)
  {
    GamesAgree(ms);
    ReachableInv(ms);
    ClockIsFide(ms);
    hide *;
    VerdictOnPosition(Play(Start(), ms), unmoved);
  }

  lemma VerdictOnPosition(p: Position, unmoved: Fide.Unmoved)
    requires Inv(p)
    ensures var v, st := Judge(p), View(p);
            var mated, stalemated := Fide.Mated(st, unmoved), Fide.Stalemated(st, unmoved);
            && (v.ends <==> mated || stalemated || FiftyMoves(p))
            && v.winner == (if mated then Some(st.turn.Opponent()) else None)
            && v.how == (if mated then Mate else if stalemated then Stale else if FiftyMoves(p) then Draw else Unknown)
            && v.checked == (if Fide.InCheck(st.diagram, st.turn) then Some(st.turn) else None)
  {
    assert OneKing(p.board, p.side);
    VerdictsAreFide(p, unmoved);
    CheckAgrees(p.board, p.side);
    hide Inv, Checkmate, Stalemate, FiftyMoves, InCheck, DiagramOf, Fide.Mated, Fide.Stalemated, Fide.InCheck;
  }

  /** An accepted request names its move in canonical coordinates, is made by the player whose
      turn it is, and is legal; what both players are sent is the announcement of that move. */
  lemma AcceptedRequest(g: Slot, fd: int, from: string, to: string)
    requires Seats(fd)(g) && CheckMove(g, fd, from, to).Playable?
    ensures var m := CheckMove(g, fd, from, to).move;
            && OnBoard(m) && from == FormatCoordinate(m.from) && to == FormatCoordinate(m.to)
            && LegalMove(g.position, m) && FdAt(g, g.position.side) == fd
            && var v := Judge(Step(g.position, m));
               Announce(g.position, m) == Broadcast(Some(from), Some(to), v.checked.Some?, v.checked)
  {
    hide LegalMove, Checkmate, Stalemate, InCheck, Step;
    var m := CheckMove(g, fd, from, to).move;
    CoordinatesAreInverse(from, m.from);
    CoordinatesAreInverse(to, m.to);
  }

  /** A client that has received the broadcasts of a game, each at least once and in order, holds the
      position that the server's moves reach, final positions included, as long as the server could
      send its replies. It is the position on the server's board while the game is running. */
  lemma {:induction false} ClientsHoldTheServersPosition(w: World, id: string, r: Replica, copies: seq<nat>)
    requires Reachable(w) && w.pending.None? && id in w.created && id !in w.unsent
    requires r.game == Start() && r.moves == []
    ensures id in w.history && id in w.announced && w.announced[id] == w.history[id]
    ensures LegalRun(Start(), w.announced[id])
    ensures |copies| == |w.announced[id]| ==>
              && Follows(Receive(r, w.announced[id], copies), w.announced[id])
              && Receive(r, w.announced[id], copies).game == Play(Start(), w.history[id])
    ensures forall i :: 0 <= i < |w.m.games| && w.m.games[i].active && w.m.games[i].gameId == id ==>
              w.m.games[i].position == Play(Start(), w.history[id])
  {
    ServerGamesAreChess(w, id);
    AllMovesAreBroadcast(w, id);
    forall i | 0 <= i < |w.m.games| && w.m.games[i].active && w.m.games[i].gameId == id
      ensures w.m.games[i].position == Play(Start(), w.history[id])
    {
      BoardsShowTheGames(w, i);
    }
    hide Inv, AcceptedRun, LegalRun, Play, Reachable, Receive, Start;
    if |copies| == |w.history[id]| { ReplicaAgrees(r, w.history[id], copies); }
  }

  /** From the server to the replayed board: what that client saves is read back and replayed, move by
      move, as the game that the server accepted, up to the 512 moves that are recorded. */
  lemma {:induction false} SavedGamesReplayTheServersGames(
    w: World, id: string, r: Replica, copies: seq<nat>,
    date: string, white: string, black: string, result: string)
    requires Reachable(w) && w.pending.None? && id in w.created && id !in w.unsent
    requires r.game == Start() && r.moves == []
    requires TagsFit(date, white, black, result) && !HasBlankLine(white) && !HasBlankLine(black)
    ensures id in w.history && id in w.announced && LegalRun(Start(), w.announced[id])
    ensures |copies| == |w.announced[id]| ==>
              var made := w.history[id];
              var loaded := Loaded(Saved(date, white, black, result, Receive(r, w.announced[id], copies).moves));
              && |loaded| == (if |made| <= 512 then |made| else 512)
              && (forall k :: 0 <= k <= |loaded| ==> Shown(loaded, k) == Play(Start(), made[..k]))
              && (|made| <= 512 ==> Shown(loaded, |loaded|) == Play(Start(), made))
  {
    ClientsHoldTheServersPosition(w, id, r, copies);
    hide *;
    if |copies| == |w.announced[id]| {
      WholeReplayIsFaithful(Receive(r, w.announced[id], copies), w.announced[id], date, white, black, result);
    }
  }
}
