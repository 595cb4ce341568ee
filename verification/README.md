# Verified model of a multiplayer chess server

The program is a terminal chess game: a server pairs players, checks their moves, keeps their
clocks and ends their games; clients mirror the game, record it, save it as PGN and replay it.
This project models the parts on which its promises rest and proves what they promise.

**Rules** (`common/rule.c`, `common/piece.c`). `RuleEngine.Game` is `game_t` over a 64-square
array, updated in place by the same assignments in the same order, with the ray walk, the
division and alignment test, the copy-and-test for self-check and the nested searches as loops.
Its methods are proved against `Rules`, which describes lines by direction, distance and the
squares between. On top of that stands one inductive invariant over every position that legal
moves reach from the start position (`Invariant`, `Games`), the agreement with the FIDE Laws of
Chess written on diagrams without any reference to the code (`Fide`, `FideAgreement`), the count
for the draw and dead positions (`Draws`), conservation of material, and the measure that bounds
every game (`Material`). `SampleGames` plays the games that serve as witnesses.

**Server** (`server/match_manager.c`, `server/handlers/`). `MatchManagement.MatchManager` has the
slot arrays and counters, one method for each section under the mutex and for the steps of the
move handler. `ServerRun` interleaves the event loop with the timer thread: ticks may fall between
any two steps of the move handler, which works on its game outside the mutex. `ServerSafety` proves the
invariant of every such run, `ServerGames` that every acceptable game can in fact be played on a
server; `MoveLaws` what the move handler answers and what every step leaves alone; `Clocks` and
`ServerClocks` treat the time accounts.

**Client** (`client/`). Handling of broadcasts with the record and its duplicate test (`Client`),
writing and reading PGN (`Pgn`), the replay cursor (`Replay`), and the FEN parser that sets up
every game (`Fen`, `FenRoundTrip`, `FenAcceptance`). `Verdicts` and `Replay` join the three parts: server, client, saved
file and replayed board hold the same moves and positions, in running and in finished games.

Where the code departs from its documentation or from what one would expect, the code is modelled
and the exact condition is proved:

- The README of the program claims complete rules, castling included (README.md:49). Castling is
  never accepted; the departure from the Laws is exactly the castling moves
  (`DepartsExactlyOnCastling`, with the witness `CastlingIsRefused`). It never affects a verdict of
  checkmate or stalemate (`VerdictsAreFide`). Threefold repetition, claimed on the same line, has
  no code: a position can occur a third, a fifth and a 25th time on the server, and the game goes
  on (`RepetitionIsIgnored`, `RepetitionsRunOn`).
- A right to castle survives the capture of its rook, and that is the only way to a right without
  its rook (`RightOutlivesRook`, with the game `RightWithoutRook`).
- A player who asks for a match twice is paired with himself (`PairedWithHimself`) and cannot answer his
  own first move (`PairedWithHimselfIsStuck`); players stay
  apart exactly as long as only idle players ask (`DistinctIffIdle`).
- When the reply to a move cannot be sent, the handler returns before it judges and broadcasts
  the move it has made (server/handlers/move.c:252-255). All moves of a game have been broadcast
  exactly if no reply failed (`AllMovesAreBroadcast`), and without a failed reply no game runs on
  that is over (`RunningMeansNotOver`). With one, any game that is over can run on
  (`AnyReplyCanBeLost`; `MateCanGoUnnoticed` gives a run of four moves from the start of a server),
  and with enough of them a game has no bound at all (`LostRepliesUndoTheBound`).
- A saved game is read back exactly if no player's name contains a blank line (`SavedLoads`).
- The cast of the elapsed time to 32 bits loses whole cycles (`CastIsExact`, `WholeCycleIsFree`).
- The draw after fifty moves of each player comes without a claim, where the Laws (Article 9.3) ask
  for one (`DrawnWithoutClaim`, `DrawsComeUnclaimed`).
- A dead position ends a game by the Laws (Article 5.2.2); the program plays on in every one but for
  stalemate and the count (`DeadPositionsPlayOn`), for instance with the kings alone
  (`BareKingsAreDead`). Checkmate, stalemate and the count of Article 9.3.2 are decided as
  the Laws decide them (`VerdictIsFide`).

## Model

| member | source | states |
|---|---|---|
| Pieces.LeaperTable | common/piece.c:5-81 | the offset tables of knight and king list exactly the displacements of their FIDE geometry |
| Pieces.SliderTable | common/piece.c:12-74 | the tables of bishop, rook and queen list exactly the unit steps of their lines |
| Rays.RaysAreLines | common/rule.c:41-52 | walking the rays of a slider's table reaches exactly the squares at the end of an open line |
| Rays.DivisionAgreesWithWalk | common/rule.c:123-145 | alignment by truncating division with no blocker before the quotient holds exactly when the square-by-square walk arrives |
| RuleEngine.Game.CopyOf | common/rule.c:154-154 | the copy has the value of the original and shares no board with it |
| RuleEngine.Game.RayHits | common/rule.c:42-51 | the ray loop answers whether the target is on the ray with nothing before it |
| RuleEngine.Game.IsSquareAttacked | common/rule.c:14-59 | true exactly when some live piece of the team has a capture pattern reaching the square |
| RuleEngine.Game.SliderOk | common/rule.c:120-147 | the division test and the blocker loop accept exactly the open lines of the piece |
| RuleEngine.Game.PieceOk | common/rule.c:76-148 | the switch decides the movement rule of the piece; its castling test is never reached |
| RuleEngine.Game.IsMoveLegal | common/rule.c:62-160 | true exactly for own piece, no own piece on the target, movement rule, and no check to oneself afterwards; the position is unchanged |
| RuleEngine.Game.ApplyMove | common/rule.c:163-239 | the in-place updates turn the position into the specified one, for all squares and boards |
| RuleEngine.Game.IsInCheck | common/rule.c:242-261 | true exactly when the first king in scan order is attacked by the other side; false without a king |
| RuleEngine.Game.AnyMove | common/rule.c:273-286 | the four-deep search with its skip decides whether any legal move exists |
| RuleEngine.Game.IsCheckmate | common/rule.c:264-289 | in check and no legal move |
| RuleEngine.Game.IsStalemate | common/rule.c:292-317 | not in check and no legal move |
| Invariant.AttackAgreesWithLegality | common/rule.c:69-147 | a square holding an enemy piece is attacked exactly when some piece of the side to move passes the movement rule onto it |
| Invariant.KingIsNotTaken | common/rule.c:70-148 | under the invariant no move that passes the movement rule goes to the enemy king |
| Invariant.EnPassantVictim | common/rule.c:178-183 | the removal fires only on a diagonal pawn move and removes the enemy pawn that has just advanced two squares |
| Invariant.MoveFrame | common/rule.c:163-239 | the content of every square after the move: one piece relocated and promoted on the last rank, at most the en passant victim removed besides, everything else unchanged |
| Invariant.MovedPieceIsMarked | common/rule.c:230-235 | the moved piece is marked as moved and keeps side and kind but for promotion; all other marks stay |
| Invariant.KeepsTargetFits | common/rule.c:222-228 | the en passant target is set exactly by a double step, to the square passed over, and then lies between an empty origin and the pawn |
| Invariant.RightsAfter | common/rule.c:201-220 | a castling right is lost exactly when its king moves or its unmoved rook leaves the corner |
| Invariant.RightOutlivesRook | common/rule.c:201-220 | a held right with its rook at home becomes one without exactly when the move lands on the rook's corner |
| Invariant.LegalMoveKeepsInv | common/rule.c:62-239 | a legal move keeps: one king a side, the side that moved not in check, dead iff no piece, pawn ranks and moved flags, target and rights describing the board |
| Invariant.ReplayedCastling | common/rule.c:190-206 | castling replayed without checks puts king and rook on their squares, empties the squares they left and drops the rights |
| Games.ReachableInv | common/rule.c:62-239 | the invariant holds in every position that legal moves reach from the start position |
| Games.NoKingIsEverTaken | common/rule.c:62-160 | no move of any legal game captures a king |
| Games.OpeningIsLegal | server/rule_test.c:124-143 | every double step of a white pawn is legal in the start position |
| Material.MenAfterMove | common/rule.c:178-188 | a move costs the mover nothing and the opponent one piece exactly when it captures |
| Material.KindsAfterMove | common/rule.c:178-235 | piece counts by kind change by promotion to a queen and by the captured piece only |
| Material.MeasureDecreases | common/rule.c:172-176 | every accepted move lowers (potential, 100 - clock) lexicographically, within bounds |
| Material.RunLength | server/handlers/move.c:272-287 | the number of moves the server can still accept is bounded by potential and clock |
| Material.EveryGameEnds | server/handlers/move.c:272-287 | no game has more than 12,700 accepted moves |
| FideAgreement.LegalIffFide | common/rule.c:62-160 | on every position satisfying the invariant a move is legal exactly under FIDE Articles 3.1 to 3.9 without castling |
| FideAgreement.ViewAfter | common/rule.c:163-239 | the position after a move shows the diagram, side and en passant state of the Laws |
| FideAgreement.GamesAgree | common/rule.c:62-239 | the games the code allows from the start are those of the Laws without castling, diagram for diagram |
| FideAgreement.DepartsExactlyOnCastling | common/rule.c:95-113 | the code disagrees with the Laws exactly on castling moves, whatever castlings remain |
| FideAgreement.CastlingIsRefused | common/rule.c:95-113 | after a legal game of six moves from the start, a castling that the Laws allow, whose right the code still records, and that it refuses |
| FideAgreement.VerdictsAreFide | common/rule.c:264-317 | checkmate and stalemate are those of Articles 5.1.1 and 5.2.1 with castling counted among the moves |
| Draws.ClockIsFide | common/rule.c:172-176 | in every game the clock is the number of last moves without pawn move or capture, and the test for 100 holds exactly when some last part of the game has fifty such moves of each player (Article 9.3.2) |
| Draws.FiftyEachIsHundred | common/rule.c:320-322 | fifty moves of each player are a hundred half-moves in a row |
| Draws.DrawnWithoutClaim | server/handlers/move.c:282-287 | a game of a hundred knight moves, each of them acceptable, is then ended as a draw |
| Draws.DeadPositionsPlayOn | server/handlers/move.c:272-287 | in every position dead by Article 5.2.2 the program ends the game only by stalemate or by the count |
| Draws.BareKingsAreDead | server/handlers/move.c:272-287 | with the kings alone on their home squares the position is dead and the program plays on |
| Draws.RepetitionIsIgnored | server/handlers/move.c:272-287 | a position can occur up to 25 times in an acceptable game, with the same rights and player to move, and the game is not over |
| Draws.BareKingsPlayOn | server/handlers/move.c:272-287 | king against king is dead by Article 5.2.2, and the program ends the game there only by the count |
| SampleGames.FoolsMateIsMate | common/rule.c:264-289 | four moves from the start position that the server accepts end in checkmate |
| SampleGames.RightWithoutRook | common/rule.c:208-220 | after an acceptable game of five moves Black holds the right to castle and the rook is gone |
| SampleGames.LegalGamesHaveNoBound | common/rule.c:62-160 | without the end conditions there are legal games of any length |
| Fen.ClearBoard | common/utils.c:14-22 | every square is empty afterwards |
| Fen.ParsePlacement | common/utils.c:40-85 | the placement loop writes what the field says, and reports an unknown letter |
| Fen.FenParse | common/utils.c:31-123 | board, fields and result of parsing, for every string whose placement stays on the board |
| FenRoundTrip.FenRoundTrip | common/utils.c:31-123 | parsing the canonical encoding of any position over any earlier contents restores it with every piece unmoved, and stays on the board |
| FenRoundTrip.StartIsRead | common/utils.c:24-29 | the string of the start position denotes the start position |
| FenRoundTrip.InitStartpos | common/utils.c:24-29 | the start position, whatever was there before |
| FenAcceptance.AcceptedIff | common/utils.c:31-123 | parsing succeeds exactly with five fields, a placement without unreadable characters and a readable target |
| FenAcceptance.FieldsAreRead | common/utils.c:86-120 | side, rights, target and clock of any accepted string are what its fields say |
| Notation.CoordinatesAreInverse | server/handlers/move.c:13-36 | parsing accepts exactly the formatted squares and the two are inverse |
| Client.GameState.constructor | client/game_state.c:27-65 | the start position, an empty record, nobody in check |
| Client.GameState.StartGame | client/handlers/match.c:61-94 | the start position and an empty record when a match starts |
| Client.GameState.ApplyMoveFromServer | client/game_state.c:167-224 | well-formed coordinates are applied without a rule check, others refused without effect |
| Client.GameState.HandleMoveBroadcast | client/handlers/move.c:105-154 | game, record and check flags after a broadcast |
| Client.BadBroadcastIsIgnored | client/handlers/move.c:105-154 | a broadcast without two named squares changes nothing |
| Client.BroadcastIsHandled | client/handlers/move.c:105-154 | any other is played unchecked and recorded unless the record is full or ends with its text; the check flags follow the side named, and stay if none is |
| Client.SourceIsEmpty | common/rule.c:168-188 | after a legal move its source is empty: repeating it changes nothing and no legal move leaves it |
| Client.ConsecutiveTextsDiffer | client/handlers/move.c:116-126 | two consecutive moves of a game never have the same text |
| Client.RecordNext | client/handlers/move.c:113-134 | the duplicate test never drops a move of a game; one entry is added up to the limit |
| Client.HandleAgain | client/handlers/move.c:105-154 | a broadcast delivered again changes nothing |
| Client.ReplicaAgrees | client/handlers/move.c:105-154 | after any prefix of a game's broadcasts, each delivered at least once, the client has the server's position, the first 512 texts and the right check flags |
| Pgn.WritePgn | client/pgn_save.c:6-44 | the file is the tags, a blank line and the numbered movetext |
| Pgn.TagsNameThePlayers | client/pgn_save.c:17-30 | the file is seven tag lines in order, naming White's player and then Black's, a blank line and the movetext |
| Pgn.MovesAreNumbered | client/pgn_save.c:32-40 | moves i and i + 1, for even i, stand on one line under the number i / 2 + 1 |
| Pgn.LoadMoves | client/replay.c:33-52 | the loaded moves are the dot-free tokens behind the first blank line, cut to size, at most 512 |
| Pgn.DotFreeTokensAreTaken | client/replay.c:43-49 | of any tokens the first dot-free ones are taken, up to the room, cut to 15 characters |
| Strings.TokensJoin | client/replay.c:43-43 | the tokens together are the text without its white space |
| Pgn.HeaderEndsAtFirstBlank | client/replay.c:36-40 | the buffered line loop stops behind the first blank line |
| Pgn.CollectMovetext | client/pgn_save.c:32-40 | reading the printed movetext from any move on yields the moves from there on |
| Pgn.SavedLoads | client/replay.c:33-52 | a saved record is read back exactly when neither name contains a blank line |
| Replay.Player.ReplayToMove | client/replay.c:131-141 | the board shows the first target + 1 moves played from the start, whatever it showed before |
| Replay.Player.Turn | client/replay.c:177-242 | one turn of the event loop moves the cursor as specified and the board shows exactly the moves up to it |
| Replay.KeysMoveTheCursor | client/replay.c:209-233 | Up goes one move back unless at the start, Down and Enter one forward unless at the end, both stop automatic play; Space toggles it and notes the time when it is switched on; other keys do nothing |
| Replay.AutoPlayAdvances | client/replay.c:181-191 | the automatic step adds one move exactly when automatic play is on, a move is left and 500 ms have passed |
| Replay.DownThenUpRestores | client/replay.c:213-222 | Down and then Up lead back |
| Replay.DownsGoForward | client/replay.c:218-222 | n times Down goes n moves forward, or to the end |
| Replay.UpsGoBack | client/replay.c:213-217 | n times Up goes n moves back, or to the start |
| Replay.AutoPlayRuns | client/replay.c:181-191 | left alone for n turns at least half a second apart, automatic play goes n moves forward, or to the end |
| Replay.TokenIsPlayed | client/replay.c:134-139 | a token is decided by its first four characters and skipped if they do not name two squares |
| Replay.CursorStaysInRange | client/replay.c:177-242 | after any inputs the cursor is between -1 and the last move |
| Replay.ReplayIsFaithful | client/replay.c:131-141 | record, save, load and replay to the k-th move show the server's position after k moves, up to the 512 recorded |
| Replay.WholeReplayIsFaithful | client/replay.c:131-141 | every step of replaying a saved game shows the server's position after as many moves, and the end, for at most 512 moves, the final position |
| MatchManagement.MatchManager.AddPlayerToMatching | server/match_manager.c:230-344 | manager state and result of a request: pairing, waiting or error |
| MatchManagement.MatchManager.RemovePlayerFromMatching | server/match_manager.c:347-365 | the first waiting entry of the player is cleared, if any |
| MatchManagement.MatchManager.RemoveGame | server/match_manager.c:385-405 | the first active game of that id is ended, if any |
| MatchManagement.MatchManager.HandlePlayerDisconnect | server/match_manager.c:455-526 | the waiting entry or else the game of the player is cleared, with opponent and winner |
| MatchManagement.MatchManager.HandleResign | server/handlers/resign.c:23-104 | the game of the player is ended, with opponent and winner |
| MatchManagement.MatchManager.CheckGameTimeouts | server/match_manager.c:116-185 | every slot is charged and ended as specified, and the counter follows |
| MatchManagement.MatchManager.CheckSlot | server/match_manager.c:121-181 | one slot of the tick, with the announced winner |
| MatchManagement.MatchManager.TryMove | server/handlers/move.c:195-223 | turn, coordinates and legality in this order, and the move made exactly when all pass |
| MatchManagement.MatchManager.HandleMove | server/handlers/move.c:156-317 | the whole handler without interleaving, including the early return when the reply fails |
| MoveLaws.RequestIsJudged | server/handlers/move.c:183-211 | a request by a player of the game is accepted exactly if it is his turn and it names a legal move, for any descriptors; which refusal comes in every other case |
| MoveLaws.MoveIsAnswered | server/handlers/move.c:171-223 | in every reachable state between requests, with any other games, an acceptable request adds the move to the history of the first game in which the player sits and moves its board, and nothing else; any other changes nothing |
| MoveLaws.SeatOfAnybody | server/match_manager.c:368-382 | as long as players are in one place each, the first game in which a player sits is any in which he sits |
| MoveLaws.OnlyItsOwnStepsChangeIt | server/match_manager.c:116-526 | whatever event comes, an active game keeps players, names, start and limit; its clocks change on ticks only, its board and last move time by its own handler only, its activity by a tick, a leaving player or the verdict only |
| MoveLaws.VerdictEndsOwnGame | server/handlers/move.c:272-314 | the verdict ends the handler's own game if it is active and over, and otherwise changes nothing |
| MatchingLaws.RequestIsAnswered | server/match_manager.c:230-343 | with exact counters a request is paired with the one waiting player if a slot is free, refused if none is, and queued under its own name if nobody waits; seats by the coin, names, clocks, start position and frame |
| MatchingLaws.DistinctIffIdle | server/match_manager.c:230-344 | a successful request keeps players in one place each exactly when the requester was in none |
| MatchingLaws.PairedWithHimself | server/match_manager.c:230-344 | a player who asks twice is seated on both sides of a game |
| MoveLaws.PairedWithHimselfIsStuck | server/handlers/move.c:183-199 | who sits on both sides of a game is refused every move of Black |
| MatchingLaws.PlacesAfterAdd | server/match_manager.c:230-344 | a successful request adds one place, for the requester only |
| MatchingLaws.DisconnectedIsGone | server/match_manager.c:455-526 | with players apart a disconnected player is nowhere and only the opponent loses a place |
| MatchingLaws.DisconnectionIsLost | server/match_manager.c:455-526 | a waiting player loses one entry; otherwise one game in which he sits ends, won by and announced to the other side; otherwise nothing changes |
| MatchingLaws.CancellationIsAnswered | server/match_manager.c:347-365 | success exactly if the player waits; then one entry of his is cleared and counted, and nobody else nor any game is affected; otherwise nothing changes |
| MatchingLaws.CancelledIsNotWaiting | server/match_manager.c:347-365 | with exact counters no active entry of the player is left |
| MatchingLaws.RemovalIsAnswered | server/match_manager.c:385-405 | success exactly if an active game has the id; then one such game is ended and nothing else changes |
| MatchingLaws.ResignationIsLost | server/handlers/resign.c:31-101 | resigning ends one game of the player, won by and announced to the other side; otherwise nothing changes |
| Clocks.CastIsExact | server/match_manager.c:145-156 | the cast to 32 bits is exact exactly within the range and wraps around otherwise |
| Clocks.WholeCycleIsFree | server/match_manager.c:145-156 | a gap of 2^32 ms charges nothing |
| Clocks.TickKeepsClock | server/match_manager.c:128-181 | a tick ends the game exactly when it is processed and the mover's time has passed; otherwise white + black = 2 limits - (last check - first check), both positive |
| Clocks.TickCharges | server/match_manager.c:128-181 | a tick within 100 ms changes nothing; any other charges the side to move exactly the time since the last check, down to zero, and nothing else |
| Clocks.TimeoutIsLost | server/match_manager.c:143-180 | the announced winner has time left and the loser, the side to move, has none |
| Clocks.OldGamesEnd | server/match_manager.c:116-182 | a tick at first check + 2 limits + 100 ms or later ends the game |
| ServerClocks.StartedIsJustOpened | server/match_manager.c:263-269 | a request that starts a game opens one with full clocks and no moves |
| ServerClocks.ChargesAreFair | server/match_manager.c:128-168 | along any run of the server from the opening of a game on, the time charged to a side is off by at most its moves times the largest gap between ticks, and the two errors cancel |
| ServerClocks.TimeoutIsFair | server/match_manager.c:143-180 | along any such run a side that loses on time was really to move for at least the limit less moves times the largest gap |
| ServerRun.GameIdIsNew | server/match_manager.c:218-227 | a generated id differs from every id generated before |
| ServerSafety.IdsAfterShrink | server/match_manager.c:170-181 | a step that creates no game ends each game at most once and keeps the books |
| ServerSafety.StepFits | server/match_manager.c:116-526 | every step of event loop or timer keeps the invariant of the server, wherever ticks fall |
| ServerSafety.BooksBalance | server/match_manager.c:230-526 | in every reachable state the counters are exact, at most one player waits, and every game created is ended at most once |
| ServerSafety.HandlerKeepsItsSlot | server/handlers/move.c:171-314 | the slot the handler points to is never given to another game, and removal hits that game or nothing |
| ServerSafety.ServerGamesAreChess | server/handlers/move.c:171-314 | the moves of every game ever created, running or ended, are a legal run from the start and reach a position with the invariant of the rules; if every reply was sent none was accepted after the end and there are at most 12,700 |
| ServerSafety.BoardsShowTheGames | server/handlers/move.c:213-223 | every running game stands where its moves lead |
| ServerSafety.AllMovesAreBroadcast | server/handlers/move.c:251-309 | between requests all moves of a game, running or ended, have been broadcast exactly if no reply in it failed |
| ServerSafety.RunningMeansNotOver | server/handlers/move.c:251-314 | between requests no running game is mated, stalemated or drawn by the count, unless a reply in it failed |
| ServerSafety.OverMeansEnded | server/handlers/move.c:272-314 | a game that is over is entered as ended and no slot runs it, unless a reply in it failed |
| ServerSafety.LastStepDecides | server/handlers/move.c:251-314 | with the reply sent a running game stays active exactly if it is not over and its last move is broadcast; without, it stays active whatever the position and the move is not broadcast |
| ServerGames.EveryGameCanBePlayed | server/handlers/move.c:156-317 | every run of moves that the rules of acceptance allow is the broadcast history of a game on some server, which has ended exactly if it is over |
| ServerGames.DrawsComeUnclaimed | server/handlers/move.c:282-314 | there is a server that has ended a game as a draw by the count |
| ServerGames.RepetitionsRunOn | server/handlers/move.c:272-314 | there is a server running a game in which a position has occurred any number of times up to 25 |
| ServerGames.AnyReplyCanBeLost | server/handlers/move.c:251-255 | for every acceptable run there is a server on which the last reply was lost: the game is active, over or not, and all moves but the last are broadcast |
| ServerGames.FirstMoveCanGoUnnoticed | server/handlers/move.c:251-255 | a run of the server after which the first move is made and not broadcast |
| ServerGames.MateCanGoUnnoticed | server/handlers/move.c:251-255 | a run of the server after which a checkmated game is active and the mating move not broadcast |
| ServerGames.LostRepliesUndoTheBound | server/handlers/move.c:251-255 | for any positive number there is a server running a game of that many moves |
| ServerSafety.NoGameOutlivesItsClocks | server/match_manager.c:116-182 | after a tick every active game is younger than 2 limits + 100 ms, in every run |
| ServerSafety.QueueIsNeverFull | server/match_manager.c:340-343 | the branch for a full queue is unreachable |
| ServerSafety.PlayersStayApart | server/match_manager.c:230-526 | if only idle players request games nobody who sits in one place comes to sit in two |
| ServerSafety.IdlePlayersStayApart | server/match_manager.c:230-526 | from the start of the server on, if only idle players request games nobody ever sits in two places |
| Verdicts.VerdictIsFide | server/handlers/move.c:258-287 | end, winner, kind of end and check after the moves of any game are those of Articles 5.1.1, 5.2.1 and the count of 9.3.2 (taken without a claim), and of 3.9.1 |
| Verdicts.AcceptedRequest | server/handlers/move.c:195-309 | an accepted request is canonical, made by the player to move and legal, and is what both players are told |
| Verdicts.ClientsHoldTheServersPosition | server/handlers/move.c:289-309 | a client that received the broadcasts of a game, running or ended, holds the position its moves reach, which is the one on the server's board while it runs, if every reply was sent |
| Verdicts.SavedGamesReplayTheServersGames | client/replay.c:131-141 | what such a client saves is read back and replayed, move by move, as the game the server accepted, up to 512 moves |

## Left out

- Sockets, framing, protobuf messages, the handlers' replies and errors other than the ones named above; a broadcast counts as made when it is handed to the connection.
- Screens, dialogs, keyboard and mouse mapping, chat, logging, signals, and the clients' own countdown display.
- Clock readings, thread start and stop: times are inputs. Ticks are assumed less than 2^31 ms after the last check of every active game.
- The handler's check and move count as one step against the timer, which reads only the side to move; the data race on that field is not modelled.
- Files and the directory of replays: a saved game is a character sequence. The bytes of a name are characters; NUL bytes do not occur.
- Player names of 64 characters or more, which overrun the manager's fields, and game counters beyond 32 bits.
- Placement fields that overrun a rank: `Fen.FenParse` requires that they do not, because the code then writes outside the board. Numbers beyond `int` in the clock field.
- The fields of the game structure that the rules never maintain: full move number and the check, checkmate and stalemate flags.
- Threefold repetition, dead positions and promotion to another piece than a queen: there is no code for them.
- The client keeps one board for the running game and for replay (client/client_state.c:64, client/replay.c:132). The main screen is open again before a cancelled request is answered (client/client_network.c:291), so a replay can be open when a match starts and overwrite the live board; `Client.GameState` and `Replay.Player` are modelled with a board each.
- The choice of the saved result, which does not affect reading the game back.
