# A verified model of the real-time chess service

The repository is a chess game without turns: pieces slide cell by cell over real time, jump in place, collide, capture,
promote and cool down. A C++ server runs the game, a hand-written text protocol carries its state, and a Python gateway
keeps rooms, pairs players and gives matches to server shards. This project states what these parts do as Dafny
functions and state machines, states the same code as it runs as Dafny classes, methods and loops, ties the two
together, and proves whole-run properties.

`dafny verify dfyconfig.toml` checks the whole project.

## How it is built

| part | value or state machine | as it runs | properties |
|---|---|---|---|
| pieces, board, rules | ChessTypes, Rules | Roster, Board, PieceRules | Rules, RuleShapes |
| clock and events | Arbiter | RealTimeArbiter | Arbiter, EngineBatch |
| engine, every run | Engine | GameEngine | EngineFacts, EngineTime, EngineInvariants, EngineGrowth, EngineRequests, EngineRecords, EngineRoutes, EngineArrival, EngineCastling, EngineTicks |
| engine, act by act | EngineTraces, EngineFates | | EngineRevival, EngineLosses, EngineCrowding, EngineAccounts, EngineScores, EngineFlights, EngineCooling |
| engine, runs without castling | | | EngineOccupancy, EngineLedger, EngineRuns |
| particular runs | EngineScenes | | KingRevived, CellShared, LongTicks, HiddenPiece, WinnerDraw |
| snapshots and responses | Snapshots, Responses | SnapshotBuilder | SnapshotRuns, SnapshotContents, Winner |
| message codec | Json, Decimal, Protocol | Scanner, Reader, Writer | JsonRoundTrip, ProtocolRoundTrip, WireText |
| rooms | Rooms | RoomManager | RoomRuns, RoomAnswers, StrandedRooms |
| matchmaking queue | PlayQueue | PlayQueue.PlayQueue | PlayQueue |
| shard pool | Allocator | Allocator.ShardPoolAllocator | Allocator |
| matches | Matches | MatchManager | MatchRuns, MatchViews, MatchRatings, LateFailure, GatewayActions |

The engine is a function from states to states (`Engine.RequestMove`, `Engine.RequestJump`, `Engine.ProcessStep`,
`EngineTime.Wait`); a run is any sequence of requests and waits from a board of fresh pieces (`EngineRuns.Reaches`),
and its trace is the list of its smallest acts with the state before and after each (`EngineTraces.Trace.Records`).
The classes work in place: a `PieceObject` has the fields of a piece, a `Board` an `array2` of cells, a
`RealTimeArbiter` the active motions and jumps, a `GameEngine` scores, histories and pending castles. Each method's
postcondition equates the whole new state, `View()`, with the state function applied to the old one, so what is proved
of runs holds of the running code. The other parts follow the same plan. Locked blocks of the gateway are atomic steps;
runs are arbitrary interleavings of them.

What a function is to mean is said a second time, without it: requests, castling and attacks by coordinates
(RuleShapes, EngineRequests), scores by counting pieces (EngineScores), notation by squares (EngineRecords), snapshots by
what a client reads in them (SnapshotContents), the protocol as text (WireText), rooms by their answers (RoomAnswers).

Shared pointers to pieces are places in the list of all pieces ever created; two references are the same pointer iff
they are the same place, and a place beyond the list stands for a null pointer.

## What is found

For each, the run that shows it and the lemmas that say when it happens.

* Completing a castle does not look at the state of its pieces or at what stands on its cells. So on some runs a captured
  king comes back, the game is over with no king captured, and a piece at rest is thrown off the board without being
  captured (`KingRevived.RevivedByCastling`); on some two live pieces come to share a cell
  (`CellShared.TwoPiecesOnOneCell`). Exactly when: `EngineFates.WhoIsCaptured` and `EngineRevival` for captures and the
  end of the game, `EngineLosses` for pieces on no cell, `EngineCrowding` for shared cells, `EngineAccounts` for scores
  and the action ledger. On runs without an accepted castle none of it happens (`EngineRuns`).
* The comment on `_winner_color` says the king still on the board reliably names the winner. It does not when both kings
  fall (`WinnerDraw.AnnouncedWinnerIsNotNamed`), nor when a castle brings the captured king back
  (`KingRevived.RevivedByCastling`). On castle-free runs the answer is right unless both kings are captured
  (`Winner.WinnerAgreement`); what it is on every run is `Winner.NamedExactlyIfAloneOnBoard`.
* How a waiting time is cut into ticks may matter when a tick is longer than a step or a jump lands meanwhile
  (`LongTicks.ALongTickMatters`, `LongTicks.ALandingMatters`), and never does otherwise (`EngineTicks.TickRateDoesNotMatter`).
* A moving piece whose board cell was taken by a piece that stopped there is missing from the snapshot until it stops
  (`HiddenPiece.LivePieceIsNotShown`; exactly when: `SnapshotRuns.ShownExactlyWhenStored`).
* The code of a hidden room may be handed out again while its game is under way. Then rolling the game back puts the newer
  room out of reach, and removing that one the older room too (`StrandedRooms.ReusedCodeStrandsBoth`; exactly when:
  `StrandedRooms.StrandedExactly`).
* A release that ends with an exception or a time-out, or a cancelled call that waits for a spawn, uses up a place under the
  limit for good (`Allocator.OneFailedReleaseLosesThePlace`, `Allocator.WithoutPlacesForGood`; exactly what is left:
  `Allocator.WhoGetsAShard`).
* A start that fails after registering its match, for instance because an announcement cannot be sent, gives the shard back
  while the match stays in the index: two registered matches may share a shard (`LateFailure.TwoMatchesOnOneShard`), and
  a shard may be given back twice, exactly as `MatchRuns.TakenOutAndRatedOnce` says. Otherwise shards are exclusive and
  given back once (`MatchRuns.EveryMatchEndsOnce`).
* The gateway takes truth values for coordinates and numbers of any size for sequences, and forwards them as they are; the
  server reads such an action only if its coordinates are numbers and its sequence fits 64 bits
  (`GatewayActions.ATruthfulRow`; exactly when: `GatewayActions.WhichActionsArrive`).
* The room indexes stay in agreement only in the order in which the router calls the manager; the exact conditions for
  each call out of that order are proved beside the main result.

## Model

| member | source | states |
|---|---|---|
| EngineRuns.OneLogicalCellEach | server/chess_server/src/Engine/GameEngine.cpp:130-199 | On every run without an accepted castle no two live pieces share a logical cell (current cell of the motion while moving, board cell otherwise); a resting piece is stored on exactly one cell, a moving one has exactly one motion and is stored at most at its source, a captured one is on no cell and in no motion or jump |
| EngineRuns.MaterialIsConserved | server/chess_server/src/Engine/GameEngine.cpp:409-446 | On those runs each side's score is the summed value of the enemy pieces captured, in the points that EngineScores.ScoresCountCaptives spells out, and the value of all pieces, live and captured, changes only by +8 for each recorded promotion |
| EngineScores.ScoresCountCaptives | server/chess_server/src/Engine/GameEngine.cpp:419-446 | On those runs each score is 1 for each captured enemy pawn, 3 for each knight and bishop, 5 for each rook and 9 for each queen, counted over the pieces by kind; a king adds nothing |
| EngineRuns.EveryActionIsAccountedFor | server/chess_server/src/Engine/GameEngine.cpp:300-319 | On those runs accepted moves = non-jump history entries + active motions + pieces captured while moving, accepted jumps = jump entries + active jumps, and every jumping piece is airborne on the cell it took off from |
| EngineRuns.GameOverMeansKingCaptured | server/chess_server/src/Engine/GameEngine.cpp:518-535 | On those runs the game is over exactly when a king is captured; the end is announced once, for the colour that took a king |
| EngineTraces.TraceOfRun | server/chess_server/src/Engine/GameEngine.cpp:17-127 | Every run has a trace of its smallest acts (a request, time passing, the handing out of events, one step, one landing), sound at every act and ending where the run ends |
| EngineTraces.RecordedRunEnds | server/chess_server/src/Engine/GameEngine.cpp:114-127 | A trace is determined by its acts: whoever records the run ends in the run's state with every landing applied |
| EngineFates.StepMeetsItsFate | server/chess_server/src/Engine/GameEngine.cpp:130-199 | In every sound state a current step event is ignored, completes the castle of its piece, moves on, stops, is shot down by a jumping enemy or takes the enemy found there, with the whole new state in each case and what is known of the pieces involved |
| EngineFates.WhoIsCaptured | server/chess_server/src/Engine/GameEngine.cpp:130-297 | A step captures its victim and nobody else, and frees a captured piece iff its piece is moving and the castle found for that piece has the captured one as king or rook; the game ends iff the victim is a king |
| EngineRevival.CapturedUntilItsCastle | server/chess_server/src/Engine/GameEngine.cpp:266-278 | On every run, castling included, a captured piece stays captured from one state to a later one iff no act in between completes a castle of its own |
| EngineRevival.GameOverOnEveryRun | server/chess_server/src/Engine/GameEngine.cpp:518-535 | On every run the game is over iff some king has been captured on the way; it is over with no captured king iff a castle was completed for a captured king and no king is down after that |
| EngineLosses.LostOnlyBySweeping | server/chess_server/src/Engine/GameEngine.cpp:266-406 | On every run a piece is at rest on no cell iff some step wrote or cleared the cell it rested on without taking it: the four cells of a completed castle, or the cell on which a mover stops |
| EngineLosses.WhoIsLost | server/chess_server/src/Engine/GameEngine.cpp:266-406 | The same for one act of any kind; a piece that has lost its cell never gets one back |
| EngineCrowding.ApartUnlessCrossed | server/chess_server/src/Engine/GameEngine.cpp:266-297 | On every run no two live pieces ever share a logical cell iff no castle is completed while another moving piece is virtually on one of its two targets |
| EngineCrowding.ActKeepsSpread | server/chess_server/src/Engine/GameEngine.cpp:17-319 | The same for one act of any kind |
| EngineAccounts.BooksOfEveryRun | server/chess_server/src/Engine/GameEngine.cpp:266-446 | On every run a score is the worth of the captured enemies plus the worth of captured enemy castlers that came back; worth grows by eight for each promotion; accepted moves, a castle counting as two, are recorded, under way, captured under way or one of two that a castle recorded once; accepted jumps are recorded, in the air or ended without finding their piece |
| EngineScores.ScoresOfEveryRun | server/chess_server/src/Engine/GameEngine.cpp:266-446 | On every run, castling included, each score is those points for the captured enemies plus 5 for each captured enemy rook that a castle brought back |
| EngineScores.ACaptureScores | server/chess_server/src/Engine/GameEngine.cpp:419-446 | One capture adds 1, 3, 3, 5, 9 or 0 by the victim's kind to the attacker's score only |
| EngineFlights.AirborneMeansJumping | server/chess_server/src/Engine/GameEngine.cpp:300-319 | On every run a piece in the air has an active jump unless it stands on no cell, every active jump has its piece in the air, and that piece is stored at most where it took off |
| EngineFlights.AirborneExactlyWhileJumping | server/chess_server/src/Engine/GameEngine.cpp:55-68 | Without castling a piece is in the air iff it has an active jump |
| KingRevived.RevivedByCastling | server/chess_server/src/Engine/GameEngine.cpp:29-297 | A run at the standard durations on an 8x8 board: the castling king is captured, which ends the game, then its rook completes the castle; the king is back, the game is over with no king captured, the snapshot names no winner, and the piece that took the king rests on no cell |
| CellShared.TwoPiecesOnOneCell | server/chess_server/src/Engine/GameEngine.cpp:29-297 | A run at the standard durations on an 8x8 board after which a castled king and a bishop that is setting out are on one logical cell |
| EngineRuns.ReachedIsSound | server/chess_server/src/Engine/GameEngine.cpp:17-121 | Every run of move requests, jump requests and waits, castling included, keeps the engine invariant: motions on course, each piece stored once, captured pieces off the board, castles whole, cooldowns and history entries in range |
| EngineGrowth.RunGrows | server/chess_server/src/Engine/GameEngine.cpp:431-535 | Along every run scores and histories only grow, the end of the game is never undone, kings stay kings, and pieces keep their number and colour |
| EngineTime.RoundProgresses | server/chess_server/src/Engine/GameEngine.cpp:114-121 | Every round of the wait loop that has something due makes the measure (overdue time of the motions, number of motions and jumps) strictly smaller, castling included, so the loop ends |
| EngineTime.WaitLeavesNothingDue | server/chess_server/src/Engine/GameEngine.cpp:114-121 | wait(ms) ends with the clock ms later and no active motion or jump due |
| EngineTicks.TickRateDoesNotMatter | server/chess_server/src/Engine/GameEngine.cpp:114-199 | Tick-rate independence: with nothing due, two ways of cutting the same waiting time into ticks, none longer than a step of an active motion and with no landing meanwhile, end in the same state |
| EngineTicks.ChronicleIsUnique | server/chess_server/src/Realtime/RealTimeArbiter.cpp:100-103 | Events up to a deadline happen in one order only, by time and then by the order the motions were started, so two such chronicles are equal |
| LongTicks.ALongTickMatters | server/chess_server/src/Realtime/RealTimeArbiter.cpp:68-103 | A reached state with no jump in the air in which one wait of 2000 ms and two of 1000 ms end differently: a step longer than half the wait is applied before the second step of a faster piece, so the other rook is captured |
| LongTicks.ALandingMatters | server/chess_server/src/Engine/GameEngine.cpp:114-127 | At the standard durations, a reached state in which one wait of 1000 ms, no longer than the step under way, and two of 500 ms end differently: due steps are applied before due landings, so a jumper that should have landed captures its attacker |
| EngineRoutes.EverySlideIsStraightAndOnTime | server/chess_server/src/Realtime/RealTimeArbiter.cpp:24-97 | On every run the destination of a slide is its current cell plus k >= 1 unit steps, its n-th step falls at start + n * stepDurationMs, the start is not in the future, the next cell is on the board (the off-board branch is never taken), and a motion goes directly only for a knight or half a castle |
| EngineRoutes.AcceptedSlideStartsNow | server/chess_server/src/Engine/GameEngine.cpp:45-51 | An accepted move that is no castle adds one motion, of the piece on the source, from the source to the requested cell, which starts now with all its steps to go at the configured duration (at least 1 ms), so its arrival time is now + steps * duration; it goes directly to its destination iff it is a knight |
| EngineRequests.WhyAMoveIsRefused | server/chess_server/src/Engine/GameEngine.cpp:17-52 | A move request is refused as game over, outside, empty source or motion in progress in this order, the last iff the piece is moving, in the air, captured or still cooling down; any other request is answered by the castling test for a king two columns away and by move validation otherwise; whatever is refused changes nothing |
| EngineRequests.WhyAJumpIsRefused | server/chess_server/src/Engine/GameEngine.cpp:55-68 | The same for a jump: cannot_jump iff the piece is moving, in the air, captured or still cooling down, and accepted in every other case |
| EngineRequests.AnAcceptedJumpStartsNow | server/chess_server/src/Engine/GameEngine.cpp:55-68 | An accepted jump adds one active jump of the piece on that cell, until its configured jump time from now (at least 1 ms), and changes nothing but that piece's state |
| EngineRequests.WhenCastlingIsAllowed | server/chess_server/src/Engine/GameEngine.cpp:234-264 | A king that asks to go two columns may castle iff on an 8x8 board it stands on column 4 of its home row, it and the rook of its colour in that corner have never moved, the rook is at rest and rested, no cell between them is occupied, and no live enemy bears on any cell where the king stands, crosses or arrives; all said by coordinates |
| EngineRequests.AnAcceptedCastleStartsNow | server/chess_server/src/Engine/GameEngine.cpp:29-43 | An accepted castle adds two direct motions that both arrive after twice the king's time per cell, at least 1 ms, marks both pieces as moved and moving, and changes no other piece |
| EngineCooling.StoppedPieceWaits | server/chess_server/src/Engine/GameEngine.cpp:372-406 | On every run: after a piece has stopped d king steps from where it set out at time t, no request for it is accepted before t + 1000 * d, whatever else is asked, stepped, landed or castled meanwhile |
| EngineCooling.CoolingPieceWaits | server/chess_server/src/Engine/GameEngine.cpp:17-68 | On every run: once a piece at rest cools until some time, it stays at rest or is captured, and no request for it is accepted before that time |
| EngineCooling.LandingStartsCooling | server/chess_server/src/Engine/GameEngine.cpp:300-319 | A landing piece cools for its configured short rest, from the end of its jump |
| EngineCooling.CastlingStartsCooling | server/chess_server/src/Engine/GameEngine.cpp:266-297 | Both castlers cool for 2000 ms from the completion |
| EngineRecords.AStopIsRecorded | server/chess_server/src/Engine/GameEngine.cpp:372-464 | On a board of 8 rows and columns a stop leaves one entry in its colour's history: time, kind before promotion, cells, capture and promotion, written as K, Q, R, B, N, or the file of a capturing pawn, x for a capture, the square as a to h and 8 to 1, =Q for a promotion; White pawns promote on the top row, Black pawns on the bottom row |
| EngineRecords.ALandingIsRecorded | server/chess_server/src/Engine/GameEngine.cpp:300-319 | A landing of a piece still in the air on its cell leaves one jump in its colour's history; any other landing changes nothing |
| EngineRecords.ACastleIsRecorded | server/chess_server/src/Engine/GameEngine.cpp:279-297 | A completed castle leaves one entry, O-O to the right and O-O-O to the left, for the king's side |
| EngineRecords.AnAcceptedSlideMarksItsPiece | server/chess_server/src/Engine/GameEngine.cpp:45-51 | An accepted slide marks its piece as moving and moved, and changes neither board nor jumps, castles, scores, histories or other pieces |
| EngineArrival.UndisturbedSlideArrives | server/chess_server/src/Engine/GameEngine.cpp:114-154 | On any run from a state with nothing due, among any other moves, jumps, captures and castles: a slide whose own steps meet nobody and whose piece nobody else stops is under way, the same slide with one step fewer to go after each own step, until the step that makes up its whole Chebyshev distance (one step for a knight); that step falls at start + steps * stepDurationMs and leaves it at rest on exactly its destination, recorded and cooling down; and it has arrived iff the run has reached that time |
| EngineCastling.NoHalfCastle | server/chess_server/src/Engine/GameEngine.cpp:29-43 | On every run a castling motion belongs to a pending castle whose king's castle motion is active iff the king is not captured, and likewise its rook's: never half a castle while both are alive |
| EngineCastling.AcceptedCastleStartsBoth | server/chess_server/src/Engine/GameEngine.cpp:234-264 | An accepted castling request adds one pending castle and exactly two motions, the king's and the rook's, on the castle's own routes |
| EngineCastling.OneEventCompletesTheCastle | server/chess_server/src/Engine/GameEngine.cpp:266-297 | One event of either castler leaves both idle on their targets, ends both motions and no other, removes that pending castle and adds exactly one history entry |
| EngineCastling.PartnerEventDoesNothing | server/chess_server/src/Engine/GameEngine.cpp:130-133 | The partner's own event applied afterwards changes nothing |
| EngineCastling.CompletionRevivesACapturedPartner | server/chess_server/src/Engine/GameEngine.cpp:266-278 | Completing a castle brings a partner captured on the way back to life on the board, with scores and end of game unchanged; if it was the only captured king the game is over with no king captured |
| EngineInvariants.NextCellIsOnCourse | server/chess_server/src/Realtime/RealTimeArbiter.cpp:76-90 | A motion on course steps to a cell on the board that is one step further from its source and not past its destination |
| EngineInvariants.StepKeepsSound | server/chess_server/src/Engine/GameEngine.cpp:130-199 | Applying any due step event keeps the engine invariant |
| EngineInvariants.WaitKeepsSound | server/chess_server/src/Engine/GameEngine.cpp:114-127 | wait keeps the engine invariant, however many rounds it takes |
| EngineInvariants.MoveRequestKeepsSound | server/chess_server/src/Engine/GameEngine.cpp:17-52 | A move request, castling included, keeps the engine invariant |
| EngineInvariants.JumpRequestKeepsSound | server/chess_server/src/Engine/GameEngine.cpp:55-68 | A jump request keeps the engine invariant |
| EngineBatch.BatchIsInStep | server/chess_server/src/Realtime/RealTimeArbiter.cpp:68-103 | A batch holds at most one event for each motion, in strict order of time and start, each the next step of its motion |
| EngineBatch.StepKeepsInStep | server/chess_server/src/Engine/GameEngine.cpp:124-127 | While a batch is applied the events still to come stay the next steps of their motions, or their pieces have stopped |
| EngineBatch.BatchIsWhatIsDue | server/chess_server/src/Realtime/RealTimeArbiter.cpp:68-128 | A step is handed out iff it is the next one of a motion whose time has come, earlier ones first and, at equal times, those of motions started earlier; a landing is handed out iff it is that of a finished jump |
| EngineOccupancy.NothingFoundMeansVacant | server/chess_server/src/Engine/GameEngine.cpp:322-341 | If the search over virtual and real cells finds nobody, no other piece is logically on the cell |
| EngineOccupancy.FoundPieceIsThere | server/chess_server/src/Engine/GameEngine.cpp:322-341 | The piece the search finds is another one and really is there: at rest on the board cell, or moving with that current cell |
| EngineOccupancy.CaptureVacates | server/chess_server/src/Engine/GameEngine.cpp:161-186 | Once the piece found on a cell is captured, nobody but the attacker is logically there |
| Rules.AttackTestAgreesWithRuleEngine | server/chess_server/src/Engine/GameEngine.cpp:208-232 | With no captured piece on the board, a square is attacked by a colour iff some source has validateMove accept a move to it once a piece of the other colour is put there |
| RuleShapes.WhichMovesAreValid | server/chess_server/src/Rules/RuleEngine.cpp:5-64 | The reason given for a move, by coordinates only: outside, empty source, a piece of the same colour on the target, otherwise OK iff the difference of the cells is that of the kind (knight 1 and 2, king at most 1 each way, pawn one row towards the other side, two from its start row, or diagonally onto an enemy) and no cell strictly between is occupied |
| RuleShapes.WhichSquaresAreAttacked | server/chess_server/src/Engine/GameEngine.cpp:208-232 | A square is attacked iff some live piece of that colour bears on it, by coordinates: pawns diagonally ahead, the others by their move with nothing between |
| Rules.LegalMovesAreStraight | server/chess_server/src/Rules/PieceRules.cpp:45-104 | A validated move of anything but a knight runs along a row, a column or a diagonal |
| Rules.PathClearIgnoresEndpoint | server/chess_server/src/Rules/PieceRules.cpp:7-42 | Whether a path is clear does not depend on what its last cell holds |
| PieceRules.IsPathClear | server/chess_server/src/Rules/PieceRules.cpp:7-42 | On a straight line, one cell included, the cell-by-cell walk ends and answers whether every cell strictly between the two is empty; callers ask about no other, and off such lines the walk never meets the destination |
| PieceRules.CanMoveLikeRook | server/chess_server/src/Rules/PieceRules.cpp:45-58 | The walk along a row or column agrees with the rook's shape |
| PieceRules.CanMoveLikeBishop | server/chess_server/src/Rules/PieceRules.cpp:61-74 | The walk along a diagonal agrees with the bishop's shape |
| PieceRules.CanMoveLikePawn | server/chess_server/src/Rules/PieceRules.cpp:106-150 | One step or two from the start row onto empty cells, or a diagonal step onto an enemy piece |
| PieceRules.ValidateMove | server/chess_server/src/Rules/RuleEngine.cpp:42-64 | The reason given is the first failing check, in the order outside, empty source, friendly destination, illegal shape |
| PieceRules.IsLegalByPieceKind | server/chess_server/src/Rules/RuleEngine.cpp:5-40 | The stored piece's own shape decides; an empty source is not legal |
| PieceRules.IsSquareAttacked | server/chess_server/src/Engine/GameEngine.cpp:208-232 | The scan over all cells finds an attacker iff one exists |
| GameEngine.GameEngine.RequestMove | server/chess_server/src/Engine/GameEngine.cpp:17-52 | Result and whole new engine state equal the state machine's; so all run properties hold of it. In an unfinished game with cells inside and a piece x on the source, the reason is motion in progress iff x is not idle or now is before the end of its cooldown. Rejections leave the state unchanged |
| GameEngine.GameEngine.RequestJump | server/chess_server/src/Engine/GameEngine.cpp:55-68 | Result and whole new engine state equal the state machine's; the reason is cannot_jump iff the piece there is not idle or now is before the end of its cooldown. Rejections leave the state unchanged |
| GameEngine.GameEngine.Wait | server/chess_server/src/Engine/GameEngine.cpp:114-121 | The loop ends, and the whole new state is the one the wait properties are about |
| GameEngine.GameEngine.ApplyTimeEvents | server/chess_server/src/Engine/GameEngine.cpp:124-127 | All steps are applied in order, then all landings |
| GameEngine.GameEngine.ProcessStepEvent | server/chess_server/src/Engine/GameEngine.cpp:130-140 | The step's whole effect: nothing for a piece no longer moving, a castle completed, or the step resolved |
| GameEngine.GameEngine.ResolveStep | server/chess_server/src/Engine/GameEngine.cpp:142-199 | The five outcomes of a step, each with its whole effect on board, pieces, clock, scores, history and end of game |
| GameEngine.GameEngine.FindPieceAtRealOrVirtualCell | server/chess_server/src/Engine/GameEngine.cpp:322-341 | The two scans answer as the search about which the occupancy lemmas speak |
| GameEngine.GameEngine.StopMovingPieceAt | server/chess_server/src/Engine/GameEngine.cpp:372-406 | Board, promotion, rest, cooldown of a second per cell, motion removed and one history entry, and nothing else |
| GameEngine.GameEngine.CapturePiece | server/chess_server/src/Engine/GameEngine.cpp:179-184 | The victim is captured, off the board and out of the clock, and the attacker's score alone grows, by 1, 3, 3, 5, 9 or 0 for a pawn, knight, bishop, rook, queen or king |
| GameEngine.GameEngine.RemovePieceFromBoard | server/chess_server/src/Engine/GameEngine.cpp:344-358 | The first cell, row by row, that stores the piece is emptied |
| GameEngine.GameEngine.CommitPieceToCell | server/chess_server/src/Engine/GameEngine.cpp:361-369 | The source is emptied only if it still stores the piece; the destination stores it, whoever was there |
| GameEngine.GameEngine.PromotePawnIfNeeded | server/chess_server/src/Engine/GameEngine.cpp:409-416 | A pawn on its last row becomes a queen, and only then |
| GameEngine.GameEngine.BuildMoveNotation | server/chess_server/src/Engine/GameEngine.cpp:449-464 | The notation of the recorded move, built part by part |
| GameEngine.GameEngine.CompleteCastleFor | server/chess_server/src/Engine/GameEngine.cpp:266-297 | The first pending castle of the piece is completed as the castling lemmas describe, or nothing changes |
| GameEngine.GameEngine.CanCastle | server/chess_server/src/Engine/GameEngine.cpp:234-264 | A castle is returned iff board size, unmoved king and rook, idle rook, empty rank and unattacked squares allow it |
| GameEngine.GameEngine.ProcessJumpLanding | server/chess_server/src/Engine/GameEngine.cpp:300-319 | A piece still airborne on its cell comes to rest, cools down and is recorded; any other landing does nothing |
| GameEngine.GameEngine.EndGame | server/chess_server/src/Engine/GameEngine.cpp:518-535 | Only the first call ends the game and is announced |
| RealTimeArbiter.RealTimeArbiter.AdvanceTime | server/chess_server/src/Realtime/RealTimeArbiter.cpp:68-128 | Time moves; steps are exactly those due of moving pieces, at most one each, sorted; landings are exactly the finished jumps; what is kept is exactly the rest |
| RealTimeArbiter.RealTimeArbiter.StartMotion | server/chess_server/src/Realtime/RealTimeArbiter.cpp:24-48 | A motion with at least 1 ms per step and the next number is appended and the piece moves |
| RealTimeArbiter.RealTimeArbiter.StartJump | server/chess_server/src/Realtime/RealTimeArbiter.cpp:51-65 | A jump of at least 1 ms is appended and the piece is airborne |
| RealTimeArbiter.RealTimeArbiter.UpdateMotionCell | server/chess_server/src/Realtime/RealTimeArbiter.cpp:141-149 | Only the first motion of the piece moves on, by one cell and one step time |
| RealTimeArbiter.RealTimeArbiter.CancelMotion | server/chess_server/src/Realtime/RealTimeArbiter.cpp:157-163 | Exactly the motions of the piece are removed, the order of the others kept |
| Arbiter.AdvancedMembers | server/chess_server/src/Realtime/RealTimeArbiter.cpp:141-149 | After a motion has moved on, the motions are the same but for that one, and still distinct |
| Arbiter.SortedBatchIsStrict | server/chess_server/src/Realtime/RealTimeArbiter.cpp:100-103 | The sorted batch has no two events of equal time and number |
| Arbiter.LandingsAreTheFinishedJumps | server/chess_server/src/Realtime/RealTimeArbiter.cpp:105-117 | Every jump is either landed or kept, none lost or doubled |
| Roster.PieceObject.StartCooldown | shared/cpp/src/Core/Piece.cpp:56-69 | A negative duration counts as none; the cooldown ends its duration after its start |
| Roster.Roster.SetState | shared/cpp/src/Core/Piece.cpp:42-46 | Changing one piece's state changes that piece's state and no other piece |
| Board.Board.FindCell | server/chess_server/src/Engine/GameEngine.cpp:344-352 | The row-by-row scan returns the first cell that stores the piece, or none exactly if no cell does |
| Board.Board.SetPieceAt | shared/cpp/src/Core/Board.cpp:89-95 | A cell inside the board stores the piece and no other cell changes; outside nothing happens |
| Board.Board.RemovePiece | shared/cpp/src/Core/Board.cpp:80-86 | A cell inside the board is emptied and no other cell changes; outside nothing happens |
| Board.Board.PlacePiece | shared/cpp/src/Core/Board.cpp:66-77 | A piece is placed iff the cell is inside and empty, and nothing changes otherwise |
| SnapshotRuns.ReachableSnapshotIsValid | server/chess_server/src/Messaging/GameStateSnapshotBuilder.cpp:85-266 | The snapshot of every reached 8x8 state, castling included, with numbers that fit their machine integers and writable names, passes every check of the reader |
| SnapshotRuns.StateUpdateSurvivesTheWire | server/chess_server/src/Messaging/GameStateSnapshotBuilder.cpp:85-266 | So a message carrying it is read back as it was sent |
| SnapshotRuns.ShownExactlyWhenStored | server/chess_server/src/Messaging/GameStateSnapshotBuilder.cpp:110-180 | On every run a live piece is in the snapshot iff the board stores it, so a moving piece whose board cell was taken is missing |
| SnapshotRuns.NothingIsShownTwice | server/chess_server/src/Messaging/GameStateSnapshotBuilder.cpp:48-60 | Without castling no two pieces of a snapshot stand on one cell, and only a moving piece can be missing |
| HiddenPiece.LivePieceIsNotShown | server/chess_server/src/Messaging/GameStateSnapshotBuilder.cpp:110-180 | A run at the standard durations on an 8x8 board after which no piece of the snapshot has the number of a rook that is under way: another rook has stopped on the cell it left |
| Snapshots.ViewsAreDistinct | server/chess_server/src/Messaging/GameStateSnapshotBuilder.cpp:107-180 | No piece number is shown twice, whatever the board holds |
| SnapshotContents.ScoresShown | server/chess_server/src/Messaging/GameStateSnapshotBuilder.cpp:96-100 | On every castle-free run the snapshot's whiteScore is 1, 3, 5 or 9 points for each captured Black piece by kind, and its blackScore those of the captured White pieces |
| SnapshotContents.ScoresShownOnEveryRun | server/chess_server/src/Messaging/GameStateSnapshotBuilder.cpp:96-100 | On every run, castling included, plus 5 for each captured rook of that colour that a castle brought back |
| SnapshotContents.PiecesShown | server/chess_server/src/Messaging/GameStateSnapshotBuilder.cpp:110-180 | On every run each piece of the snapshot is a live piece with its number, its token in the letters w, b and K, Q, R, B, N, P, its state in words, its moved flag, its total cooldown and as remaining cooldown what is left of its rest |
| SnapshotContents.StatesShown | server/chess_server/src/Messaging/GameStateSnapshotBuilder.cpp:110-180 | On every run, castling included, a piece is shown moving iff the snapshot has a motion under its number, and then on that motion's current cell; airborne iff it has a jump under its number, and then on the jump's cell; idle otherwise |
| SnapshotContents.HistoriesShown | server/chess_server/src/Messaging/GameStateSnapshotBuilder.cpp:62-81 | On every run every entry of whiteMoveHistory is marked w and every entry of blackMoveHistory b |
| SnapshotContents.MotionsShown | server/chess_server/src/Messaging/GameStateSnapshotBuilder.cpp:182-226 | The motions of the engine in their order, each field under its own name |
| SnapshotContents.JumpsShown | server/chess_server/src/Messaging/GameStateSnapshotBuilder.cpp:228-246 | The jumps of the engine in their order, each field under its own name |
| SnapshotContents.EntriesShown | server/chess_server/src/Messaging/GameStateSnapshotBuilder.cpp:248-264 | The history entries of each side in their order, each field under its own name, kinds as letters |
| SnapshotContents.SummaryShown | server/chess_server/src/Messaging/GameStateSnapshotBuilder.cpp:85-105 | The clock and the end of game are the engine's, the names, readiness and start those given |
| SnapshotBuilder.Build | server/chess_server/src/Messaging/GameStateSnapshotBuilder.cpp:85-266 | The nested loops build exactly the snapshot those lemmas are about; its scores, clock and end of game are the engine's own |
| Responses.EveryResponseArrives | server/chess_server/src/Engine/GameEngine.cpp:71-111 | Every valid request in every reached state gets a response that survives the wire, repeats sequence and cells, and says accepted iff its type does |
| Responses.WhatIsAnswered | server/chess_server/src/Engine/GameEngine.cpp:71-111 | A move request is answered for its two cells and a jump request for its source, with the engine's verdict and reason and the snapshot of the state after it; any other message is refused as unsupported and changes nothing |
| Responses.ReasonsByTheirWords | server/chess_server/src/Engine/GameEngine.cpp:17-68 | Each reason is told by its own word |
| Winner.WinnerAgreement | server/api_gateway/app/matches/manager.py:491-518 | On every castle-free run with one king of each colour the snapshot names a colour iff the other king, and only it, is captured, and then the engine announced that colour, once; a finished game's snapshot names nobody iff both kings are captured |
| Winner.NamedExactlyIfAloneOnBoard | server/api_gateway/app/matches/manager.py:491-518 | On every run, castling included, with one king of each colour at the start, the snapshot names a colour iff its king is live and stored on the board and the other king is not |
| Winner.TokenShownWhileAlive | server/api_gateway/app/matches/manager.py:510-513 | On castle-free runs the token of a colour's only king is in the snapshot iff that king is not captured |
| Winner.LiveKingIsStored | server/chess_server/src/Engine/GameEngine.cpp:130-199 | On castle-free runs a live king is always stored on the board, even on its way: a king only ever moves one cell |
| WinnerDraw.AnnouncedWinnerIsNotNamed | server/api_gateway/app/matches/manager.py:491-518 | A castle-free run at the standard durations on an 8x8 board with one king a side in which the claim that the remaining king names the winner fails: two rooks take the two kings, White is announced as the winner, and the snapshot of the finished game names nobody |
| ProtocolRoundTrip.RoundTripExactly | shared/cpp/src/Network/Protocol.cpp:1103-1221 | deserialize(serialize(m)) == m iff m is valid (numbers in range, positions on the board or unused, known tokens, states, colours, kinds, cooldown at most its total, default snapshot when none is announced) and no text holds an unsupported control character |
| ProtocolRoundTrip.RoundTrip | shared/cpp/src/Network/Protocol.cpp:1103-1221 | Every valid, writable message with all five nested arrays is read back as it was |
| ProtocolRoundTrip.UnannouncedSnapshotIsLost | shared/cpp/src/Network/Protocol.cpp:1149-1152 | With hasSnapshot false a snapshot is dropped on the wire and nothing else is |
| ProtocolRoundTrip.SerializeIsInjective | shared/cpp/src/Network/Protocol.cpp:1103-1157 | Two valid messages with the same text are the same message |
| WireText.WhatIsWritten | shared/cpp/src/Network/Protocol.cpp:988-1157 | The text of every message, spelled out: version 5, the literal name of each of the 14 types, and every key of the header, the snapshot and its pieces, motions, jumps and entries in order; an error iff some text holds an unsupported control character |
| WireText.GatewayTextIsRead | server/api_gateway/app/matches/bridge.py:15-37 | The text the gateway sends, spelled out as a function of type name, number, user name and cells, is what the server's writer writes for the message of that type, and is read as it iff the number fits 64 bits |
| WireText.GatewayMoveIsAMove | server/api_gateway/app/matches/bridge.py:161-174 | The gateway's text of type move_request is read as a move request with its number and its two cells |
| WireText.GatewayJumpIsAJump | server/api_gateway/app/matches/bridge.py:176-188 | The gateway's text of type jump_request, which names its cell twice, is read as a jump request on that cell |
| WireText.GatewayHelloIsRead | server/api_gateway/app/matches/bridge.py:58-80 | The gateway's first text on a connection is read as a reconnect request under that user name |
| GatewayActions.WhichActionsArrive | server/api_gateway/app/matches/manager.py:300-313 | An action the gateway accepts and forwards, its cells in whatever order and with whatever else they hold, is read by the server iff its number fits 64 bits and its coordinates are numbers, and then as that action on those cells |
| GatewayActions.WhatPassesForACell | server/api_gateway/app/matches/manager.py:305-313 | The gateway takes an object for a cell iff its row and column are integers from 0 to 7 or truth values |
| GatewayActions.WhatPassesForASequence | server/api_gateway/app/matches/manager.py:300-304 | The gateway takes for a sequence number a positive integer, and no truth value |
| GatewayActions.ATruthfulRow | server/api_gateway/app/matches/manager.py:305-313 | A move with the row true: the gateway takes it and sends its text, which the server cannot read |
| WireText.WrittenTextMeansIt | shared/cpp/src/Network/Protocol.cpp:25-62 | A written text, read as a string by section 7 of RFC 8259, means the text; one that cannot be written would be no such string |
| WireText.StringsAreReadAsMeant | shared/cpp/src/Network/Protocol.cpp:316-382 | Whatever JSON string a text holds, the reader gives its meaning by section 7 of RFC 8259, or refuses it iff it has an escape other than those for quote, backslash, line feed, carriage return and tab, so a hexadecimal one |
| WireText.NumeralsHavePlaces | shared/cpp/src/Network/Protocol.cpp:523-533 | In a written number the last character stands for the ones, the one before for the tens, and so on, without a leading zero |
| WireText.NumbersHaveSigns | shared/cpp/src/Network/Protocol.cpp:523-533 | A negative number is a minus sign and the numeral of its amount |
| WireText.WhatIsSkipped | shared/cpp/src/Network/Protocol.cpp:11-23 | Between tokens just spaces, tabs, line ends and feeds are skipped, by code |
| WireText.WhichMessagesPass | shared/cpp/src/Network/Protocol.cpp:1103-1221 | A message without a snapshot survives the wire iff its cells are on the 8x8 board or both coordinates are -1, its numbers are in the ranges given in figures, and its texts hold no control character but tab, line feed and carriage return |
| WireText.WhichPiecesPass | shared/cpp/src/Network/Protocol.cpp:735-785 | A piece is read back iff its number, cell, token, state and cooldowns are as listed, in figures and letters |
| WireText.WhichMotionsPass | shared/cpp/src/Network/Protocol.cpp:787-836 | A motion is read back iff its numbers, cells, steps and times are in the ranges given in figures |
| WireText.WhichJumpsPass | shared/cpp/src/Network/Protocol.cpp:838-858 | A jump is read back iff its number, cell and time are in the ranges given in figures |
| WireText.WhichEntriesPass | shared/cpp/src/Network/Protocol.cpp:860-896 | A history entry is read back iff its time, colour, kind and cells are as listed |
| WireText.WhichSnapshotsPass | shared/cpp/src/Network/Protocol.cpp:898-984 | A snapshot is read back whole iff each of its parts is and its clock, start and scores are in the ranges given in figures |
| ProtocolRoundTrip.SnapshotIsRead | shared/cpp/src/Network/Protocol.cpp:898-984 | A valid snapshot's text is read back whole |
| ProtocolRoundTrip.PieceIsRead | shared/cpp/src/Network/Protocol.cpp:735-785 | A valid piece's text is read back |
| ProtocolRoundTrip.MotionIsRead | shared/cpp/src/Network/Protocol.cpp:787-836 | A valid motion's text is read back |
| ProtocolRoundTrip.JumpIsRead | shared/cpp/src/Network/Protocol.cpp:838-858 | A valid jump's text is read back |
| ProtocolRoundTrip.HistoryIsRead | shared/cpp/src/Network/Protocol.cpp:860-896 | A valid history entry's text is read back |
| ProtocolRoundTrip.CarriedArray | shared/cpp/src/Network/Protocol.cpp:256-314 | An array of objects is read back in order if each object is |
| Protocol.MessageTypesAreDistinct | shared/cpp/src/Network/Protocol.cpp:988-1101 | Every message type's name is read as that type |
| Protocol.Deserialize | shared/cpp/src/Network/Protocol.cpp:1159-1221 | Whatever text it is given, an accepted message satisfies every check of the protocol |
| Protocol.ReadSnapshot | shared/cpp/src/Network/Protocol.cpp:898-984 | An accepted snapshot has non-negative times and scores and only valid pieces, motions, jumps and entries |
| JsonRoundTrip.FindsEveryField | shared/cpp/src/Network/Protocol.cpp:93-158 | On any printed object the scanner returns the start of the first top-level field with the key, whatever quotes, braces, brackets, colons or key-like texts stand in strings, objects or arrays, and reports a missing field iff there is none |
| JsonRoundTrip.FindPassesValue | shared/cpp/src/Network/Protocol.cpp:110-153 | The search passes over any printed value with its depths unchanged |
| JsonRoundTrip.UnescapeInvertsEscape | shared/cpp/src/Network/Protocol.cpp:25-62 | Reading escaped text gives the text back, whatever it holds, and the scan for its end stops at its closing quote |
| JsonRoundTrip.ParseInvertsIntText | shared/cpp/src/Network/Protocol.cpp:384-424 | A number's text is parsed as the number iff it fits 64 bits |
| JsonRoundTrip.ObjectsAreMatched | shared/cpp/src/Network/Protocol.cpp:160-202 | The brace that opens a printed object is matched by the one that closes it |
| JsonRoundTrip.MatchPassesValue | shared/cpp/src/Network/Protocol.cpp:175-197 | Depth counting passes over any printed value unchanged, braces in strings included |
| JsonRoundTrip.ReadsObjectArray | shared/cpp/src/Network/Protocol.cpp:256-314 | A printed array of objects is read as the texts of its objects, in order |
| JsonRoundTrip.ReadsObject | shared/cpp/src/Network/Protocol.cpp:204-228 | A printed object field is read as exactly its text |
| JsonRoundTrip.ReadsText | shared/cpp/src/Network/Protocol.cpp:316-382 | A printed text field is read as the text |
| Scanner.EscapeJson | shared/cpp/src/Network/Protocol.cpp:25-62 | The loop gives the escaped text, or an error iff some character is an unsupported control character |
| Scanner.FindStringEnd | shared/cpp/src/Network/Protocol.cpp:64-91 | The loop with its escape flag stops where the lemmas on strings say |
| Scanner.FindValue | shared/cpp/src/Network/Protocol.cpp:93-158 | The loop with two depth counters finds what the lookup lemma is about, or its error |
| Scanner.FindMatchingDelimiter | shared/cpp/src/Network/Protocol.cpp:160-202 | The loop with its depth counter finds what the matching lemmas are about, or its error |
| Scanner.ReadObjectArray | shared/cpp/src/Network/Protocol.cpp:256-314 | The loop gives the objects in order, or the error for a trailing comma, a missing comma or an item that is no object |
| Scanner.ReadString | shared/cpp/src/Network/Protocol.cpp:316-382 | The loop gives the unescaped text, or the error for a bad escape or a missing quote |
| Scanner.ReadSigned | shared/cpp/src/Network/Protocol.cpp:384-424 | A number must be followed by a comma or a closing bracket |
| Writer.WriteSnapshot | shared/cpp/src/Network/Protocol.cpp:654-702 | The stream grows by exactly the printed snapshot, or the writing ends with an error iff some text cannot be written |
| Writer.WritePiece | shared/cpp/src/Network/Protocol.cpp:535-555 | The stream grows by exactly the printed piece |
| Writer.WriteHistory | shared/cpp/src/Network/Protocol.cpp:603-634 | The stream grows by exactly the printed entry |
| Writer.WritePieces | shared/cpp/src/Network/Protocol.cpp:636-652 | The loop writes commas between items only and brackets around them |
| Writer.Serialize | shared/cpp/src/Network/Protocol.cpp:1103-1157 | The text written is the message spelled out key by key, WireText.MessageText, or an error iff some text cannot be written |
| Reader.Deserialize | shared/cpp/src/Network/Protocol.cpp:1159-1221 | Whatever it accepts passes every check of the protocol, the spelled-out text of a valid writable message is read as that message, and any text gives the value or the first error of the reading function |
| Reader.ReadPieces | shared/cpp/src/Network/Protocol.cpp:938-945 | The loop stops at the first piece that cannot be read |
| Reader.ReadPosition | shared/cpp/src/Network/Protocol.cpp:498-521 | What is accepted is a cell of the board, or the unused position where that is allowed |
| RoomRuns.IndexesAgree | server/api_gateway/app/rooms/manager.py:132-526 | On every run in the router's call order: a user's room is r iff r is a stored unfinished room with the user as host or guest, a code leads to a stored waiting hidden room that carries it, a user plays in and a connection watches at most one stored room |
| RoomRuns.RunsKeepAgreement | server/api_gateway/app/rooms/manager.py:132-526 | Each run in that order keeps all index maps in agreement with the rooms |
| RoomRuns.DiscardingAFinishedRoom | server/api_gateway/app/rooms/manager.py:307-322 | Out of order: discarding a finished room keeps the indexes iff its players are in no other room by then |
| RoomRuns.RollingBackAFinishedRoom | server/api_gateway/app/rooms/manager.py:324-344 | Out of order: rolling back a finished room keeps the indexes iff that user is not its guest, so it does nothing |
| RoomRuns.FinishingAWaitingRoom | server/api_gateway/app/rooms/manager.py:416-426 | Out of order: finishing a waiting room keeps the indexes iff no code leads to it |
| StrandedRooms.StrandedExactly | server/api_gateway/app/rooms/manager.py:86-93 | After every run in the router's order from no rooms at all: a waiting hidden room is not reached by its own code iff at some step, since which it has been there, the code led to it and another room with the same code was rolled back, discarded or removed |
| StrandedRooms.JoinableAllAlong | server/api_gateway/app/rooms/manager.py:244-267 | All along a run in that order every waiting hidden room can be joined by its code iff no step cuts a room off in this way |
| StrandedRooms.StepStrands | server/api_gateway/app/rooms/manager.py:307-526 | The same for one step in that order |
| StrandedRooms.ReusedCodeStrandsBoth | server/api_gateway/app/rooms/manager.py:324-344 | A run in the router's order from no rooms at all: a code is drawn again while its game is under way, rolling that game back leaves the newer room out of reach, and when the newer room's host leaves, the older room is out of reach too |
| Rooms.ValidateRoomName | server/api_gateway/app/rooms/manager.py:26-43 | An accepted name is the value without the white space around it, not empty and at most 40 UTF-8 bytes; a value is refused only if that is empty or longer |
| RoomAnswers.WhyARoomIsRefused | server/api_gateway/app/rooms/manager.py:26-181 | A room is refused iff its visibility is neither public nor hidden, else its stripped name is empty or longer than 40 bytes in UTF-8 spelled out after RFC 3629, else the user is in a room, else an unfinished room has the name up to the case of A to Z |
| RoomAnswers.WhatCountsAsSpace | server/api_gateway/app/rooms/manager.py:32-32 | The white space stripped from a name, by code |
| RoomManager.RoomManager.NewRoomCode | server/api_gateway/app/rooms/manager.py:86-93 | The loop stops at the first drawn code that leads to no room |
| RoomManager.RoomManager.CreateRoom | server/api_gateway/app/rooms/manager.py:132-181 | Visibility, name, membership and taken names are refused in this order and then nothing changes; otherwise a waiting room of the host is stored and indexed, hidden iff asked for, with a code that led to no room before and now leads to it |
| RoomManager.RoomManager.Join | server/api_gateway/app/rooms/manager.py:183-214 | Only a waiting room is joined, by somebody in no room who is not its host: it becomes active with host white and guest black, the guest is indexed and just its code is forgotten; every refusal changes nothing |
| RoomManager.RoomManager.JoinPublicRoom | server/api_gateway/app/rooms/manager.py:216-242 | A room is joined by its number iff it is stored, public, waiting without a guest, and the user is not its host and in no room; not found iff it is not stored, not public iff it is stored and hidden; a refusal changes nothing |
| RoomManager.RoomManager.JoinHiddenRoom | server/api_gateway/app/rooms/manager.py:244-267 | A room is joined by a code iff the code leads to a stored room that may be joined; the code is invalid iff it leads to none; a refusal changes nothing |
| RoomManager.RoomManager.MatchPlayers | server/api_gateway/app/rooms/manager.py:273-305 | An active public room without code or spectators in which the first player is host and White and the second guest and Black, both indexed, or a refusal and no change iff one of them is in a room |
| RoomManager.RoomManager.DiscardRoom | server/api_gateway/app/rooms/manager.py:307-322 | The room, both index entries and its code are gone, and nothing else |
| RoomManager.RoomManager.RollbackJoin | server/api_gateway/app/rooms/manager.py:324-344 | If the guest is the one named, the guest leaves, neither colour is taken, the room waits again under its own code with its host, and nobody else is affected; otherwise nothing changes |
| RoomManager.RoomManager.WatchRoom | server/api_gateway/app/rooms/manager.py:346-388 | A spectator is entered in room and index together, or one of four refusals and no change |
| RoomManager.RoomManager.LeaveSpectator | server/api_gateway/app/rooms/manager.py:390-410 | A spectator leaves room and index together, or a refusal and no change |
| RoomManager.RoomManager.FinishRoom | server/api_gateway/app/rooms/manager.py:416-426 | Both players are freed; finishing twice does nothing |
| RoomManager.RoomManager.RemoveConnection | server/api_gateway/app/rooms/manager.py:451-526 | The new dictionaries and the answer are those the three lemmas below speak of |
| RoomAnswers.WhatARemovalDoes | server/api_gateway/app/rooms/manager.py:451-496 | A room is removed iff the user is its host or guest on that very connection; then the room, both players' entries, its code and its spectators' entries are gone; the connection watches and subscribes to nothing afterwards |
| RoomAnswers.WhoIsTold | server/api_gateway/app/rooms/manager.py:498-520 | When an active game is removed the player of the other colour is told that the opponent left and each remaining spectator that the room is gone, and nobody else anything; for a room that is not active nobody is told |
| RoomAnswers.WhenTheLobbyChanges | server/api_gateway/app/rooms/manager.py:460-526 | The lobby changes iff a spectator of a stored room leaves, or a removed room was active or public |
| PlayQueue.ArrivalIsPairedWithTheBest | server/api_gateway/app/matches/play_queue.py:52-86 | An arrival waits iff every waiting rating differs from its own by more than 100; otherwise it is paired with the closest, longest waiting among equals, who alone leaves the queue |
| PlayQueue.EverybodyIsAccountedFor | server/api_gateway/app/matches/play_queue.py:52-108 | On every run waiting ratings differ pairwise by more than 100, and everybody who arrived waits, was paired, left or timed out |
| PlayQueue.AtMostTwoCandidates | server/api_gateway/app/matches/play_queue.py:75-83 | Two different candidates in range are on different sides of the arrival's rating, so there are at most two |
| PlayQueue.PlayQueue.FindMatch | server/api_gateway/app/matches/play_queue.py:52-86 | The scan with its best so far makes exactly that choice and updates the queue |
| PlayQueue.PlayQueue.Leave | server/api_gateway/app/matches/play_queue.py:98-108 | The user leaves the queue; the answer says whether they were waiting |
| Allocator.AllocatorIsSafe | server/api_gateway/app/matches/allocator.py:83-119 | For every interleaving in which the launcher returns fresh shards and callers release what they hold: each configured shard is free, returning or held as often as it is configured; the dynamic count is registered shards plus spawns and releases under way plus places lost, and never above the limit; with distinct configured shards nobody shares one |
| Allocator.HeldOnce | server/api_gateway/app/matches/allocator.py:83-119 | A held shard is held once and is neither free nor on its way |
| Allocator.WhoGetsAShard | server/api_gateway/app/matches/allocator.py:83-97 | After every such run acquire gets a static shard iff one is free, and a place for a new one iff none is free, there is a launcher and the places in use and lost are below the limit |
| Allocator.WithoutPlacesForGood | server/api_gateway/app/matches/allocator.py:83-119 | Once as many places are lost as the limit allows, no later acquire gets a new shard, however the run goes on |
| Allocator.OneFailedReleaseLosesThePlace | server/api_gateway/app/matches/allocator.py:107-119 | With one dynamic place a run of one spawn and one release that ends with an exception leaves nothing spawned or in use, and acquire is refused |
| Allocator.ShardPoolAllocator.BeginAcquire | server/api_gateway/app/matches/allocator.py:84-97 | The last free shard if any is free; otherwise a place for a spawn, counted at once, iff there is a launcher and the count is below the limit; otherwise a refusal that changes nothing |
| Allocator.ShardPoolAllocator.StartRelease | server/api_gateway/app/matches/allocator.py:107-111 | A dynamic shard leaves the set; a static one changes nothing yet |
| MatchRuns.TakenOutAndRatedOnce | server/api_gateway/app/matches/manager.py:476-691 | On every run, whatever the order of calls and however they fail: a match is taken out at most once, by one coroutine that keeps it in a local variable, and rated at most once and only by that one; its shard is given back twice iff its start failed after registering it and gave the shard back and so did that coroutine |
| MatchRuns.RegisteredAndReleased | server/api_gateway/app/matches/manager.py:139-192 | On every run a match in the index has given its shard back iff its start failed after registering it and has given it back |
| LateFailure.TwoMatchesOnOneShard | server/api_gateway/app/matches/manager.py:134-192 | A run with its calls in order in which sending the first announcement raises: two rooms then have a registered match on one shard |
| MatchRuns.EveryMatchEndsOnce | server/api_gateway/app/matches/manager.py:105-192 | For every interleaving of starts in distinct rooms, none failing after it registered its match, with finishing and cleaning up: a shard is given back at most once, never while its match is started or registered; the index holds exactly the registered matches; matches that have not given back hold different shards |
| MatchRuns.TakenOutMatchIsFrozen | server/api_gateway/app/matches/manager.py:476-489 | Once taken out a match no longer changes but for its rating and release, so it is rated by its last snapshot |
| MatchRuns.SubmissionsAndRevisionsAddUp | server/api_gateway/app/matches/manager.py:418-468 | On every run each accepted submission is answered once or pending, and the revision is one more than the number of snapshots sent out |
| MatchRuns.AnsweredOnce | server/api_gateway/app/matches/manager.py:339-351 | A submission with a pending number is refused; its answer goes to its sender first and the same answer again finds nobody |
| MatchViews.NewStateGoesToEverybody | server/api_gateway/app/matches/manager.py:447-466 | When a message carries a snapshot that differs from the match's, that snapshot becomes the match's under the next revision and each participant, in order, is sent it once under that revision; otherwise the match's snapshot stays and nobody is sent a state |
| MatchViews.AnswerGoesToTheSender | server/api_gateway/app/matches/manager.py:430-446 | A move result goes, once, to whoever submitted that number for that colour and takes just that submission out; without one nobody gets a result |
| MatchViews.ListenersKnowTheMatch | server/api_gateway/app/matches/manager.py:139-468 | On every run a client who is among the participants at every message of a room knows each match of it, from when it is ready, as it is: the last state sent to the client is the match's current snapshot under its current revision |
| MatchRatings.WhatRates | server/api_gateway/app/matches/manager.py:476-700 | A step rates a match iff it is the turn of the coroutine that took it out, the results are stored, and the last state shows a finished game or a player left after the start |
| MatchRatings.RatedOnlyWithAResult | server/api_gateway/app/matches/manager.py:476-700 | On every run a rated match was taken out with such a result |
| MatchRuns.StepKeepsOrderly | server/api_gateway/app/matches/manager.py:105-691 | Each atomic step of any coroutine, in any order, keeps: one coroutine per match taken out, counters that agree with what the coroutines have done, and an index of begun matches under their own rooms |
| MatchRuns.StepKeepsSound | server/api_gateway/app/matches/manager.py:105-691 | Each step in order, but for a start failing after registering, also keeps the agreement of held shards with matches that have not given theirs back |
| MatchManager.MatchManager.PopMatch | server/api_gateway/app/matches/manager.py:477-480 | Only the first caller gets the match; later ones find none |
| MatchManager.MatchManager.Move | server/api_gateway/app/matches/manager.py:291-351 | Refused as invalid iff the sequence is no positive integer or a position is no pair of integers from 0 to 7 (truth values pass for coordinates, not for the sequence); as not found iff valid and no match is there; otherwise started, player and duplicate are checked in this order and an accepted submission is entered for its sender |
| MatchManager.MatchManager.Jump | server/api_gateway/app/matches/manager.py:353-416 | The same for a jump and its one cell, with its own error |
| MatchManager.MatchManager.HandleBridgeEvent | server/api_gateway/app/matches/manager.py:418-462 | Match and deliveries after an event are those the lemmas on views speak of; when the message brings a new snapshot it is the match's afterwards, the revision grows by one and exactly the participants are sent that snapshot under that revision; otherwise the snapshot stays and no state is sent |

## Left out

- GameEngine.GameEngine.RequestMove: move and jump durations are any function of colour and kind; reading the configuration files is not part of this model.
- RealTimeArbiter.RealTimeArbiter.AdvanceTime: std::sort is the function `Arbiter.SortSteps`, whose result is a sorted permutation; how it sorts is not modelled.
- Engine.RequestMove: times, numbers and scores are unbounded integers; wrap-around of machine integers is not modelled, and where the codec checks ranges they are explicit.
- EngineRuns.OneLogicalCellEach: stated for runs without an accepted castle, as are the other lemmas of EngineRuns; what castles change in each of them is stated for every run in EngineRevival, EngineLosses, EngineCrowding, EngineAccounts and EngineFlights.
- EngineTicks.TickRateDoesNotMatter: ticks longer than a step of an active motion and landings meanwhile are not covered, because there the outcome depends on the cut.
- PieceRules.IsPathClear: asked about cells on no common line the walk of the source goes on until it meets a piece; no caller does that, and it is not modelled.
- Roster.Roster.SetState: pieces are shared by place in a list rather than by pointer, so reference counting and lifetime are not modelled.
- RoomManager.RoomManager.CreateRoom: the room number and the codes drawn are parameters; if every code of the list is in use the drawing is still going on, and the step stands for nothing having happened yet.
- RoomManager.RoomManager.RemoveConnection: notifications are a set; the order in which spectators are told is that of a dictionary and not modelled.
- RoomManager.RoomManager.JoinHiddenRoom: the code is taken after stripping and upper-casing, which are library calls.
- RoomManager.RoomManager.Join: a room is a value in the dictionary rather than an object that callers also hold, so later changes are not seen through an old reference.
- WireText.GatewayTextIsRead: user names hold printable ASCII characters, tabs and line ends; json.dumps writes others as escapes that the server's reader refuses (`WireText.StringsAreReadAsMeant`); the whole message around such a name is not part of this model.
- GatewayActions.WhichActionsArrive: cells hold integers, truth values, texts, objects and lists; fractions and null are not values of `Json.Value`.
- MatchViews.ListenersKnowTheMatch: deliveries are taken in the order in which they are decided; sockets that fail or overtake one another are not modelled, and the participants of a room at a message are a parameter.
- Allocator.AllocatorIsSafe: a call cancelled while it waits for the lock, rather than for the launcher, is not modelled.
- MatchRuns.EveryMatchEndsOnce: a coroutine that raises after taking a match out and before giving its shard back is one whose later steps never come.
- MatchRuns.TakenOutMatchIsFrozen: the rating formula and the database are left out; a rating is counted, not computed.
- MatchManager.MatchManager.Move: whether the countdown is over and which colour the user plays are parameters.
- Scanner.ReadSigned: std::stoll is the function `Json.ParseLongLong`; white space is that of the C locale.
- JSON text is a sequence of characters; byte encodings are not modelled.
- Sockets, threads, event loops, the event bus and its subscribers, the message bus, logging, cookies, password hashing, the lobby snapshot and broadcasts and the countdown: input, output or library code.
- GameServer: reconnection, player assignment and the countdown are wall-clock and socket handling around a few flags.
- Piece.getCooldownRatio: floating-point division for drawing.
- Client, rendering, input mapping and board mapping: presentation.
- Board.movePiece: nothing calls it.
