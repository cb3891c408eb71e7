# Kung Fu Chess: a verified model

This project models the core of a real-time chess server and proves properties of it in Dafny. In the game
nobody waits for a turn: a piece leaves the grid when it starts to move, flies for a while, may be shot down by a
piece that is jumping, and rests after it lands. Around the engine stand a text protocol, password storage,
matchmaking and rooms. The project covers

- the board, the path walk and the piece rules (`Pieces`, `Boards`, `Paths`, `Rules`, `PieceMoves`, `Tokens`, `BoardSetup`, with small shared facts in `Basics`);
- the engine: `Engine` gives every operation as a function on a whole game (`World`), and the classes in
  `Arbiter` and `GameStates`, which change board and queues in place with the loops of the source, are proved to
  compute these functions;
- the invariants of the engine and what follows from them over whole runs (`Conservation`, `Invariants`, `Runs`,
  `Quiescence`, `Flights`, `Timing`, `Landing`, `Evictions`, `Guarded`, `KingLoss`,
  `Shelter`, `CarefulPlay`, `Ticks`), the ownership filter on player inputs (`Inputs`) and
  the view sent to clients (`Views`);
- the snapshot text and its reader (`Text`, `Snapshot`, `SnapshotRoundTrip`, `SnapshotIO`);
- SHA-256, HMAC, PBKDF2 and password records (`Bytes`, `Sha256`, `Sha256Constants`, `Pbkdf2`, `Passwords`);
- the separator codecs (`Codecs`) and the texts themselves (`WireFormats`), the matchmaking queues (`Matchmaking`), the rooms (`Rooms`), and the engine
  plugged into both the rooms and the snapshot format (`Broadcast`).

`dafny verify dfyconfig.toml` checks everything.

## How the engine is modelled

A `World` holds the board (a grid of ids over a store of pieces), the pending moves, the jumps, the rests, the
clock, the game-over flag and the shared selection. `Invariants.Inv` is the invariant between two actions. It
says that grid and store agree; that the schedules hold exactly the airborne pieces, each once; that the cells
left by airborne pieces are pairwise distinct and friends never share a destination; that every rest belongs to a
captured piece or to one idle on the recorded cell; that game over implies a captured king; and that nothing
scheduled is due. `Invariants.Steady` is the part that also holds in the middle of the three settlement loops.
`Conservation.Grounds` describes the end of one flight, and every loop step is shown to be such an end.

Assumptions, all taken from the source:

- Boards are rectangular and ids are issued from 1 upwards, which is what `append_token_row` builds
  (`BoardSetup.AppendTokenRow`). The rules are the standard ones: 1000 ms per move unit and per jump, 4500 ms and
  2500 ms of rest.
- Ticks may have any size, also negative, in the conservation results. Where time is the point, runs are
  `Forward`: no tick is negative.
- Results about the winner assume that no colour has two kings on the start board.
- Coordinates are integers with the source's bounds checks. The 64-bit clock is unbounded. Casts to `int`, ids
  modulo 2^32, and the modulo-2^64 arithmetic of the bit count and of the number parsers are written out.
- Animation progress, a float in the source, is an integer number of millionths.
- The salt, the wall clock, connections, stored profiles and the order of unordered maps are parameters or
  arbitrary choices.

## What the proofs found

- **A king can be lost in silence.** A piece that comes home (an arrival that is no longer possible, a move the
  arrivals spoiled, a jump that ends) captures exactly the piece on its reserved cell (`Evictions`) and does not
  touch the game-over flag. `KingLoss.KingLostInSilence` is a reachable game of two pieces and four actions whose
  only white king is captured while the game goes on. `KingLoss.SilentArrival` and `KingLoss.SettlementExact` say
  exactly when it happens, for one arrival and for a whole settlement: a king stands where somebody comes home.
  What players can check beforehand (`Shelter`, `CarefulPlay`): as long as no king sets off for a cell that somebody in the air
  has left, and nobody leaves a cell that a king in flight is bound for, the game is over if and only if a king is
  captured, through every run (`CarefulPlay.CarefulGamesAreFair`).
- **The size of a tick matters**, because a jump guards its cell against the current clock, not against the
  arrival time (`KingLoss.TickSizeMatters`). As long as no move falls due between the two clocks, a tick can be
  split if and only if every due move that can settle is still guarded at the later clock when it is guarded at
  the earlier one (`Ticks.TicksComposeExactly`). A tick that makes nothing due always merges with the next
  (`Quiescence.TicksCompose`).
- **Rest times pass through 32 bits.** A piece is seen resting exactly while arrival plus rest is below 2^31 and
  after the clock (`Timing.RestWindow`).
- **A jump does not shoot down every opposing arrival.** It captures an arrival if and only if the move passes
  the arrival check on the board it finds (`Guarded.JumpDecides`, and `Guarded.GuardedArrival` over a tick). The
  jumper itself has left the grid, so a pawn that comes to capture is shot down if and only if some hostile piece
  stands on the cell (`Guarded.PawnUnderJump`). `Guarded.PawnGoesHome` is a reachable game in which it returns
  unharmed.
- **The snapshot round trip is exact**: a view comes back if and only if its grid has a row and its clock is not
  negative; otherwise the reader refuses the text (`SnapshotRoundTrip.SnapshotRoundTrips`).
- **`has_common_route` compares the columns of two horizontal moves even on different rows**, and likewise rows
  of vertical moves, although its comment speaks of the same row or column. On one row the extra test adds
  nothing to sharing a cell; it adds exactly the pairs on different rows (`Arbiter.RowsDoNotMatter`).
- **`leave_queue` does not map the empty region to the default one**, `enter_queue` does
  (`Matchmaking.LeaveUndoesEnter`).
- **The separator codecs are lossless exactly when their text fields hold no `|`**; a present but empty endpoint
  in a creation response comes back as absent.

## Model

| member | source | states |
|---|---|---|
| `Paths.AlongIsSegment` | src/logic/path_utils.cpp:18-32 | On a straight or diagonal line the unit steps from start to end enumerate exactly the cells of the reference geometry, strictly between and with both ends |
| `Paths.WalkEndsExactlyOnLines` | src/logic/path_utils.cpp:18-32 | The walk ever meets its end if and only if the path is straight or diagonal |
| `Paths.ForEachCellOnPath` | src/logic/path_utils.cpp:18-32 | On such a line the walk ends, visits the cells in order, and visits exactly the cells strictly between |
| `Paths.WalkMeets` | src/logic/path_utils.cpp:53-65 | The inner walk meets a cell if and only if the cell is on the closed segment |
| `Paths.LinesShareCell` | src/logic/path_utils.cpp:50-74 | The double walk over two lines answers whether the closed segments have a common cell |
| `Paths.PathsShareCell` | src/logic/path_utils.cpp:34-75 | For every two paths: on lines, whether the segments intersect; off the lines, whether two ends coincide |
| `Paths.ShareCellSymmetric` | src/logic/path_utils.cpp:34-75 | Sharing a cell is symmetric in the two paths |
| `Rules.Promote` | src/rules/game_rules.cpp:11-24 | The piece changes if and only if it is a pawn on its colour's last row, and then only its kind, to queen (where that row is: `PieceMoves.PromotesAtTheEdge`) |
| `Rules.IsPathClear` | src/rules/piece_rules/rook_rules.cpp:9-20 | The flag loop holds exactly when no cell strictly between is occupied |
| `Rules.IsRookMove` | src/rules/piece_rules/rook_rules.cpp:24-30 | Accepts exactly the aligned ends with an empty interior |
| `Rules.IsBishopMove` | src/rules/piece_rules/bishop_rules.cpp:26-34 | Accepts exactly the diagonal ends with an empty interior |
| `Rules.CheckGeometry` | src/rules/rules_registry.cpp:19-36 | The validator chosen for each kind decides that kind's geometry, pawns by the mover's own colour (what each accepts: `PieceMoves.LegalMoves`) |
| `Rules.IsLegalMove` | src/rules/move_validator.cpp:29-52 | The request-time check: in bounds, not the same cell, geometry and destination colour |
| `Rules.CanSettleMove` | src/realtime/real_time_arbiter.cpp:17-45 | The arrival-time check, which takes the mover by id because its source cell is empty |
| `Rules.CanSettleFrame` | src/realtime/real_time_arbiter.cpp:17-45 | The arrival check depends only on the mover's colour and kind, the occupancy strictly between, and the destination's colour |
| `Rules.RequestMatchesArrival` | src/rules/move_validator.cpp:12-52 | A request is legal if and only if the same move would settle once only its source is cleared |
| `PieceMoves.KnightLeaps` | src/rules/piece_rules/knight_rules.cpp:9-13 | A knight goes exactly two away, off every row, column and diagonal |
| `PieceMoves.KingSteps` | src/rules/piece_rules/king_rules.cpp:7-15 | A king goes exactly one step in any direction |
| `PieceMoves.SlidersFollowRays` | src/rules/piece_rules/rook_rules.cpp:24-30 | Rooks follow the four straight rays and bishops the four diagonal ones, up to the first piece |
| `PieceMoves.StartRowIsSecond` | src/rules/piece_rules/pawn_rules.cpp:11-21 | The row of the double step is the second of the pawn's own side: one row of the board behind it and no more |
| `PieceMoves.PawnsStepAhead` | src/rules/piece_rules/pawn_rules.cpp:25-73 | A pawn steps one ahead, two from that row, or captures to either side ahead, and does nothing else |
| `PieceMoves.LegalMoves` | src/rules/move_validator.cpp:12-52 | A request is legal if and only if the cell is on the board, in reach of the piece by the rules above, and holds no friend |
| `PieceMoves.PromotesAtTheEdge` | src/rules/game_rules.cpp:11-24 | A landed pawn is a queen if and only if there is no cell ahead of it |
| `PieceMoves.StrandedPawnIsStuck` | src/rules/piece_rules/pawn_rules.cpp:25-73 | A pawn with no cell ahead has no legal move |
| `Boards.BoardModel.PlacePieceAt` | src/model/board_model.cpp:114-119 | Stores the piece with its cell and writes its id into the grid, nothing else |
| `Boards.BoardModel.RemovePieceAt` | src/model/board_model.cpp:121-127 | The occupant, if any, becomes Captured and the cell is emptied |
| `Boards.BoardModel.ClearCell` | src/model/board_model.cpp:129-131 | Empties the cell and leaves the piece store alone |
| `Tokens.TokensRoundTrip` | src/model/piece_token.cpp:31-104 | Printing and reading tokens are inverse in both directions, and exactly the empty and the invalid tokens describe nothing |
| `BoardSetup.AppendTokenRow` | src/model/board_model.cpp:141-163 | The new row shows exactly the given tokens, the old rows are unchanged, every piece is idle on its own cell with the next id |
| `BoardSetup.ParseBoardRows` | src/rules/board_validator.cpp:27-61 | Accepts exactly the rectangular grids of valid tokens and shows them; otherwise reports the first bad row, its width before its tokens |
| `Conservation.RestoreGrounds` | src/realtime/real_time_arbiter.cpp:47-64 | Restoring an airborne piece puts it idle on its reserved cell, captures at most the occupant, and keeps grid and store consistent |
| `Conservation.PlaceGrounds` | src/realtime/collision_resolver.cpp:101-113 | Landing puts the piece, promoted if due, on its destination and captures the occupant, keeping the board consistent |
| `Conservation.SettleMoveCases` | src/realtime/real_time_arbiter.cpp:109-167 | The settlement callback has exactly three outcomes (home, shot down, landed), each with its whole new state; the branch for an occupied source is dead |
| `Conservation.GroundMove` | src/realtime/move_scheduler.cpp:71-86 | The end of a move's flight removes exactly its entry: the schedules still hold exactly the airborne pieces |
| `Invariants.SettleMoveKeeps` | src/realtime/real_time_arbiter.cpp:109-167 | One callback keeps the mid-loop invariant with the settled move gone, and spares or captures every grounded piece |
| `Invariants.SettleDueKeeps` | src/realtime/move_scheduler.cpp:71-86 | The loop over due moves keeps the mid-loop invariant and leaves only moves that are not due |
| `Invariants.CancelAllKeeps` | src/realtime/real_time_arbiter.cpp:78-92 | The cancel loop keeps the mid-loop invariant |
| `Invariants.ExpireJumpsKeeps` | src/realtime/move_scheduler.cpp:191-206 | The jump loop keeps the mid-loop invariant and leaves only jumps that are not over |
| `Invariants.SettleKeeps` | src/realtime/real_time_arbiter.cpp:100-181 | A settlement at any clock establishes the whole invariant, including that nothing is due |
| `Invariants.MoveKeeps` | src/logic/game_state.cpp:187-210 | A move request keeps the invariant and undoes nothing |
| `Invariants.JumpKeeps` | src/logic/game_state.cpp:224-243 | A jump request keeps the invariant and undoes nothing |
| `Invariants.ApplyKeeps` | src/logic/game_state.cpp:245-264 | Every action, with any tick size, keeps the invariant and undoes nothing |
| `Runs.PieceIsInOnePlace` | src/realtime/real_time_arbiter.cpp:78-181 | Conservation: an idle piece is on exactly its own cell, a moving one in exactly one move or jump, a captured one nowhere |
| `Runs.RunConserves` | src/logic/game_state.cpp:187-264 | After every action sequence from a start board each uncaptured piece is in exactly one place, a captured one in none |
| `Runs.RunUndoesNothing` | src/logic/game_state.cpp:187-264 | Over every run captures are final, colours fixed, and a kind changes only from pawn to queen |
| `Runs.PawnsAreNeverStranded` | src/realtime/real_time_arbiter.cpp:142-147 | Over every run, a pawn with no cell ahead has stood on that cell since the start: every other pawn that got there is a queen |
| `Runs.ReservationsAreInjective` | src/logic/game_state.cpp:161-185 | Start cells of moves and cells of jumps are pairwise distinct, and no two friendly moves share a destination |
| `Runs.GameOverStays` | src/logic/game_state.cpp:245-264 | Once set, the game-over flag stays set and some king is captured, through every run |
| `Runs.WinnerIsSound` | src/logic/game_state.cpp:24-52 | With no two kings of a colour, a declared winner's king is idle on the grid and the opponent's is captured |
| `Runs.RunWinnerIsSound` | src/logic/game_state.cpp:24-52 | The same after every run from a start board where no colour has two kings |
| `Runs.WinnerExactly` | src/logic/game_state.cpp:24-52 | With no two kings of a colour, a colour is declared the winner if and only if the game is over, its king is idle and the other is captured |
| `Runs.RunWinnerExactly` | src/logic/game_state.cpp:24-52 | The same if-and-only-if after every run |
| `Quiescence.SettleQuiet` | src/realtime/real_time_arbiter.cpp:100-181 | With nothing due a settlement is the identity on the whole game |
| `Quiescence.SettleTwice` | src/realtime/real_time_arbiter.cpp:100-181 | Settling again changes nothing |
| `Quiescence.PrintingChangesNothing` | src/logic/game_state.cpp:268-272 | In every reachable game the settlement before printing changes nothing |
| `Quiescence.TicksCompose` | src/realtime/real_time_arbiter.cpp:94-98 | A tick that makes nothing due merges with the next |
| `Flights.SettleJump` | src/realtime/real_time_arbiter.cpp:173-179 | Before its expiry a jump and its piece pass a settlement untouched; the settlement that expires it leaves the jumper idle on its own cell with a short rest |
| `Flights.SettleDueMove` | src/realtime/real_time_arbiter.cpp:109-167 | After a whole settlement a due move ended captured, home, or landed with a long rest; never landed under a hostile jump |
| `Flights.SettleFlyingMove` | src/realtime/real_time_arbiter.cpp:78-92 | A move that is not due never lands; it goes home exactly when an arrival changed the board and the move is no longer possible, and stays home through the jump phase |
| `Flights.CancelAllOutcome` | src/realtime/real_time_arbiter.cpp:88-91 | The cancel loop sends exactly the listed moves home and keeps every other in flight |
| `Evictions.RestoreEvicts` | src/realtime/real_time_arbiter.cpp:47-64 | A restoration captures a piece if and only if it stands on the reserved cell |
| `Evictions.ArrivalEvicts` | src/realtime/real_time_arbiter.cpp:109-167 | One due move captures exactly the piece on its start (going home), itself (under a jump) or the piece it lands on |
| `Evictions.CancelEvicts` | src/realtime/real_time_arbiter.cpp:88-91 | The cancel loop captures exactly the pieces on the cells its moves come home to |
| `Evictions.ExpireEvicts` | src/realtime/real_time_arbiter.cpp:173-179 | The jump loop captures exactly the pieces on the cells its due jumps come home to |
| `KingLoss.RestoreFellsKing` | src/realtime/real_time_arbiter.cpp:57-63 | A restoration costs a king if and only if one stands on the reserved cell |
| `KingLoss.ArrivalRaisesFlag` | src/realtime/collision_resolver.cpp:90-113 | From the board before: exactly when one arrival costs a king, and exactly when it sets the game-over flag |
| `KingLoss.SilentArrival` | src/realtime/real_time_arbiter.cpp:110-113 | One arrival costs a king without the flag if and only if it goes home to a cell where a king stands |
| `KingLoss.SettlementExact` | src/realtime/real_time_arbiter.cpp:100-181 | A whole settlement leaves a captured king with the game not over if and only if a king stands where an arrival, a spoiled move or an ended jump comes home |
| `KingLoss.TickWithoutArrivals` | src/realtime/real_time_arbiter.cpp:173-179 | With no move due, a tick loses a king in silence if and only if one stands on the cell of a jump that ends |
| `KingLoss.KingLostInSilence` | src/realtime/real_time_arbiter.cpp:57-63 | A concrete reachable game whose only white king is captured while the game is not over |
| `KingLoss.TickSizeMatters` | src/realtime/collision_resolver.cpp:92-98 | From one reachable game, ticks of 1000 and 1 end the game and a tick of 1001 does not |
| `Shelter.SettlementShelters` | src/realtime/real_time_arbiter.cpp:100-181 | If no king stands on, or is bound for, a cell left by another airborne piece, a settlement keeps that and every king lost ends the game |
| `CarefulPlay.RequestShelters` | src/logic/game_state.cpp:187-243 | A request keeps the shelter if and only if no king sets off for a cell somebody in the air left and nobody leaves a cell a king in flight is bound for |
| `CarefulPlay.RunShelters` | src/logic/game_state.cpp:245-264 | Every run of such requests and any ticks keeps the shelter and loses no king in silence |
| `CarefulPlay.CarefulGamesAreFair` | src/logic/game_state.cpp:245-264 | From a start board, through every such run, the game is over if and only if a king is captured |
| `CarefulPlay.CarefulWinner` | src/logic/game_state.cpp:24-52 | Through every such run the two kings alone decide who is declared the winner |
| `CarefulPlay.SilentLossWasCareless` | src/realtime/real_time_arbiter.cpp:57-63 | The game of the silent loss was sheltered until the king set off for the cell the jumper had left |
| `Guarded.JumpDecides` | src/realtime/collision_resolver.cpp:90-99 | Under a hostile jump an arrival is captured if and only if it passes the arrival check, and home otherwise |
| `Guarded.PawnUnderJump` | src/rules/piece_rules/pawn_rules.cpp:60-70 | A capturing pawn under a jump is captured if and only if a hostile piece stands on the cell itself |
| `Guarded.GuardedArrival` | src/realtime/real_time_arbiter.cpp:100-181 | Over a tick: captured if the board it finds lets it settle, otherwise home, and still there unless another due move ends on that cell |
| `Guarded.GuardedVerdict` | src/realtime/real_time_arbiter.cpp:100-181 | With the other arrivals off its path and its home, the board before the tick decides between captured and home |
| `Guarded.PawnGoesHome` | src/realtime/real_time_arbiter.cpp:110-113 | A concrete reachable game in which the pawn's capture is due under an open jump window and the pawn is home unharmed |
| `Ticks.TicksComposeExactly` | src/realtime/real_time_arbiter.cpp:94-98 | With no move falling due between the two clocks, two ticks equal one if and only if the guards over the due moves that can settle agree at both clocks |
| `Timing.ApplyRest` | src/logic/game_state.cpp:83-94 | No action moves a resting piece before its rest is over: it stays in place with its entry, or is captured |
| `Timing.LandedPieceRests` | src/realtime/real_time_arbiter.cpp:148-151 | Cooldown over whole runs: a piece that landed neither moves nor jumps before arrival plus the long rest |
| `Timing.JumpedPieceRests` | src/realtime/real_time_arbiter.cpp:173-179 | The same for a jumper, before expiry plus the short rest |
| `Timing.RestWindow` | src/realtime/real_time_arbiter.cpp:148-151 | A rest counts at a clock if and only if its end is below 2^31 and still ahead |
| `Timing.JumperIsSafe` | src/realtime/collision_resolver.cpp:90-99 | Through every run inside its window a jumper stays in the air with its jump and is not captured |
| `Timing.JumperComesHome` | src/realtime/real_time_arbiter.cpp:162-179 | The first settlement past the window leaves the jumper idle on its own cell, in the grid |
| `Timing.JumpShootsDown` | src/realtime/collision_resolver.cpp:90-99 | An opposing arrival under a jump is captured, lands nowhere, and ends the game if it was a king |
| `Timing.GuardedCellIsNeverEntered` | src/realtime/collision_resolver.cpp:90-99 | Over a whole tick an opposing move to a guarded cell ends captured or home, never on the cell (which of the two: `Guarded.GuardedArrival`) |
| `Timing.PromotionIsEarned` | src/realtime/real_time_arbiter.cpp:142-147 | A kind changes only in a tick that makes a pawn's move to its last row due, and then to queen |
| `Landing.AcceptedCouldSettle` | src/logic/game_state.cpp:161-185 | A move just accepted passes the arrival check on the board it left behind |
| `Landing.ArrivalLands` | src/realtime/move_scheduler.cpp:71-86 | Among any number of due moves, one that is possible, unguarded and kept apart from lands, promoted if due |
| `Landing.StaysAirborne` | src/realtime/real_time_arbiter.cpp:78-92 | Through any run that leaves its path alone, a move stays in flight and possible until its arrival time |
| `Landing.UndisturbedMoveLands` | src/realtime/real_time_arbiter.cpp:100-151 | From request through any such run to the first settlement past the arrival time: never landed earlier, and then on its destination, unless another arrival crosses the path, a hostile jump guards it, or somebody comes home to it in that settlement |
| `Landing.RequestLiftsOnePiece` | src/logic/game_state.cpp:187-210 | An accepted request lifts exactly the selected piece, appends one entry with the right duration, and leaves every other cell, piece, flight and rest alone |
| `Landing.MoveAccepted` | src/logic/game_state.cpp:161-185 | A move request is accepted if and only if the selected piece is neither resting nor on a reserved cell, the move is legal, and no friend is in flight to the destination |
| `Landing.JumpLiftsOnePiece` | src/logic/game_state.cpp:224-243 | A jump is accepted if and only if the piece is neither resting nor on a reserved cell; it lifts that piece for 1000 ms and leaves everything else alone |
| `Landing.SelectionAfter` | src/logic/game_state.cpp:245-264 | Which actions change the shared selection, and to what |
| `Arbiter.MoveScheduler.IsPieceMoving` | src/realtime/move_scheduler.cpp:11-23 | True if and only if a move in flight started on the cell |
| `Arbiter.MoveScheduler.IsPieceJumping` | src/realtime/move_scheduler.cpp:25-35 | True if and only if a jump in its window is on the cell |
| `Arbiter.MoveScheduler.IsSameColorDestinationClaimed` | src/realtime/collision_resolver.cpp:65-80 | True if and only if a friendly move in flight ends on the cell |
| `Arbiter.MoveScheduler.CancelPendingMove` | src/realtime/move_scheduler.cpp:61-69 | Drops the piece's first entry only |
| `Arbiter.MoveScheduler.ExpireRestsAt` | src/realtime/move_scheduler.cpp:208-217 | Erasing while iterating, in any order, keeps exactly the rests that end after the clock |
| `Arbiter.RangesOverlap` | src/realtime/collision_resolver.cpp:11-14 | The ranges overlap if and only if they have a common element |
| `Arbiter.HasCommonRoute` | src/realtime/collision_resolver.cpp:18-46 | Decides the reference relation: shared cell, or overlapping spans of two horizontal or two vertical moves |
| `Arbiter.RowsDoNotMatter` | src/realtime/collision_resolver.cpp:23-33 | Two horizontal moves conflict if and only if their columns overlap, and share a cell if and only if they are also on one row |
| `Arbiter.ColumnsDoNotMatter` | src/realtime/collision_resolver.cpp:35-45 | Two vertical moves conflict if and only if their rows overlap; any other pair if and only if it shares a cell |
| `Arbiter.CommonRouteSymmetric` | src/realtime/collision_resolver.cpp:18-46 | The relation is symmetric |
| `Arbiter.CheckForJumpCapture` | src/realtime/collision_resolver.cpp:82-116 | The in-place resolver computes the specified resolution: board, verdict and king loss |
| `Arbiter.RestorePieceToCell` | src/realtime/real_time_arbiter.cpp:47-64 | The in-place restoration computes the specified board |
| `Arbiter.RealTimeArbiter.SettleArrival` | src/realtime/real_time_arbiter.cpp:109-167 | The callback in place computes the specified settlement of one move |
| `Arbiter.RealTimeArbiter.SettleDueMoves` | src/realtime/move_scheduler.cpp:71-86 | The loop over the queue computes the specified phase one |
| `Arbiter.RealTimeArbiter.CancelInvalidInFlightMoves` | src/realtime/real_time_arbiter.cpp:78-92 | Collecting and then cancelling computes the specified phase two |
| `Arbiter.RealTimeArbiter.ExpireJumpsNow` | src/realtime/move_scheduler.cpp:191-206 | The jump loop computes the specified phase three |
| `Arbiter.RealTimeArbiter.SettlePendingMoves` | src/realtime/real_time_arbiter.cpp:100-181 | The whole settlement in place refines the function the invariants are proved about |
| `Arbiter.RealTimeArbiter.UpdateTime` | src/realtime/real_time_arbiter.cpp:94-98 | Advances the clock, then settles |
| `GameStates.FindKings` | src/logic/game_state.cpp:34-43 | The token scan finds a king of a colour if and only if one stands on the grid |
| `GameStates.GameState.constructor` | src/logic/game_state.cpp:11-14 | A new game on the board, satisfying the invariant |
| `GameStates.GameState.CanMoveSelectedTo` | src/logic/game_state.cpp:161-185 | Accepts exactly the in-bounds, free, legal moves to an unclaimed destination |
| `GameStates.GameState.MoveSelectedToCell` | src/logic/game_state.cpp:187-210 | The in-place request computes the specified game and keeps the invariant |
| `GameStates.GameState.JumpAtBoardCell` | src/logic/game_state.cpp:224-243 | The in-place jump computes the specified game and keeps the invariant |
| `GameStates.GameState.ApplyAction` | src/logic/game_state.cpp:245-264 | Every action in place computes the specified game and keeps the invariant |
| `GameStates.GameState.WriteBoard` | src/logic/game_state.cpp:268-272 | Printing hands out the current board and changes nothing |
| `GameStates.GameState.WinningColorNow` | src/logic/game_state.cpp:24-52 | The loop computes the specified winner: with no two kings of a colour, the one whose king is idle while the other is captured |
| `GameStates.PlayRun` | src/logic/game_state.cpp:245-264 | Driving a new game through any action sequence ends in the specified game |
| `Inputs.PieceColorIsReal` | src/server/game_message_parser.cpp:47-64 | The colour read back from the token is the colour of the piece on the cell |
| `Inputs.AllowedExactly` | src/server/game_message_parser.cpp:251-279 | An action is allowed if and only if it drops the selection or touches a piece of the sender's colour |
| `Inputs.InputOwnsItsLaunch` | src/server/game_message_parser.cpp:251-279 | An allowed input launches only pieces of the sender's colour and never moves the clock |
| `Inputs.FlightsBelongToTheirSender` | src/server/room/active_room_processor.cpp:78-94 | Over every interleaving of both players' inputs and ticks, every flight was launched by an allowed input of its own colour |
| `Views.ProgressMonotone` | src/realtime/render_snapshot.h:49-61 | Progress never runs backwards |
| `Views.ProgressExactly` | src/realtime/render_snapshot.h:49-61 | Inside a flight, progress is the share of it that has passed, rounded down |
| `Views.Build` | src/ui/view/board_view_builder.cpp:7-38 | The built view is a faithful picture of the game |
| `Views.BuildRests` | src/realtime/move_scheduler.cpp:174-186 | Lists exactly the rests that are not over, each once, in any order |
| `Views.LivePiecesAreShownOnce` | src/ui/view/board_view_builder.cpp:22-36 | Completeness: each live piece is in exactly one of grid, moves and jumps, with its current kind and colour; a captured one in no list; airborne ones in exactly one entry |
| `Views.ShownPiecesAreReal` | src/realtime/move_scheduler.cpp:134-172 | Soundness: every entry shown is a distinct live piece, as it is now |
| `Views.ShownAnimationsAreScheduled` | src/realtime/move_scheduler.cpp:134-189 | Every animation shown has the ends, cell, kind of rest and progress of a scheduled one |
| `Text.LinesRoundTrip` | src/network/snapshot_reader.cpp:16-37 | Splitting undoes joining for lines without line breaks and carriage returns |
| `Text.SplitTextLines` | src/network/snapshot_reader.cpp:16-37 | The character loop computes the specified split |
| `Text.ReturnsVanish` | src/network/snapshot_reader.cpp:20-23 | Carriage returns make no difference, wherever they stand |
| `Text.LastLineIsOpen` | src/network/snapshot_reader.cpp:32-34 | The last line needs no line break, and an empty one is no line |
| `Text.TokensRoundTripWords` | src/network/snapshot_reader.cpp:39-47 | Tokenising undoes joining by blanks for clean tokens |
| `Text.SplitLineTokens` | src/network/snapshot_reader.cpp:39-47 | The token loop computes the specified tokens |
| `Text.DecimalRoundTrip` | src/network/snapshot_reader.cpp:49-62 | Printed numbers read back |
| `Text.ParseInt64` | src/network/snapshot_reader.cpp:49-62 | The digit loop accepts exactly non-empty digit strings, with their value |
| `Snapshot.ProgressRoundTrip` | src/server/snapshot_writer.cpp:22-24 | Six-decimal progress reads back |
| `Snapshot.MoveLineRoundTrip` | src/network/snapshot_reader.cpp:130-151 | A written move line parses to the same move |
| `Snapshot.JumpLineRoundTrip` | src/network/snapshot_reader.cpp:153-170 | A written jump line parses to the same jump |
| `Snapshot.RestLineRoundTrip` | src/network/snapshot_reader.cpp:172-188 | A written rest line parses to the same rest |
| `SnapshotRoundTrip.SnapshotRoundTrips` | src/network/snapshot_reader.cpp:247-369 | For every well-typed view, reading the written text gives the view back if the grid has a row and the clock is not negative, and nothing otherwise |
| `SnapshotRoundTrip.AnimationsAreOptional` | src/network/snapshot_reader.cpp:362-368 | A text that ends after the grid reads as the view with nothing in the air |
| `SnapshotIO.WriteSnapshot` | src/server/snapshot_writer.cpp:61-96 | The writer's loops produce the specified text |
| `SnapshotIO.ReadSectionLoop` | src/network/snapshot_reader.cpp:190-219 | The section loop, for any entry type, computes the specified section |
| `SnapshotIO.ReadSnapshot` | src/network/snapshot_reader.cpp:247-369 | The reader's loops compute the specified reading of any text |
| `Broadcast.BroadcastIsLossless` | src/server/room/room.cpp:54-57 | In every game, after every run, the snapshot of the view reads back as the view |
| `Broadcast.EngineRoomsReportOnce` | src/server/room/active_room_processor.cpp:21-76 | A server whose rooms play the engine reports each room's result at most once |
| `Broadcast.EngineWinnerIsRecorded` | src/server/room/active_room_processor.cpp:71-74 | In a room on the engine, when a tick ends the game, a colour is recorded as the winner if and only if its king is idle and the other is captured |
| `Broadcast.InputsNeverEndAGame` | src/server/room/active_room_processor.cpp:78-94 | Only a tick ends a game; no player input does, and exactly the allowed inputs reach it |
| `Sha256.RotrRotates` | src/server/password_hasher.cpp:37-39 | The shift formula is rotation to the right for every amount used |
| `Sha256.SigmasRotate` | src/server/password_hasher.cpp:49-72 | The four sigma functions rotate and shift by the amounts of section 4.1.2 of FIPS 180-4 |
| `Sha256.Chooses` | src/server/password_hasher.cpp:68 | Ch takes the bits of its second argument where the first is set and of the third elsewhere |
| `Sha256.Majority` | src/server/password_hasher.cpp:71 | Maj agrees with its first two arguments wherever they agree |
| `Sha256.MajoritySymmetric` | src/server/password_hasher.cpp:71 | Maj is symmetric, so the same holds of any two arguments |
| `Sha256Constants.InitialValueIsRoots` | src/server/password_hasher.cpp:94-99 | The initial value: 32 fractional bits of the square roots of the first eight primes |
| `Sha256Constants.RoundConstantsAreRoots` | src/server/password_hasher.cpp:25-35 | The round constants: 32 fractional bits of the cube roots of the first 64 primes |
| `Sha256.WNext` | src/server/password_hasher.cpp:41-60 | The schedule as the code adds it equals the schedule of section 6.2.2 of FIPS 180-4 |
| `Sha256.LengthFieldValue` | src/server/password_hasher.cpp:128-130 | The eight shifted bytes are the big-endian bit count |
| `Sha256.PaddingIsLeast` | src/server/password_hasher.cpp:112-126 | The padding completes a block with the fewest zero bytes (section 5.1.1 of FIPS 180-4) |
| `Sha256.WordRoundTrip` | src/server/password_hasher.cpp:133-138 | The four bytes written for a state word read back as the word |
| `Sha256.Context.constructor` | src/server/password_hasher.cpp:94-99 | An empty message absorbed |
| `Sha256.Context.Transform` | src/server/password_hasher.cpp:41-92 | Schedule and rounds over the buffer compute the compression function of section 6.2.2 of FIPS 180-4 |
| `Sha256.Context.Update` | src/server/password_hasher.cpp:101-110 | Absorbs any chunk: whole blocks folded into the state, fewer than 64 bytes buffered, bit count modulo 2^64 |
| `Sha256.Context.Final` | src/server/password_hasher.cpp:112-139 | Produces the digest of everything absorbed, over one or two last blocks |
| `Sha256.Hash` | src/server/password_hasher.cpp:141-148 | The one-shot hash is the digest of the standard |
| `Sha256.HashChunks` | src/server/password_hasher.cpp:94-148 | However a message is cut into updates, the digest is that of the whole |
| `Pbkdf2.HmacSha256` | src/server/password_hasher.cpp:150-185 | Computes HMAC as in section 2 of RFC 2104 |
| `Pbkdf2.LongKeysAreHashed` | src/server/password_hasher.cpp:153-157 | A key longer than a block stands for its digest |
| `Pbkdf2.KeysArePadded` | src/server/password_hasher.cpp:152-162 | Zero bytes at the end of a key do not count, up to a whole block |
| `Pbkdf2.EmptyKeyShowsPads` | src/server/password_hasher.cpp:164-169 | The pads are 64 bytes 0x36 inside and 64 bytes 0x5c outside |
| `Pbkdf2.BlockIndexValue` | src/server/password_hasher.cpp:194-199 | The four bytes appended to the salt are the block index, most significant first |
| `Pbkdf2.DeriveBlock` | src/server/password_hasher.cpp:194-219 | Computes T_i, the exclusive or of the iterated function, starting from salt and block index (`Pbkdf2.BlockIndexValue`) |
| `Pbkdf2.DeriveKey` | src/server/password_hasher.cpp:187-229 | Returns exactly the first bytes of T_1, T_2, ... (section 5.2 of RFC 8018) |
| `Passwords.HexRoundTrip` | src/server/password_hasher.cpp:231-256 | Hex text reads back as the bytes |
| `Passwords.ReadHex` | src/server/password_hasher.cpp:240-256 | The pair loop computes the specified reading of any text |
| `Passwords.ConstantTimeEquals` | src/server/password_hasher.cpp:258-268 | The accumulated difference is zero if and only if the strings are equal |
| `Passwords.RecordRoundTrip` | src/server/password_hasher.cpp:281-317 | A written record parses to its iterations, salt and hash |
| `Passwords.HashPassword` | src/server/password_hasher.cpp:281-288 | Returns the record of the derived key |
| `Passwords.VerifyPassword` | src/server/password_hasher.cpp:290-323 | Accepts exactly when the record parses and its hash is the hex of the derived key |
| `Passwords.StoredPasswordVerifies` | src/server/password_hasher.cpp:281-323 | Every stored password verifies, for every password, salt and iteration count |
| `Passwords.AcceptedIffSameKey` | src/server/password_hasher.cpp:290-323 | Another password is accepted if and only if it derives the same key |
| `Codecs.JoinRoundTrip` | src/matchmaking/protocol/matchmaking_codec.cpp:9-25 | Splitting inverts joining; separators in the last field cut it further |
| `Codecs.ReadField` | src/matchmaking/protocol/matchmaking_codec.cpp:9-25 | field_at returns exactly the field between the separators, or nothing past the last |
| `Codecs.ParseIntegral` | src/matchmaking/protocol/matchmaking_codec.cpp:27-40 | Accepts exactly non-empty digit strings, with their value modulo 2^64 |
| `Codecs.MatchRequestRoundTrip` | src/matchmaking/protocol/matchmaking_codec.cpp:44-72 | A request survives if and only if its region has no separator |
| `Codecs.MatchResponseRoundTrip` | src/matchmaking/protocol/matchmaking_codec.cpp:74-100 | A response survives if and only if its message has no separator |
| `Codecs.MatchNotificationRoundTrip` | src/matchmaking/protocol/matchmaking_codec.cpp:102-138 | A notification survives if and only if server id and endpoint have no separator |
| `Codecs.TimeoutRoundTrip` | src/matchmaking/protocol/matchmaking_codec.cpp:140-151 | A timeout notice always survives |
| `Codecs.CreationRequestRoundTrip` | src/server/game/protocol/game_creation_codec.cpp:44-77 | A creation request always survives, with or without a database id |
| `Codecs.CreationResponseRoundTrip` | src/server/game/protocol/game_creation_codec.cpp:79-109 | A creation response survives if and only if its texts have no separator and a present endpoint is not empty |
| `Codecs.LocationRoundTrip` | src/app/redis_runtime_store.cpp:128-154 | A player location survives if and only if its server id has no separator |
| `Codecs.ParsePlayerLocation` | src/app/redis_runtime_store.cpp:133-154 | The cuts at the first two separators compute the specified location |
| `Codecs.EntryRoundTrip` | src/app/redis_runtime_store.cpp:72-97 | A queue entry reads back and fits on one line |
| `Codecs.QueueRoundTrip` | src/app/redis_runtime_store.cpp:99-126 | Queues of every length read back, the empty one included |
| `Codecs.EncodeQueueValue` | src/app/redis_runtime_store.cpp:99-108 | The loop produces the specified text |
| `Codecs.DecodeQueueValue` | src/app/redis_runtime_store.cpp:110-126 | The loop computes the specified queue of any text, skipping lines that do not decode |
| `WireFormats.TokenTable` | src/model/piece_token.cpp:20-27 | The twelve tokens |
| `WireFormats.RequestTexts` | src/matchmaking/protocol/matchmaking_codec.cpp:44-49 | The text of a match request and of a queue entry, field by field |
| `WireFormats.ResponseTexts` | src/matchmaking/protocol/matchmaking_codec.cpp:74-79 | The texts of match responses and timeout notices |
| `WireFormats.NotificationText` | src/matchmaking/protocol/matchmaking_codec.cpp:102-109 | The text of a match notification, field by field |
| `WireFormats.CreationTexts` | src/server/game/protocol/game_creation_codec.cpp:44-51 | The texts of creation requests, creation responses and player locations |
| `WireFormats.QueueText` | src/app/redis_runtime_store.cpp:99-108 | A stored queue is one entry to a line, in order |
| `WireFormats.RecordTexts` | src/server/password_hasher.cpp:286-287 | The text of a password record, with lower-case hex |
| `WireFormats.HeaderText` | src/server/snapshot_writer.cpp:63-71 | The header lines of a snapshot, word by word |
| `WireFormats.MoveLineText` | src/server/snapshot_writer.cpp:36-42 | The line of a move, word by word |
| `WireFormats.JumpLineText` | src/server/snapshot_writer.cpp:44-50 | The line of a jump, word by word |
| `WireFormats.RestLineText` | src/server/snapshot_writer.cpp:52-57 | The line of a rest, word by word |
| `WireFormats.RestKindTexts` | src/server/snapshot_writer.cpp:26-34 | The two words for the kinds of rest |
| `Matchmaking.EnterKeeps` | src/matchmaking/remote_matchmaking_service.cpp:28-44 | Entering pairs if and only if somebody else suits, takes the longest waiting one, never the player himself, removes both; otherwise the newcomer waits; ids stay unique and waiting players pairwise incompatible |
| `Matchmaking.EnterOrder` | src/matchmaking/player_matchmaking_queue.cpp:46-49 | Entering reorders nobody, and whoever has to wait waits behind everybody else |
| `Matchmaking.RemovedOrder` | src/matchmaking/player_matchmaking_queue.cpp:22-29 | Removing a player does not reorder the others |
| `Matchmaking.RemainingOrder` | src/matchmaking/player_matchmaking_queue.cpp:55-62 | Timeouts do not reorder those who go on waiting |
| `Matchmaking.RunInOrder` | src/matchmaking/remote_matchmaking_service.cpp:28-86 | Every run of requests whose clock does not run backwards keeps every queue in the order of entry |
| `Matchmaking.LongestWaitingIsPaired` | src/matchmaking/player_matchmaking_queue.cpp:31-44 | After every such run a newcomer is paired with the one who has waited longest of all who suit |
| `Matchmaking.AtMostTwoSuit` | src/matchmaking/player_matchmaking_queue.cpp:74-77 | No three waiting players can suit one newcomer |
| `Matchmaking.ExpiredExact` | src/matchmaking/player_matchmaking_queue.cpp:51-68 | The players reported are exactly those who timed out, and none is lost |
| `Matchmaking.ServeKeeps` | src/matchmaking/remote_matchmaking_service.cpp:28-62 | A request keeps every queue in order and touches no other region |
| `Matchmaking.EveryRunKeepsQueues` | src/matchmaking/remote_matchmaking_service.cpp:28-86 | Every run of requests keeps every queue in order |
| `Matchmaking.RunFromEmptyStore` | src/matchmaking/remote_matchmaking_service.cpp:28-86 | So after every run from an empty store all queues are in order |
| `Matchmaking.LeaveUndoesEnter` | src/matchmaking/remote_matchmaking_service.cpp:46-48 | Leaving with the text one entered with removes the player if and only if the text is not empty |
| `Matchmaking.PlayerQueue.TryPair` | src/matchmaking/player_matchmaking_queue.cpp:31-44 | Takes the first compatible entry, stores the rest; with none it changes nothing |
| `Matchmaking.PlayerQueue.Remove` | src/matchmaking/player_matchmaking_queue.cpp:22-29 | Drops the player's entries and stores the queue |
| `Matchmaking.PlayerQueue.CheckTimeouts` | src/matchmaking/player_matchmaking_queue.cpp:51-68 | Removes and reports exactly the timed-out players, and stores the queue when it changed |
| `Matchmaking.MatchmakingService.QueueFor` | src/matchmaking/remote_matchmaking_service.cpp:71-86 | Finds or creates the region's queue object; stored and in-memory queues agree |
| `Matchmaking.MatchmakingService.EnterQueue` | src/matchmaking/remote_matchmaking_service.cpp:28-44 | The store afterwards is the specified one, with the specified pair (order: `Matchmaking.EnterOrder`) |
| `Matchmaking.MatchmakingService.LeaveQueue` | src/matchmaking/remote_matchmaking_service.cpp:46-48 | The store afterwards is the specified one |
| `Matchmaking.MatchmakingService.ProcessQueue` | src/matchmaking/remote_matchmaking_service.cpp:50-62 | The store afterwards and the players reported are the specified ones |
| `Rooms.FinishKeeps` | src/server/game_result/game_result_handler.cpp:25-54 | Finishing logs exactly one batch of effects for an active room and none for another, leaves the room inactive and the others alone |
| `Rooms.ProcessRoomKeeps` | src/server/room/active_room_processor.cpp:28-75 | One room's turn keeps the invariant, leaves the other rooms alone, and the room inactive or with its game on |
| `Rooms.ProcessAllKeeps` | src/server/room/active_room_processor.cpp:21-76 | The loop over the active rooms does so for all of them, in any order |
| `Rooms.TickLeavesOnlyLiveRooms` | src/server/game_server_runtime.cpp:153-158 | After the tick's cleanup every room left is active, complete, unreported, and its game is on; a room survives if and only if nothing was reported for it |
| `Rooms.LeaverLoses` | src/server/room/active_room_processor.cpp:41-86 | The opponent of a disconnected player, or of the first to resign in a game that the turn's tick leaves on, is recorded and rated as the winner |
| `Rooms.BothGoneIsAbandoned` | src/server/room/active_room_processor.cpp:37-40 | With both players gone the game is abandoned and nobody is rated |
| `Rooms.KingCaptureIsRecorded` | src/server/room/active_room_processor.cpp:71-74 | A tick that ends the game records and rates exactly the winner the match names; without one only the room closes |
| `Rooms.TurnGoesOn` | src/server/room/active_room_processor.cpp:49-69 | Otherwise the turn ticks the game, feeds it the inputs, and records nothing |
| `Rooms.FirstResignationCounts` | src/server/room/active_room_processor.cpp:80-86 | Inputs are fed in order up to the first resignation, and those after it are not read |
| `Rooms.NewAndReturning` | src/server/room/room.cpp:19-32 | A new room is live under a fresh id, and a returning player keeps his side |
| `Rooms.ResultsHappenAtMostOnce` | src/server/game_result/game_result_handler.cpp:25-125 | Over every run each kind of effect of a room happens at most once, and an active room has none |
| `Rooms.IdsAreNeverReused` | src/server/room/room_manager.cpp:7-11 | A room that is gone never comes back |
| `Rooms.GameServer.CreateGame` | src/server/game/local_game_host.cpp:40-67 | Creates an active room under the next id |
| `Rooms.GameServer.FinishRoom` | src/server/game_result/game_result_handler.cpp:25-54 | The sequence of effects in place is the specified one |
| `Rooms.GameServer.ApplyRoomInputs` | src/server/room/active_room_processor.cpp:78-94 | The input loop stops at the first resignation and computes the specified server |
| `Rooms.GameServer.ProcessOne` | src/server/room/active_room_processor.cpp:28-75 | One turn of the loop computes the specified server |
| `Rooms.GameServer.ActiveRooms` | src/server/room/room_manager.cpp:45-54 | Lists each active room exactly once |
| `Rooms.GameServer.RemoveInactiveRooms` | src/server/room/room_manager.cpp:35-43 | Erasing while iterating keeps exactly the active rooms |
| `Rooms.GameServer.Tick` | src/server/game_server_runtime.cpp:153-158 | Process and cleanup compute the specified tick for some order of the active rooms |

## Left out

- Sockets, HTTP, web sockets, Redis, SQLite and PostgreSQL: library input and output.
- Rendering, sprites, layout and the graphical loops; of the view code only the builder behind the snapshots is modelled.
- Threads: listeners that call into shared state from other threads are modelled as sequential steps only.
- The rating formula (floating point): the room model records that ratings were updated and for whom, not by how much.
- Configuration, metrics, logging, health checks and heartbeats: plumbing with only easy facts.
- The in-process matchmaking queue and service, whose eligibility depends on live connections; the region queues have the stronger invariants.
- `finalize_match`: allocation of a game server and notification of the players after a pair was found; the pair itself is the result.
- `would_conflict_with_opposite_color_move` and the loop behind it: nothing in the game calls them; the route test they use is modelled (`Arbiter.HasCommonRoute`).
- Tokenising of client messages in `game_message_parser.cpp`, and the game-server records of the Redis store: more easy round trips.
- Signed overflow of the clock and of `parse_int64`, which the source leaves undefined.
- Injected rule sets: only the standard rules are modelled.
- Views.Build: the progress of an animation is a whole number of millionths, rounded down, in place of a float.
- Views.ProgressMonotone: speaks of whole millionths, in which progress is rounded down; the float quotient is not modelled.
- Ticks.TicksComposeExactly: two clocks between which some move falls due are not covered, because arrivals at the first clock may then change what the later ones find; the case of a first tick that makes nothing due is (`Quiescence.TicksCompose`).
- Snapshot.ProgressRoundTrip: covers the fixed six-decimal notation the writer produces; the other notations strtof accepts are not modelled.
- Paths.LinesShareCell: the inner of the two nested loops is a method of its own (`Paths.WalkMeets`).
- Paths.ForEachCellOnPath: stated for straight and diagonal lines only, since off them the source's loop never meets its end (`Paths.WalkEndsExactlyOnLines`); every caller checks the line first.
- SnapshotIO.WriteSnapshot: fields of an entry line are joined token by token instead of streamed one by one.
- Pbkdf2.DeriveKey: the number of blocks must fit the source's 32-bit block counter.
- Passwords.VerifyPassword: the stored text consists of byte-sized characters and is at most 2^36 characters long, so that the block counter does not overflow.
- Passwords.HashPassword: the random salt is an argument.
- Matchmaking.PlayerQueue.CheckTimeouts: the current time is an argument, and the timeout is already in whole seconds.
- Matchmaking.MatchmakingService.EnterQueue: the service starts from an empty store, and queue entries reach the store as values; their text form is proved separately (`Codecs.QueueRoundTrip`).
- Rooms.GameServer.Tick: connections, inputs and stored profiles of a tick are arbitrary but fixed per room and tick; messages to clients are not modelled, except the announcement of a result.
- Rooms.LeaverLoses: speaks of rooms with a database id and stored profiles, because without them the source records no winner.
