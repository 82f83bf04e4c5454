# Xadrez Torto: a verified model of the rules engine, the AI and the move list

Xadrez Torto ("crooked chess") is a chess variant with no check rule and with fog of war.
A move is any pseudo-legal move, and the game ends when a king is captured. Each player sees
only their own pieces and what those pieces can see. This project models the core of the
server in Dafny and proves properties of the model:

- the `GameState` rules engine of `game/ChessEngine.py`: the starting position, move
  generation, applying a move, castling rights and the vision (fog-of-war) board;
- the greedy computer opponent of `game/ChessAI.py`;
- the parts of `game/views.py` that turn a stored move list into PGN movetext (algebraic
  notation, result token, move numbers and 80-column lines) and that update the clocks
  after a move;
- the seat and turn queries of `Game` in `game/models.py`.

Modules, one file each:

- `Board` (`board.dfy`): squares, colours, kinds, the 8x8 grid and the starting position.
- `MoveGen` (`movegen.dfy`): `get_valid_moves`, `get_castle_moves` and `get_all_possible_moves`
  as functions of a position, plus their characterisations (membership, pawn rules, ray rules,
  destination soundness, row-major order).
- `MoveApply` (`moveapply.dfy`): the board and bookkeeping effects of an accepted move and of
  `update_castle_rights`.
- `Vision` (`vision.dfy`): `calculate_vision` and `get_piece_vision` as functions, with
  the proof that the vision board never lies. Every cell it reveals is looked at by some piece
  of the viewer, and every opponent it shows is seen by one.
- `ChessEngine` (`engine.dfy`): the reference definition of `make_move` on a state snapshot
  (`Accepts`, `Moved`) and the class `GameState`. Its fields are the source's fields, and
  each method is proved equal to the matching specification function.
- `ChessAI` (`ai.dfy`): `piece_scores` and `find_best_move`.
- `Models` (`models.dfy`): `Game.get_player_color` and `Game.is_player_turn`.
- `Views` (`views.dfy`): notation, result token, movetext numbering and wrapping, and clocks.

Where the code behaves oddly, the model follows the code:

- Castling moves whatever stands on the corner, as the code does.
- Queen-side castling reads wrap to the other end of the row for a king near the a-file,
  following Python's negative indexing.
- The king is worth 0 to the AI, so a king capture is chosen only when no other capture exists.
- The PGN wrapping emits an empty first line when the first move text is 80 characters or
  longer.

Representation choices:

- Board squares are `Empty | Piece(color, kind)`.
- Vision cells are `Unknown` ('??'), `Hidden` ('XX') and `Shown(square)`.
- Times are integers: clocks in seconds, instants in microseconds.

## Model

| member | source | states |
|---|---|---|
| Board.InBounds | game/ChessEngine.py:261-262 | `is_in_bounds`: a square is on the board exactly when its row and its column both lie in 0..7 |
| ChessEngine.GameState.constructor | game/ChessEngine.py:5-27 | the state is the starting position: white to move, no en passant target, all four castling rights, a one-entry castling log, kings at (7,4) and (0,4); the state is valid; the vision board is white's view of it |
| ChessEngine.InitialStateOk | game/ChessEngine.py:5-25 | the starting position satisfies the state invariant (8x8 board, both `king_pos` keys, empty en passant target, right-holding kings at home) |
| ChessEngine.Accepts | game/ChessEngine.py:31-48 | when `make_move` goes ahead: the game is not over, the origin holds a piece of the side to move, and the destination is among that piece's generated moves |
| ChessEngine.Moved | game/ChessEngine.py:50-90 | the reference state after an accepted move, field by field in the order `make_move` writes them; its properties are the lemmas below |
| ChessEngine.GameState.MakeMove | game/ChessEngine.py:29-92 | returns True exactly when the game is not over, the origin holds a piece of the side to move and the destination is among its generated moves. On True the new state is the reference `Moved` state and the invariant still holds. On False nothing changes |
| ChessEngine.AcceptedShape | game/ChessEngine.py:39-48 | an accepted move lands on the board; a two-column king move starts on the king's home square while a right is held; a two-row pawn move passes over an empty square of its own column |
| ChessEngine.MovedBoard | game/ChessEngine.py:50-72 | after the move: the origin is empty; the destination holds the mover, or its promotion on the last row; the pawn taken en passant is removed; the castling corner's content is moved next to the king; every other square is unchanged |
| ChessEngine.MovedBookkeeping | game/ChessEngine.py:74-83 | the en passant target is set exactly after a two-row pawn move, at the midpoint; `king_pos` follows a king move and nothing else; castling rights are only ever revoked; both logs grow by one entry, keeping the old entries |
| ChessEngine.KingCaptureEndsGame | game/ChessEngine.py:85-90 | the game is over exactly when a king was captured. The winner is then "Brancas" if white moved, else "Pretas", and the turn is not passed. Otherwise the turn passes and the winner is unchanged. Once over, no move is accepted |
| ChessEngine.MovedKeepsInvariant | game/ChessEngine.py:29-92 | an accepted move that does not promote to a king leads from a valid state to a valid state |
| ChessEngine.ValidGenOk | game/ChessEngine.py:156-167 | in a valid state, generating the moves of any piece of the side to move never raises |
| ChessEngine.AllMovesAccepted | game/ChessEngine.py:156-167 | each listed pair lands on the board, never on a piece of the side to move, and `make_move` accepts it unless the game is over |
| ChessEngine.GameState.Commit | game/ChessEngine.py:50-90 | the state after the writes of an accepted move is the reference `Moved` state |
| ChessEngine.GameState.MovePieces | game/ChessEngine.py:50-72 | the board becomes `ApplyBoard` of the old board; the log gains the entry for this move, with its promotion |
| ChessEngine.GameState.RecordMove | game/ChessEngine.py:74-83 | sets the en passant target, `king_pos`, the castling rights and the castling log as `Moved` states them |
| ChessEngine.GameState.EndTurn | game/ChessEngine.py:85-90 | the game is over exactly when the captured square held a king; the winner is named after the mover; the turn flips only when the game goes on |
| ChessEngine.GameState.IsPawnPromotion | game/ChessEngine.py:94-103 | true exactly when the origin holds a pawn and the destination is on that pawn's last row (row 0 for white, row 7 for black) |
| ChessEngine.GameState.ValidMoves | game/ChessEngine.py:105-154 | the destinations, in generation order, equal the specification `PieceMoves` |
| ChessEngine.GameState.PawnMovesFrom | game/ChessEngine.py:110-122 | the pawn's destinations equal `PawnMoves`: the pushes, then the left diagonal, then the right diagonal |
| ChessEngine.GameState.StepMoves | game/ChessEngine.py:124-137 | knight and king steps equal `StepTargets`: each offset in order, kept when on the board and not held by the mover's colour |
| ChessEngine.GameState.CastRay | game/ChessEngine.py:143-153 | one slider direction equals `Ray`: empty squares, then at most one opponent, stopping at the edge or at the first piece |
| ChessEngine.GameState.SlideMoves | game/ChessEngine.py:138-153 | a rook's, bishop's or queen's destinations equal `Rays`, the rays concatenated in direction order |
| ChessEngine.GameState.GetCastleMoves | game/ChessEngine.py:169-177 | appends exactly `CastleMoves`: the side to move's king-side and queen-side destinations, when the right is held and the squares in between are empty |
| ChessEngine.GameState.AddOriginMoves | game/ChessEngine.py:160-166 | appends the pairs of one origin, in the order of its destinations, when it holds a piece of the side to move |
| ChessEngine.GameState.ScanRow | game/ChessEngine.py:159-166 | one row of the scan equals `RowMoves`, the origins taken in column order |
| ChessEngine.GameState.AllPossibleMoves | game/ChessEngine.py:156-167 | the list equals the specification `AllMoves` (and generation never raises) |
| ChessEngine.GameState.UpdateCastleRights | game/ChessEngine.py:179-190 | the new rights are `UpdatedRights` of the old ones |
| ChessEngine.GameState.CalculateVision | game/ChessEngine.py:192-213 | the vision board equals `ComputeVision`, for the viewer asked for or else the side to move |
| ChessEngine.GameState.GetPieceVision | game/ChessEngine.py:215-259 | the vision board after one piece looks equals `PieceVision` of the old one |
| ChessEngine.GameState.PawnSight | game/ChessEngine.py:219-235 | a pawn's pushes, then its two diagonals, as `PawnVision` |
| ChessEngine.GameState.PawnPushSight | game/ChessEngine.py:220-226 | the squares ahead of a pawn, as `PawnPushVision` |
| ChessEngine.GameState.PawnDiagonalSight | game/ChessEngine.py:228-235 | one forward diagonal of a pawn, as `PawnDiagonalVision` |
| ChessEngine.GameState.LookAlong | game/ChessEngine.py:250-259 | one line of sight, as `VisionRay` |
| MoveGen.StepTargetsMembership | game/ChessEngine.py:124-137 | a square is a knight or king destination exactly when it is on the board, not held by the mover's colour, and one offset away |
| MoveGen.RayMembership | game/ChessEngine.py:143-153 | a square is on a ray exactly when it is the first step that is on the board and not held by the mover, with every earlier step empty |
| MoveGen.RaysMembership | game/ChessEngine.py:138-153 | a slider destination is exactly a square on the ray of one of its directions |
| MoveGen.PawnMovesMembership | game/ChessEngine.py:110-122 | a pawn destination is exactly one of: a push onto an empty square; a double push from the start row over two empty squares; a forward diagonal onto an opponent or onto the en passant target |
| MoveGen.DestinationsSound | game/ChessEngine.py:105-154 | every destination is on the board and never holds a piece of the mover's colour (given an empty en passant target and a king with a queen-side right away from the edge) |
| MoveGen.MovesOfMembership | game/ChessEngine.py:160-166 | the pairs of one origin are exactly (origin, d) with the origin holding a piece of the side to move and d among its destinations |
| MoveGen.RowMovesMembership | game/ChessEngine.py:159-166 | the pairs of a row prefix are exactly those whose origin lies in that prefix |
| MoveGen.RowsUpToMembership | game/ChessEngine.py:158-166 | the pairs of the first rows are exactly those whose origin lies in those rows |
| MoveGen.AllMovesMembership | game/ChessEngine.py:156-167 | a pair is listed exactly when its origin is on the board and holds a piece of the side to move, and its destination is among that piece's moves |
| MoveGen.RowMovesOrdered | game/ChessEngine.py:159-166 | within a row, the origins of the pairs never go back in column order |
| MoveGen.RowsUpToOrdered | game/ChessEngine.py:158-166 | the origins of the pairs never go back in row-major order |
| MoveGen.AllMovesRowMajor | game/ChessEngine.py:156-167 | the list is grouped by origin in row-major board order |
| MoveApply.ApplyBoard | game/ChessEngine.py:50-72 | the board writes of an accepted move. Stated effects: origin, destination, en passant victim, castling corner, and everything else unchanged |
| MoveApply.UpdatedRights | game/ChessEngine.py:179-190 | no castling right is ever granted |
| MoveApply.RightsRevokedPrecisely | game/ChessEngine.py:179-190 | a king move clears both of its colour's rights and keeps the other colour's; a rook leaving a corner (of either colour) clears exactly that corner's right; any other piece changes nothing |
| MoveApply.KingsHomeMakesGenOk | game/ChessEngine.py:169-177 | when every right-holding king is on its home square, the castling reads stay inside the row |
| MoveApply.EnPassantTargetEmpty | game/ChessEngine.py:74-77 | the new en passant target, when set, is an empty square |
| MoveApply.ApplyKeepsKingsHome | game/ChessEngine.py:50-83 | a move keeps every right-holding king on its home square, provided it castles only with a right held and never promotes to a king |
| Vision.ComputeVision | game/ChessEngine.py:192-259 | the reference vision board: the whole board once the game is over; otherwise '??' everywhere, then the viewer's pieces, then each of the viewer's pieces looking in row-major order. Its properties are `VisionSound` |
| Vision.BoardSeen | game/ChessEngine.py:195-198 | once the game is over, every square is shown as it is |
| Vision.OwnPieces | game/ChessEngine.py:201-208 | before any piece looks, exactly the viewer's pieces are shown and every other square is '??' |
| Vision.VisionRayChanges | game/ChessEngine.py:250-259 | a line of sight changes only '??' and 'XX' cells, to the true content, and only on squares reached through empty squares |
| Vision.VisionDirsChanges | game/ChessEngine.py:237-259 | the same for all directions of a piece: each changed cell is in sight of it |
| Vision.PawnPushChanges | game/ChessEngine.py:220-226 | a pawn's forward look changes only '??' cells one or two squares ahead in its own column, to '--' for an empty square or 'XX' for an occupied one |
| Vision.PawnDiagonalChanges | game/ChessEngine.py:228-235 | a pawn's diagonal look changes only that diagonal square, showing an opponent there or the en passant target as empty |
| Vision.PawnVisionChanges | game/ChessEngine.py:219-235 | a pawn changes only its forward squares and its diagonals, as above |
| Vision.PieceVisionStep | game/ChessEngine.py:215-259 | every cell one piece changes is changed in a way its kind allows |
| Vision.StepKeepsTraced | game/ChessEngine.py:210-213 | after a piece of the viewer looks, every non-'??' cell ('XX', '--' or a piece) that is not the viewer's own piece is still looked at by some piece of the viewer: a pawn at the squares ahead or its diagonals, another piece along an unblocked line. Every shown opponent is still seen by one: a pawn on its diagonals, another piece along an unblocked line |
| Vision.StepKeepsHonest | game/ChessEngine.py:210-213 | with an empty en passant target, a look keeps the vision honest: 'XX' only on occupied squares, shown cells equal to the board, the viewer's own pieces shown |
| Vision.ScanStepSound | game/ChessEngine.py:211-213 | one square of the scan keeps the vision sound |
| Vision.VisionRowSound | game/ChessEngine.py:211-213 | one row of the scan keeps the vision sound |
| Vision.VisionRowsSound | game/ChessEngine.py:210-213 | the whole scan keeps the vision sound |
| Vision.VisionSound | game/ChessEngine.py:192-213 | once the game is over, the whole board is shown. Otherwise every revealed square ('XX', '--' or a piece) other than the viewer's own pieces is looked at by a piece of the viewer, and every shown opponent is seen by one. With an empty en passant target, the vision also never shows anything the board does not hold, and shows all the viewer's pieces |
| ChessAI.Score | game/ChessAI.py:8 | capture values are at most 9, and 0 exactly for the king |
| ChessAI.FindBestMove | game/ChessAI.py:10-46 | returns None exactly when there is no move. Otherwise the move is in the list, lies on the board and is accepted by `make_move` while the game goes on. When a capture exists, it is the earliest capture of greatest value |
| ChessAI.KingTakenOnlyWhenSole | game/ChessAI.py:8-39 | when the chosen capture takes a king, every capture on offer takes a king |
| ChessAI.EnPassantNotCapture | game/ChessAI.py:30-33 | an en passant move lands on an empty square, so the AI does not count it as a capture |
| ChessAI.BestCaptureUnique | game/ChessAI.py:27-39 | at most one index is the earliest capture of greatest value |
| Models.ColorCode | game/models.py:54-60 | a colour is coded 'w' for white and 'b' for black |
| Models.GameRecord.PlayerColor | game/models.py:54-60 | white exactly when the user holds the white seat; black when they hold only the black seat; none otherwise |
| Models.GameRecord.IsPlayerTurn | game/models.py:62-67 | false for a non-player; for a player, true exactly when the stored turn is their colour |
| Models.SelfPlayIsWhite | game/models.py:54-67 | a user holding both seats is white, and it is their turn exactly when the turn is 'w' |
| Models.OneToMove | game/models.py:62-67 | with two different players and a turn of 'w' or 'b', exactly one of them is to move |
| Views.NatToString | game/views.py:488-489 | `str` of a number is a non-empty string of decimal digits |
| Views.NatToStringRoundTrip | game/views.py:488-489 | the digits read back as the number |
| Views.FileChar | game/views.py:487-489 | a column is named by a letter from 'a' to 'h' |
| Views.SquareName | game/views.py:487-489 | a square's name is two characters: its file letter, then its rank '1'..'8' |
| Views.SquareNameRoundTrip | game/views.py:487-489 | reading a square's name gives the square back |
| Views.ParseSquareRoundTrip | game/views.py:487-489 | every name that reads as a square is that square's name, so names and squares correspond one to one |
| Views.Symbol | game/views.py:492-497 | pawns have no letter; every other piece has one letter of KQRBN |
| Views.Notation | game/views.py:480-514 | `convert_to_algebraic_notation`: a bare square for a pawn push, `file x square` for a pawn changing column, piece letter plus square otherwise, then `=promotion` when one is shown. Its properties are `BaseNotationShape` and `NotationRoundTrip` |
| Views.BaseNotationShape | game/views.py:499-508 | the notation before any promotion holds no '='. It is a bare square for a pawn push, `file x square` for a pawn changing column, and letter plus square for other pieces |
| Views.NotationRoundTrip | game/views.py:480-514 | reading the notation back recovers the piece letter, the origin file exactly for a pawn that changes column, the destination and the non-empty promotion |
| Views.ResultToken | game/views.py:423-430 | "1-0" exactly for white_win, "0-1" exactly for black_win, "1/2-1/2" exactly for draw, "*" for anything else |
| Views.NumberMoves | game/views.py:445-457 | entry i becomes its notation, prefixed for a white move by one more than the number of black moves before it |
| Views.AlternatingNumbers | game/views.py:447-457 | when the players alternate starting with white, the white move at index 2k is numbered k+1 and black moves carry no number |
| Views.WrapMoves | game/views.py:459-474 | the lines are the greedy wrapping `WrapFrom` of the move texts, with the result added to the last line (or alone when it is empty) |
| Views.GenerateMovetext | game/views.py:443-476 | an empty history gives the result alone; otherwise the numbered moves are wrapped |
| Views.WrapKeepsMoves | game/views.py:459-469 | wrapping neither loses, repeats nor reorders moves: the lines concatenated are the move texts |
| Views.WrapFits | game/views.py:462-469 | every line fits in 80 columns unless it holds a single move text |
| Views.WrapGreedy | game/views.py:462-464 | a line is broken only when the next move would take it past 80 columns, and no later line is empty |
| Views.MovetextEndsWithResult | game/views.py:471-476 | the movetext always ends with the result token |
| Views.TruncSeconds | game/views.py:199-203 | elapsed microseconds become whole seconds, truncated toward zero |
| Views.Charged | game/views.py:202-209 | the mover's clock loses the whole seconds elapsed, stops at zero, then gains the increment. It never ends below the increment |
| Views.ChargedBounds | game/views.py:199-209 | a move never costs more than its time rounded down, nor gains more than the increment; a move within a second just earns the increment |
| Views.FlagWinner | game/views.py:214-220 | black wins exactly when white's clock is at or below 0 (white is looked at first); white wins exactly when only black's is; otherwise no one |
| Views.MoverKeepsFlag | game/views.py:199-220 | with a positive increment, the side that has just moved never loses on time |
| Views.UpdateClocks | game/views.py:189-220 | in a pvp game it fails exactly when a clock it reads is null. That is white's clock always; the mover's clock when charged; black's when white's is positive. On failure the engine state is untouched. Otherwise: the first move only stamps the time; later moves charge the mover's clock by `Charged`; a flag ends the game with `FlagWinner`'s winner, else game over and winner are unchanged. Other game types change nothing |

## Left out

- ChessEngine.GameState.MakeMove: the promotion choice is a piece kind other than the king. The code accepts any string; a 'K' promotion can put a king off its home square while its castling rights remain, after which `get_castle_moves` reads outside the row.
- ChessEngine.GameState.MakeMove: the origin must be on the board. The code does no bounds check: a negative index wraps and a large one raises IndexError. The destination may be anything.
- ChessEngine.GameState.IsPawnPromotion: the origin must be on the board. The view calls it with the client's raw origin before `make_move`: a negative row or column wraps, and a large one raises IndexError (answered with status 400).
- The `None` coordinate check of `make_move` (line 37) is not modelled, since coordinates are integers here.
- The text of `move_log` entries is not modelled: each entry records the piece, origin, destination and promotion as a value.
- ChessEngine.GameState.ValidMoves: it requires that the castling reads stay inside the row (Python would raise IndexError otherwise). In every valid state this holds (`ValidGenOk`).
- `king_pos` is only bookkeeping. It is not tied to the board (castling moves whatever is on the corner, and a king can be captured), so no invariant relates the two.
- `get_all_possible_moves` does not look at `game_over`. `AllMovesAccepted` therefore promises acceptance only while the game goes on.
- ChessAI.FindBestMove: `random.choice` is an arbitrary pick from the list; the distribution is not modelled.
- Views.NumberMoves: history entries must name squares on the board. Python would wrap a negative index and raise on a large one.
- The `previous_moves` argument of `convert_to_algebraic_notation` and its unused `from_square` are not modelled; neither affects the result.
- The JSON (de)serialisation of `move_history`, the PGN header lines and the Django request handling around the clock update are not modelled.
- How `make_move_view` builds history entries is not part of this model. It records the mover from the turn after the move and the piece from the destination after the move.
- Views.UpdateClocks: a null clock (a rematch game is created without clocks) makes the code raise TypeError. The view then answers 400 and saves nothing. The model returns false and leaves the engine state untouched. It promises nothing about the record fields written before the raise, since they are never saved.
- Views.UpdateClocks: times are integers (seconds on the clocks, microseconds for instants) and the clock is read as a parameter `now`; `timedelta.total_seconds()` floating point is not modelled.
- Helper functions and lemmas (`Put`, `GridExt`, `FirstEquals`, `ReadBase`, `JoinSpaceSnoc`, `JoinSpaceEmpty`, `WrapHead`, `NotationNonEmpty`, `MoveTexts`, `DigitChar`) have no row of their own.
