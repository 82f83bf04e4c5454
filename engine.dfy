/** `GameState`: the rules engine. A reference definition of `make_move` on a snapshot of the
    state it touches, its properties, and the class whose methods update the state in place. */
module ChessEngine {
  import opened Board
  import opened MoveGen
  import opened MoveApply
  import opened Vision

  /** One `move_log` entry: the piece moved, its origin and destination, and the piece it was
      promoted to, if any. */
  datatype LogEntry = LogEntry(piece: Square, from: Pos, to: Pos, promotedTo: Option<Square>)

  /** Every field `make_move` reads or writes. */
  datatype Snapshot = Snapshot(
    board: Grid,
    whiteToMove: bool,
    moveLog: seq<LogEntry>,
    gameOver: bool,
    winner: Option<string>,
    enPassant: Option<Pos>,
    rights: Rights,
    castlingLog: seq<Rights>,
    kingPos: map<Color, Pos>)

  /** What every reachable state satisfies: an 8x8 board, both `king_pos` keys, an empty en
      passant target, and right-holding kings at home. */
  ghost predicate SnapshotOk(st: Snapshot) {
    && IsGrid(st.board) && White in st.kingPos && Black in st.kingPos
    && EnPassantEmpty(st.board, st.enPassant) && KingsHome(st.board, st.rights)
  }

  function PositionOf(st: Snapshot): Position {
    Position(st.board, ColorToMove(st.whiteToMove), st.rights, st.enPassant)
  }

  /** The state built by `__init__`. */
  function InitialState(): Snapshot {
    var all := Rights(true, true, true, true);
    Snapshot(InitialBoard(), true, [], false, None, None, all, [all], map[White := Pos(7, 4), Black := Pos(0, 4)])
  }

  /** The name `make_move` records for the side that captured a king. */
  function WinnerName(whiteToMove: bool): string {
    if whiteToMove then "Brancas" else "Pretas"
  }

  /** `make_move` returns True: the game is not over, the origin holds a piece of the side to
      move, and the destination is among that piece's generated moves. */
  predicate Accepts(st: Snapshot, start: Pos, end: Pos)
    requires SnapshotOk(st) && InBounds(start)
  {
    var s := PositionOf(st);
    && !st.gameOver
    && Owned(At(st.board, start), s.side)
    && (KingsHomeMakesGenOk(s, start); end in PieceMoves(s, start))
  }

  /** An accepted move stays on the board; a castle starts from the king's home square with a
      right held; a two-row pawn move passes over an empty square in its own column. */
  lemma AcceptedShape(st: Snapshot, start: Pos, end: Pos)
    requires SnapshotOk(st) && InBounds(start) && Accepts(st, start, end)
    ensures ApplyOk(st.board, start, end)
    ensures var piece := At(st.board, start);
      IsCastle(piece, start, end) ==>
        start == Pos(HomeRow(piece.color), 4) && (KingSide(st.rights, piece.color) || QueenSide(st.rights, piece.color))
    ensures NewEnPassant(At(st.board, start), start, end).Some? ==>
      At(st.board, Pos((start.row + end.row) / 2, start.col)) == Empty && start.col == end.col
  {
    var s := PositionOf(st);
    var piece := At(st.board, start);
    KingsHomeMakesGenOk(s, start);
    DestinationsSound(s, start, end);
    if piece.kind == King && end in StepTargets(st.board, piece.color, start, KingSteps) {
      StepTargetsMembership(st.board, piece.color, start, KingSteps, end);
      var k :| 0 <= k < |KingSteps| && end == RayPos(start, KingSteps[k], 1);
      assert -1 <= KingSteps[k].1 <= 1;
    }
    if piece.kind == Pawn {
      PawnMovesMembership(st.board, piece.color, st.enPassant, start, end);
    }
  }

  /** The state after an accepted move, in the order `make_move` writes it. */
  function Moved(st: Snapshot, start: Pos, end: Pos, promotion: Kind): Snapshot
    requires ApplyOk(st.board, start, end)
  {
    var piece := At(st.board, start);
    var captured := At(st.board, end);
    var rights := UpdatedRights(st.rights, start, piece);
    var over := captured.Piece? && captured.kind == King;
    Snapshot(
      ApplyBoard(st.board, start, end, promotion, st.enPassant),
      if over then st.whiteToMove else !st.whiteToMove,
      st.moveLog + [LogEntry(piece, start, end, if Promotes(piece, end) then Some(Piece(piece.color, promotion)) else None)],
      over,
      if over then Some(WinnerName(st.whiteToMove)) else st.winner,
      NewEnPassant(piece, start, end),
      rights,
      st.castlingLog + [rights],
      if piece.kind == King then st.kingPos[piece.color := end] else st.kingPos)
  }

  /** The board after an accepted move: the origin empty, the destination holding the mover
      or its promotion, the pawn taken en passant removed, the castling corner relocated, and
      every other square as before. */
  lemma MovedBoard(st: Snapshot, start: Pos, end: Pos, promotion: Kind)
    requires SnapshotOk(st) && InBounds(start) && Accepts(st, start, end)
    ensures var r := (AcceptedShape(st, start, end); Moved(st, start, end, promotion).board);
      var piece := At(st.board, start);
      && InBounds(end) && IsGrid(r)
      && At(r, start) == Empty
      && At(r, end) == (if piece.kind == Pawn && end.row == LastRow(piece.color) then Piece(piece.color, promotion) else piece)
      && (piece.kind == Pawn && st.enPassant == Some(end) ==> At(r, Pos(start.row, end.col)) == Empty)
      && (piece.kind == King && end.col - start.col == 2 ==>
            && end.col + 1 < 8
            && At(r, Pos(end.row, end.col - 1)) == At(st.board, Pos(end.row, end.col + 1))
            && At(r, Pos(end.row, end.col + 1)) == Empty)
      && (piece.kind == King && start.col - end.col == 2 ==>
            && end.col - 2 >= 0
            && At(r, Pos(end.row, end.col + 1)) == At(st.board, Pos(end.row, end.col - 2))
            && At(r, Pos(end.row, end.col - 2)) == Empty)
      && (forall q :: InBounds(q) && q != start && q != end
                      && !(piece.kind == Pawn && st.enPassant == Some(end) && q == Pos(start.row, end.col))
                      && !(piece.kind == King && end.col - start.col == 2
                           && (q == Pos(end.row, end.col - 1) || q == Pos(end.row, end.col + 1)))
                      && !(piece.kind == King && start.col - end.col == 2
                           && (q == Pos(end.row, end.col + 1) || q == Pos(end.row, end.col - 2)))
                      ==> At(r, q) == At(st.board, q))
  {
    AcceptedShape(st, start, end);
  }

  /** Bookkeeping after an accepted move: the en passant target, `king_pos`, the castling
      rights (only ever revoked) and both logs. */
  lemma MovedBookkeeping(st: Snapshot, start: Pos, end: Pos, promotion: Kind)
    requires SnapshotOk(st) && InBounds(start) && Accepts(st, start, end)
    ensures var r := (AcceptedShape(st, start, end); Moved(st, start, end, promotion));
      var piece := At(st.board, start);
      && (r.enPassant.Some? <==> piece.kind == Pawn && (start.row - end.row == 2 || end.row - start.row == 2))
      && (r.enPassant.Some? ==> r.enPassant.value == Pos((start.row + end.row) / 2, start.col))
      && (piece.kind == King ==> r.kingPos == st.kingPos[piece.color := end])
      && (piece.kind != King ==> r.kingPos == st.kingPos)
      && (r.rights.wks ==> st.rights.wks) && (r.rights.wqs ==> st.rights.wqs)
      && (r.rights.bks ==> st.rights.bks) && (r.rights.bqs ==> st.rights.bqs)
      && r.castlingLog == st.castlingLog + [r.rights]
      && |r.moveLog| == |st.moveLog| + 1 && r.moveLog[..|st.moveLog|] == st.moveLog
  {
    AcceptedShape(st, start, end);
    var r := Moved(st, start, end, promotion);
    assert r.moveLog[..|st.moveLog|] == st.moveLog;
  }

  /** Capturing a king (judged on the destination before the move) ends the game in favour of
      the mover and keeps the turn; any other move passes the turn. Once the game is over, no
      move is accepted. */
  lemma {:induction false} KingCaptureEndsGame(st: Snapshot, start: Pos, end: Pos, promotion: Kind)
    requires SnapshotOk(st) && InBounds(start) && Accepts(st, start, end) && promotion != King
    ensures var r := (AcceptedShape(st, start, end); Moved(st, start, end, promotion));
      var captured := At(st.board, end);
      && (r.gameOver <==> captured.Piece? && captured.kind == King)
      && (r.gameOver ==> r.winner == Some(if st.whiteToMove then "Brancas" else "Pretas") && r.whiteToMove == st.whiteToMove)
      && (!r.gameOver ==> r.whiteToMove == !st.whiteToMove && r.winner == st.winner)
      && SnapshotOk(r)
      && (r.gameOver ==> forall s2, e2 :: InBounds(s2) ==> !Accepts(r, s2, e2))
  {
    MovedKeepsInvariant(st, start, end, promotion);
  }

  /** A move accepted from a valid state (never promoting to a king) leads to a valid state. */
  lemma MovedKeepsInvariant(st: Snapshot, start: Pos, end: Pos, promotion: Kind)
    requires SnapshotOk(st) && InBounds(start) && Accepts(st, start, end) && promotion != King
    ensures (AcceptedShape(st, start, end); SnapshotOk(Moved(st, start, end, promotion)))
  {
    var piece := At(st.board, start);
    AcceptedShape(st, start, end);
    EnPassantTargetEmpty(st.board, start, end, promotion, st.enPassant);
    ApplyKeepsKingsHome(st.board, st.rights, start, end, promotion, st.enPassant);
  }

  /** In a valid state, generating the moves of any piece of the side to move never raises. */
  lemma ValidGenOk(st: Snapshot)
    requires SnapshotOk(st)
    ensures AllGenOk(PositionOf(st))
  {
    var s := PositionOf(st);
    forall p | InBounds(p) && Owned(At(s.board, p), s.side)
      ensures GenOk(s, p)
    {
      KingsHomeMakesGenOk(s, p);
    }
  }

  /** Every pair `get_all_possible_moves` lists lands on the board, never on a piece of the
      side to move, and `make_move` accepts it unless the game is already over (the list
      itself does not look at `game_over`). */
  lemma AllMovesAccepted(st: Snapshot, m: (Pos, Pos))
    requires SnapshotOk(st) && (ValidGenOk(st); m in AllMoves(PositionOf(st)))
    ensures InBounds(m.0) && InBounds(m.1) && !Owned(At(st.board, m.1), ColorToMove(st.whiteToMove))
    ensures !st.gameOver ==> Accepts(st, m.0, m.1)
  {
    var s := PositionOf(st);
    ValidGenOk(st);
    AllMovesMembership(s, m);
    KingsHomeMakesGenOk(s, m.0);
    DestinationsSound(s, m.0, m.1);
  }

  /** The initial state is valid. */
  lemma InitialStateOk()
    ensures SnapshotOk(InitialState())
  {
    var b := InitialBoard();
    forall p | InBounds(p) && At(b, p).Piece? && At(b, p).kind == King
      ensures p == Pos(HomeRow(At(b, p).color), 4)
    {
      assert p.row == 0 || p.row == 7;
    }
  }

  /** The colour whose vision `calculate_vision` computes: the one asked for, else the side to
      move. */
  function Viewer(viewer: Option<Color>, whiteToMove: bool): Color {
    if viewer.Some? then viewer.value else ColorToMove(whiteToMove)
  }

  class GameState {
    var board: Grid
    var whiteToMove: bool
    var moveLog: seq<LogEntry>
    var gameOver: bool
    var winner: Option<string>
    var enPassant: Option<Pos>
    var castlingRights: Rights
    var castlingLog: seq<Rights>
    var kingPos: map<Color, Pos>
    var visionBoard: VisionGrid

    function State(): Snapshot
      reads this
    {
      Snapshot(board, whiteToMove, moveLog, gameOver, winner, enPassant, castlingRights, castlingLog, kingPos)
    }

    ghost predicate Valid()
      reads this
    {
      SnapshotOk(State()) && IsGrid(visionBoard)
    }

    /** `__init__`: the starting position, seen by white. */
    constructor ()
      ensures Valid()
      ensures State() == InitialState()
      ensures visionBoard == ComputeVision(InitialBoard(), None, false, White)
    {
      board := InitialBoard();
      whiteToMove := true;
      moveLog := [];
      gameOver := false;
      winner := None;
      enPassant := None;
      castlingRights := Rights(true, true, true, true);
      castlingLog := [Rights(true, true, true, true)];
      kingPos := map[White := Pos(7, 4), Black := Pos(0, 4)];
      visionBoard := seq(8, i => seq(8, j => Unknown));
      new;
      InitialStateOk();
      ghost var st := State();
      assert st == InitialState();
      assert Viewer(None, whiteToMove) == White;
      CalculateVision(None);
      assert State() == st;
      assert visionBoard == ComputeVision(st.board, None, false, White);
    }

    /** `is_pawn_promotion`: a pawn moving onto its last row. */
    function IsPawnPromotion(start: Pos, end: Pos): (r: bool)
      reads this
      requires IsGrid(board) && InBounds(start)
      ensures r <==> exists c :: At(board, start) == Piece(c, Pawn) && end.row == LastRow(c)
      ensures r ==> end.row == 0 || end.row == 7
    {
      var piece := At(board, start);
      assert piece.Piece? ==> piece == Piece(piece.color, piece.kind);
      Promotes(piece, end)
    }

    /** `get_valid_moves(r, c)` for a knight's or king's offsets. */
    method StepMoves(from: Pos, color: Color, offs: seq<(int, int)>) returns (moves: seq<Pos>)
      requires IsGrid(board)
      ensures moves == StepTargets(board, color, from, offs)
    {
      moves := [];
      for k := 0 to |offs|
        invariant moves == StepTargets(board, color, from, offs[..k])
      {
        var (dr, dc) := offs[k];
        var endRow, endCol := from.row + dr, from.col + dc;
        if InBounds(Pos(endRow, endCol)) && (board[endRow][endCol] == Empty || board[endRow][endCol].color != color) {
          moves := moves + [Pos(endRow, endCol)];
        }
        assert offs[..k + 1][..k] == offs[..k];
      }
      assert offs[..|offs|] == offs;
    }

    /** One direction of a rook, bishop or queen in `get_valid_moves`: up to seven steps,
        stopping at the edge or at the first occupied square. */
    method CastRay(from: Pos, color: Color, d: (int, int)) returns (ray: seq<Pos>)
      requires IsGrid(board)
      ensures ray == Ray(board, color, from, d, 1)
    {
      ray := [];
      var i := 1;
      while i < 8
        invariant 1 <= i <= 8
        invariant ray + Ray(board, color, from, d, i) == Ray(board, color, from, d, 1)
      {
        var p := RayPos(from, d, i);
        if !InBounds(p) {
          break;
        }
        var endPiece := board[p.row][p.col];
        if endPiece == Empty {
          ray := ray + [p];
        } else if endPiece.color != color {
          ray := ray + [p];
          break;
        } else {
          break;
        }
        i := i + 1;
      }
    }

    /** `get_valid_moves(r, c)` for a rook, bishop or queen: the rays of all its directions. */
    method SlideMoves(from: Pos, color: Color, dirs: seq<(int, int)>) returns (moves: seq<Pos>)
      requires IsGrid(board)
      ensures moves == Rays(board, color, from, dirs)
    {
      moves := [];
      for k := 0 to |dirs|
        invariant moves == Rays(board, color, from, dirs[..k])
      {
        var ray := CastRay(from, color, dirs[k]);
        moves := moves + ray;
        assert dirs[..k + 1][..k] == dirs[..k];
      }
      assert dirs[..|dirs|] == dirs;
    }

    /** `get_castle_moves`: appends the castling destinations allowed by the side to move's
        rights when the squares between are empty. */
    method GetCastleMoves(r: int, c: int, moves: seq<Pos>) returns (moves': seq<Pos>)
      requires IsGrid(board) && InBounds(Pos(r, c)) && CastleReadsOk(PositionOf(State()), Pos(r, c))
      ensures moves' == moves + CastleMoves(PositionOf(State()), Pos(r, c))
    {
      var color := ColorToMove(whiteToMove);
      moves' := moves;
      if KingSide(castlingRights, color) {
        if board[r][c + 1] == Empty && board[r][c + 2] == Empty {
          moves' := moves' + [Pos(r, c + 2)];
        }
      }
      if QueenSide(castlingRights, color) {
        if board[r][PyCol(c - 1)] == Empty && board[r][PyCol(c - 2)] == Empty && board[r][PyCol(c - 3)] == Empty {
          moves' := moves' + [Pos(r, c - 2)];
        }
      }
    }

    /** The pawn branch of `get_valid_moves`: one or two pushes onto empty squares, then the
        two forward diagonals. */
    method PawnMovesFrom(from: Pos, color: Color) returns (moves: seq<Pos>)
      requires IsGrid(board) && InBounds(from)
      ensures moves == PawnMoves(board, color, enPassant, from)
    {
      var r, c := from.row, from.col;
      var direction := Forward(color);
      moves := [];
      if InBounds(Pos(r + direction, c)) && board[r + direction][c] == Empty {
        moves := moves + [Pos(r + direction, c)];
        if r == PawnStartRow(color) {
          if InBounds(Pos(r + 2 * direction, c)) && board[r + 2 * direction][c] == Empty {
            moves := moves + [Pos(r + 2 * direction, c)];
          }
        }
      }
      ghost var pushes := moves;
      var dcs := [-1, 1];
      for k := 0 to 2
        invariant moves == pushes + (if k == 0 then [] else PawnDiagonal(board, color, enPassant, from, -1))
                                  + (if k < 2 then [] else PawnDiagonal(board, color, enPassant, from, 1))
      {
        var dc := dcs[k];
        if InBounds(Pos(r + direction, c + dc)) {
          var target := board[r + direction][c + dc];
          if target.Piece? && target.color != color {
            moves := moves + [Pos(r + direction, c + dc)];
          } else if enPassant == Some(Pos(r + direction, c + dc)) {
            moves := moves + [Pos(r + direction, c + dc)];
          }
        }
      }
    }

    /** `get_valid_moves(r, c)`: the destinations of the piece on (r, c), in the order the
        source generates them. Raises in the source unless `GenOk`. */
    method ValidMoves(r: int, c: int) returns (moves: seq<Pos>)
      requires IsGrid(board) && InBounds(Pos(r, c)) && GenOk(PositionOf(State()), Pos(r, c))
      ensures moves == PieceMoves(PositionOf(State()), Pos(r, c))
    {
      var from := Pos(r, c);
      match board[r][c]
      case Empty =>
        moves := [];
      case Piece(color, Pawn) =>
        moves := PawnMovesFrom(from, color);
      case Piece(color, King) =>
        moves := StepMoves(from, color, KingSteps);
        moves := GetCastleMoves(r, c, moves);
      case Piece(color, Knight) =>
        moves := StepMoves(from, color, KnightJumps);
      case Piece(color, kind) =>
        moves := SlideMoves(from, color, SliderDirs(kind));
    }

    /** One square of `get_all_possible_moves`: appends the pairs of the piece on (r, c) when
        it belongs to the side to move. */
    method AddOriginMoves(ghost s: Position, r: int, c: int, moves: seq<(Pos, Pos)>) returns (moves': seq<(Pos, Pos)>)
      requires s == PositionOf(State()) && IsGrid(board) && AllGenOk(s) && InBounds(Pos(r, c))
      ensures moves' == moves + MovesOf(s, Pos(r, c))
    {
      moves' := moves;
      var piece := board[r][c];
      if piece != Empty && piece.color == ColorToMove(whiteToMove) {
        var validMoves := ValidMoves(r, c);
        for j := 0 to |validMoves|
          invariant moves' == moves + Pairs(Pos(r, c), validMoves[..j])
        {
          moves' := moves' + [(Pos(r, c), validMoves[j])];
          assert Pairs(Pos(r, c), validMoves[..j + 1]) == Pairs(Pos(r, c), validMoves[..j]) + [(Pos(r, c), validMoves[j])];
        }
        assert validMoves[..|validMoves|] == validMoves;
      }
    }

    /** One row of the scan of `get_all_possible_moves`: the pairs of the origins (r, 0) ..
        (r, 7), in column order. */
    method ScanRow(ghost s: Position, r: int) returns (row: seq<(Pos, Pos)>)
      requires s == PositionOf(State()) && IsGrid(board) && AllGenOk(s) && 0 <= r < 8
      ensures row == RowMoves(s, r, 8)
    {
      row := [];
      for c := 0 to 8
        invariant row == RowMoves(s, r, c)
      {
        row := AddOriginMoves(s, r, c, row);
      }
    }

    /** `get_all_possible_moves`: every (origin, destination) pair of the side to move,
        origins in row-major order. */
    method AllPossibleMoves() returns (moves: seq<(Pos, Pos)>)
      requires Valid()
      ensures AllGenOk(PositionOf(State())) && moves == AllMoves(PositionOf(State()))
    {
      ValidGenOk(State());
      ghost var s := PositionOf(State());
      moves := [];
      for r := 0 to 8
        invariant moves == RowsUpTo(s, r)
      {
        var row := ScanRow(s, r);
        moves := moves + row;
      }
    }

    /** `update_castle_rights`. */
    method UpdateCastleRights(r: int, c: int, piece: Square)
      modifies this`castlingRights
      ensures castlingRights == UpdatedRights(old(castlingRights), Pos(r, c), piece)
    {
      if piece.Piece? && piece.kind == King {
        if piece.color == White {
          castlingRights := castlingRights.(wks := false, wqs := false);
        } else {
          castlingRights := castlingRights.(bks := false, bqs := false);
        }
      } else if piece.Piece? && piece.kind == Rook {
        if r == 7 {
          if c == 0 {
            castlingRights := castlingRights.(wqs := false);
          } else if c == 7 {
            castlingRights := castlingRights.(wks := false);
          }
        } else if r == 0 {
          if c == 0 {
            castlingRights := castlingRights.(bqs := false);
          } else if c == 7 {
            castlingRights := castlingRights.(bks := false);
          }
        }
      }
    }

    /** The board writes and the log entry of `make_move` for an accepted move: the origin is
        emptied, the pawn taken en passant or the castling rook is moved, and the piece (or
        its promotion) is placed on the destination. */
    method MovePieces(start: Pos, end: Pos, promotion: Kind)
      requires ApplyOk(board, start, end)
      modifies this`board, this`moveLog
      ensures board == ApplyBoard(old(board), start, end, promotion, enPassant)
      ensures moveLog == old(moveLog) + [LogEntry(old(At(board, start)), start, end,
        if Promotes(old(At(board, start)), end) then Some(Piece(old(At(board, start)).color, promotion)) else None)]
    {
      var pieceMoved := board[start.row][start.col];
      board := Put(board, start, Empty);
      if pieceMoved.kind == Pawn && enPassant == Some(end) {
        board := Put(board, Pos(start.row, end.col), Empty);
      }
      if pieceMoved.kind == King && (start.col - end.col == 2 || end.col - start.col == 2) {
        if end.col - start.col == 2 {
          board := Put(board, Pos(end.row, end.col - 1), board[end.row][end.col + 1]);
          board := Put(board, Pos(end.row, end.col + 1), Empty);
        } else {
          board := Put(board, Pos(end.row, end.col + 1), board[end.row][end.col - 2]);
          board := Put(board, Pos(end.row, end.col - 2), Empty);
        }
      }
      if pieceMoved.kind == Pawn && end.row == LastRow(pieceMoved.color) {
        board := Put(board, end, Piece(pieceMoved.color, promotion));
        moveLog := moveLog + [LogEntry(pieceMoved, start, end, Some(Piece(pieceMoved.color, promotion)))];
      } else {
        board := Put(board, end, pieceMoved);
        moveLog := moveLog + [LogEntry(pieceMoved, start, end, None)];
      }
    }

    /** The bookkeeping of `make_move` after the pieces are moved: the en passant target,
        `king_pos`, the castling rights and the castling log. */
    method RecordMove(start: Pos, end: Pos, pieceMoved: Square)
      requires pieceMoved.Piece?
      modifies this`enPassant, this`kingPos, this`castlingRights, this`castlingLog
      ensures enPassant == NewEnPassant(pieceMoved, start, end)
      ensures kingPos == if pieceMoved.kind == King then old(kingPos)[pieceMoved.color := end] else old(kingPos)
      ensures castlingRights == UpdatedRights(old(castlingRights), start, pieceMoved)
      ensures castlingLog == old(castlingLog) + [castlingRights]
    {
      if pieceMoved.kind == Pawn && (start.row - end.row == 2 || end.row - start.row == 2) {
        enPassant := Some(Pos((start.row + end.row) / 2, start.col));
      } else {
        enPassant := None;
      }

      if pieceMoved.kind == King {
        kingPos := kingPos[pieceMoved.color := end];
      }

      UpdateCastleRights(start.row, start.col, pieceMoved);
      castlingLog := castlingLog + [castlingRights];
    }

    /** The end of `make_move`: capturing a king ends the game and names the side that moved
        as the winner; otherwise the turn passes. */
    method EndTurn(pieceCaptured: Square)
      requires !gameOver
      modifies this`gameOver, this`winner, this`whiteToMove
      ensures gameOver <==> pieceCaptured.Piece? && pieceCaptured.kind == King
      ensures winner == if gameOver then Some(WinnerName(old(whiteToMove))) else old(winner)
      ensures whiteToMove == if gameOver then old(whiteToMove) else !old(whiteToMove)
    {
      if pieceCaptured != Empty && pieceCaptured.kind == King {
        gameOver := true;
        winner := Some(if whiteToMove then "Brancas" else "Pretas");
      }

      if !gameOver {
        whiteToMove := !whiteToMove;
      }
    }

    /** The part of `make_move` after the move is accepted. */
    method Commit(start: Pos, end: Pos, promotion: Kind)
      requires ApplyOk(board, start, end) && !gameOver
      modifies this`board, this`moveLog, this`enPassant, this`kingPos, this`castlingRights,
        this`castlingLog, this`gameOver, this`winner, this`whiteToMove
      ensures State() == Moved(old(State()), start, end, promotion)
    {
      var pieceMoved := board[start.row][start.col];
      var pieceCaptured := board[end.row][end.col];
      MovePieces(start, end, promotion);
      RecordMove(start, end, pieceMoved);
      EndTurn(pieceCaptured);
    }

    /** `make_move`: True and the move applied exactly when the move is accepted; otherwise
        False and nothing changes. */
    method MakeMove(start: Pos, end: Pos, promotion: Kind) returns (ok: bool)
      requires Valid() && InBounds(start) && promotion != King
      modifies this
      ensures Valid()
      ensures ok == Accepts(old(State()), start, end)
      ensures ok ==> ApplyOk(old(board), start, end) && State() == Moved(old(State()), start, end, promotion)
      ensures ok ==> visionBoard == old(visionBoard)
      ensures !ok ==> unchanged(this)
    {
      if gameOver {
        return false;
      }
      var pieceMoved := board[start.row][start.col];
      if pieceMoved == Empty || pieceMoved.color != ColorToMove(whiteToMove) {
        return false;
      }
      ghost var st := State();
      KingsHomeMakesGenOk(PositionOf(st), start);
      var validMoves := ValidMoves(start.row, start.col);
      if end !in validMoves {
        return false;
      }
      AcceptedShape(st, start, end);
      MovedKeepsInvariant(st, start, end, promotion);
      Commit(start, end, promotion);
      return true;
    }

    /** The forward squares and diagonals of a pawn of `color` on (r, c) in
        `get_piece_vision`. */
    method PawnSight(r: int, c: int, color: Color)
      requires IsGrid(board) && IsGrid(visionBoard) && InBounds(Pos(r, c))
      modifies this`visionBoard
      ensures visionBoard == PawnVision(old(visionBoard), board, enPassant, Pos(r, c), color)
    {
      var from := Pos(r, c);
      PawnPushSight(r, c, color);
      ghost var pushed := visionBoard;
      var dcs := [-1, 1];
      for k := 0 to 2
        invariant IsGrid(visionBoard)
        invariant visionBoard == if k == 0 then pushed
                                 else if k == 1 then PawnDiagonalVision(pushed, board, enPassant, from, color, -1)
                                 else PawnDiagonalVision(PawnDiagonalVision(pushed, board, enPassant, from, color, -1), board, enPassant, from, color, 1)
      {
        PawnDiagonalSight(r, c, color, dcs[k]);
      }
    }

    /** The forward squares of a pawn: the one ahead is revealed as empty or marked 'XX',
        the second (from the start row, through an empty square) revealed when empty. */
    method PawnPushSight(r: int, c: int, color: Color)
      requires IsGrid(board) && IsGrid(visionBoard) && InBounds(Pos(r, c))
      modifies this`visionBoard
      ensures visionBoard == PawnPushVision(old(visionBoard), board, Pos(r, c), color)
    {
      var direction := Forward(color);
      if InBounds(Pos(r + direction, c)) && visionBoard[r + direction][c] == Unknown {
        if board[r + direction][c] == Empty {
          visionBoard := Put(visionBoard, Pos(r + direction, c), Shown(Empty));
        } else {
          visionBoard := Put(visionBoard, Pos(r + direction, c), Hidden);
        }
      }
      if r == PawnStartRow(color) && InBounds(Pos(r + 2 * direction, c))
         && board[r + direction][c] == Empty && board[r + 2 * direction][c] == Empty
      {
        if visionBoard[r + 2 * direction][c] == Unknown {
          visionBoard := Put(visionBoard, Pos(r + 2 * direction, c), Shown(Empty));
        }
      }
    }

    /** One forward diagonal of a pawn: an opponent there is revealed, and so is the en
        passant target. */
    method PawnDiagonalSight(r: int, c: int, color: Color, dc: int)
      requires IsGrid(board) && IsGrid(visionBoard)
      modifies this`visionBoard
      ensures visionBoard == PawnDiagonalVision(old(visionBoard), board, enPassant, Pos(r, c), color, dc)
    {
      var direction := Forward(color);
      if InBounds(Pos(r + direction, c + dc)) {
        var targetPiece := board[r + direction][c + dc];
        if targetPiece.Piece? && targetPiece.color != color {
          visionBoard := Put(visionBoard, Pos(r + direction, c + dc), Shown(targetPiece));
        } else if enPassant == Some(Pos(r + direction, c + dc)) {
          visionBoard := Put(visionBoard, Pos(r + direction, c + dc), Shown(Empty));
        }
      }
    }

    /** One line of sight in `get_piece_vision`: '??' and 'XX' squares get the true content,
        up to `distance` steps, stopping after the first occupied square. */
    method LookAlong(from: Pos, d: (int, int), distance: int)
      requires IsGrid(board) && IsGrid(visionBoard)
      modifies this`visionBoard
      ensures visionBoard == VisionRay(old(visionBoard), board, from, d, 1, distance)
    {
      var i := 1;
      while i <= distance
        invariant 1 <= i
        invariant IsGrid(visionBoard)
        invariant VisionRay(visionBoard, board, from, d, i, distance) == VisionRay(old(visionBoard), board, from, d, 1, distance)
        decreases distance - i
      {
        var p := RayPos(from, d, i);
        if !InBounds(p) {
          break;
        }
        if visionBoard[p.row][p.col] == Unknown || visionBoard[p.row][p.col] == Hidden {
          visionBoard := Put(visionBoard, p, Shown(board[p.row][p.col]));
        }
        if board[p.row][p.col] != Empty {
          break;
        }
        i := i + 1;
      }
    }

    /** `get_piece_vision(r, c, board[r][c])`. */
    method GetPieceVision(r: int, c: int)
      requires IsGrid(board) && IsGrid(visionBoard) && InBounds(Pos(r, c))
      modifies this`visionBoard
      ensures visionBoard == PieceVision(old(visionBoard), board, enPassant, Pos(r, c))
    {
      var from := Pos(r, c);
      match board[r][c]
      case Empty =>
      case Piece(color, Pawn) =>
        PawnSight(r, c, color);
      case Piece(color, kind) =>
        var directions := EyeDirs(kind);
        var distance := Reach(kind);
        for k := 0 to |directions|
          invariant IsGrid(visionBoard)
          invariant visionBoard == VisionDirs(old(visionBoard), board, from, directions[..k], distance)
        {
          LookAlong(from, directions[k], distance);
          assert directions[..k + 1][..k] == directions[..k];
        }
        assert directions[..|directions|] == directions;
    }

    /** `calculate_vision(viewer)`: the whole board once the game is over; otherwise '??'
        everywhere, then the viewer's pieces, then what each of them sees, in row-major order. */
    method CalculateVision(viewer: Option<Color>)
      requires IsGrid(board)
      modifies this`visionBoard
      ensures visionBoard == ComputeVision(board, enPassant, gameOver, Viewer(viewer, whiteToMove))
    {
      if gameOver {
        visionBoard := BoardSeen(board);
        return;
      }
      visionBoard := seq(8, i => seq(8, j => Unknown));
      var playerColor := if viewer.Some? then viewer.value else ColorToMove(whiteToMove);
      for r := 0 to 8
        invariant IsGrid(visionBoard)
        invariant forall p :: InBounds(p) ==>
          At(visionBoard, p) == if p.row < r && Owned(At(board, p), playerColor) then Shown(At(board, p)) else Unknown
      {
        for c := 0 to 8
          invariant IsGrid(visionBoard)
          invariant forall p :: InBounds(p) ==>
            At(visionBoard, p) == if (p.row < r || (p.row == r && p.col < c)) && Owned(At(board, p), playerColor)
                                  then Shown(At(board, p)) else Unknown
        {
          if board[r][c].Piece? && board[r][c].color == playerColor {
            visionBoard := Put(visionBoard, Pos(r, c), Shown(board[r][c]));
          }
        }
      }
      GridExt(visionBoard, OwnPieces(board, playerColor));
      ghost var own := visionBoard;
      for r := 0 to 8
        invariant IsGrid(visionBoard)
        invariant visionBoard == VisionRows(own, board, enPassant, playerColor, r)
      {
        ghost var rowStart := visionBoard;
        for c := 0 to 8
          invariant IsGrid(visionBoard)
          invariant visionBoard == VisionRow(rowStart, board, enPassant, playerColor, r, c)
        {
          if board[r][c].Piece? && board[r][c].color == playerColor {
            GetPieceVision(r, c);
          }
        }
      }
    }
  }
}
