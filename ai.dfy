/** The computer opponent of `ChessAI.find_best_move`: a one-ply greedy choice that takes the
    most valuable capture on offer and otherwise plays any listed move. */
module ChessAI {
  import opened Board
  import opened MoveGen
  import opened MoveApply
  import opened ChessEngine

  /** `piece_scores`: the king is worth nothing, so the AI never aims at it for its own sake. */
  function Score(k: Kind): (v: nat)
    ensures v <= 9
    ensures v == 0 <==> k == King
  {
    match k
    case King => 0
    case Queen => 9
    case Rook => 5
    case Bishop => 3
    case Knight => 3
    case Pawn => 1
  }

  /** The AI counts a move as a capture when its destination is occupied; an en passant
      capture lands on an empty square and so does not count. */
  predicate IsCapture(b: Grid, m: (Pos, Pos))
    requires IsGrid(b)
  {
    InBounds(m.1) && At(b, m.1).Piece?
  }

  function Value(b: Grid, m: (Pos, Pos)): nat
    requires IsGrid(b) && IsCapture(b, m)
  {
    Score(At(b, m.1).kind)
  }

  /** `moves[i]` is the capture the loop keeps after looking at `moves[..n]`: no capture
      there is worth more, and every earlier one is worth strictly less. */
  predicate BestCaptureAt(b: Grid, moves: seq<(Pos, Pos)>, i: int, n: int)
    requires IsGrid(b) && 0 <= n <= |moves|
  {
    && 0 <= i < n && IsCapture(b, moves[i])
    && forall j :: 0 <= j < n && IsCapture(b, moves[j]) ==>
         Value(b, moves[j]) <= Value(b, moves[i]) && (j < i ==> Value(b, moves[j]) < Value(b, moves[i]))
  }

  predicate NoCapture(b: Grid, moves: seq<(Pos, Pos)>, n: int)
    requires IsGrid(b) && 0 <= n <= |moves|
  {
    forall j :: 0 <= j < n ==> !IsCapture(b, moves[j])
  }

  /** `find_best_move`: None exactly when there is no move; otherwise the earliest capture of
      greatest value when there is a capture, and some listed move when there is none. */
  method FindBestMove(gs: GameState) returns (best: Option<(Pos, Pos)>)
    requires gs.Valid()
    ensures var moves := (ValidGenOk(gs.State()); AllMoves(PositionOf(gs.State())));
      && (best.None? <==> moves == [])
      && (best.Some? ==> best.value in moves)
      && (!NoCapture(gs.board, moves, |moves|) ==>
            exists i :: BestCaptureAt(gs.board, moves, i, |moves|) && best == Some(moves[i]))
    ensures best.Some? ==> InBounds(best.value.0) && InBounds(best.value.1)
    ensures best.Some? && !gs.gameOver ==> Accepts(gs.State(), best.value.0, best.value.1)
  {
    var possibleMoves := gs.AllPossibleMoves();
    ghost var st := gs.State();
    forall m | m in possibleMoves
      ensures InBounds(m.1)
    {
      AllMovesAccepted(st, m);
    }
    if |possibleMoves| == 0 {
      return None;
    }

    var bestMove: Option<(Pos, Pos)> := None;
    var bestValue: int := -1;
    ghost var bestIndex := -1;
    for k := 0 to |possibleMoves|
      invariant bestIndex == -1 ==> bestMove == None && bestValue == -1 && NoCapture(gs.board, possibleMoves, k)
      invariant bestIndex != -1 ==>
        && BestCaptureAt(gs.board, possibleMoves, bestIndex, k)
        && bestMove == Some(possibleMoves[bestIndex])
        && bestValue == Value(gs.board, possibleMoves[bestIndex])
    {
      var (startPos, endPos) := possibleMoves[k];
      var capturedPiece := gs.board[endPos.row][endPos.col];
      if capturedPiece != Empty {
        var captureValue := Score(capturedPiece.kind);
        if captureValue > bestValue {
          bestValue := captureValue;
          bestMove := Some(possibleMoves[k]);
          bestIndex := k;
        }
      }
    }

    if bestMove.Some? {
      best := bestMove;
    } else {
      assert possibleMoves[0] in possibleMoves;
      var m :| m in possibleMoves;
      best := Some(m);
    }
    AllMovesAccepted(st, best.value);
  }

  /** The choice among captures is determined: at most one index satisfies `BestCaptureAt`. */
  lemma BestCaptureUnique(b: Grid, moves: seq<(Pos, Pos)>, i: int, i': int)
    requires IsGrid(b)
    requires BestCaptureAt(b, moves, i, |moves|) && BestCaptureAt(b, moves, i', |moves|)
    ensures i == i'
  {
  }

  /** Because the king scores 0, the AI takes a king only when every capture on offer is a
      king capture; any other capture, even a pawn, is preferred. */
  lemma KingTakenOnlyWhenSole(b: Grid, moves: seq<(Pos, Pos)>, i: int)
    requires IsGrid(b) && BestCaptureAt(b, moves, i, |moves|) && At(b, moves[i].1).kind == King
    ensures forall j :: 0 <= j < |moves| && IsCapture(b, moves[j]) ==> At(b, moves[j].1).kind == King
  {
    forall j | 0 <= j < |moves| && IsCapture(b, moves[j])
      ensures At(b, moves[j].1).kind == King
    {
      assert Value(b, moves[j]) <= Value(b, moves[i]) == 0;
    }
  }

  /** In a valid state an en passant move lands on the empty target square, so the AI does
      not see it as a capture. */
  lemma EnPassantNotCapture(st: Snapshot, m: (Pos, Pos))
    requires SnapshotOk(st) && InBounds(m.0) && IsEnPassant(At(st.board, m.0), m.1, st.enPassant)
    ensures !IsCapture(st.board, m)
  {
    assert st.enPassant == Some(m.1);
  }
}
