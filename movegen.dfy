/** Pseudo-legal move generation of `GameState.get_valid_moves`, `get_castle_moves` and
    `get_all_possible_moves`, as functions of a position. */
module MoveGen {
  import opened Board

  /** What move generation reads: the board, the side to move, the castling flags and the
      en passant target. */
  datatype Position = Position(board: Grid, side: Color, rights: Rights, ep: Option<Pos>)

  predicate WellFormed(s: Position) {
    IsGrid(s.board)
  }

  // The offset and direction lists, in the order the source tries them.
  const KingSteps: seq<(int, int)> := [(-1, 0), (1, 0), (0, -1), (0, 1), (-1, -1), (-1, 1), (1, -1), (1, 1)]
  const KnightJumps: seq<(int, int)> := [(-2, -1), (-2, 1), (-1, -2), (-1, 2), (1, -2), (1, 2), (2, -1), (2, 1)]
  const RookDirs: seq<(int, int)> := [(-1, 0), (1, 0), (0, -1), (0, 1)]
  const BishopDirs: seq<(int, int)> := [(-1, -1), (-1, 1), (1, -1), (1, 1)]
  const QueenDirs: seq<(int, int)> := RookDirs + BishopDirs

  function SliderDirs(k: Kind): seq<(int, int)> {
    match k
    case Rook => RookDirs
    case Bishop => BishopDirs
    case Queen => QueenDirs
    case _ => []
  }

  /** Python indexing of one row: a negative index counts from the end of the row. */
  function PyCol(i: int): int
    requires -8 <= i < 8
  {
    if i < 0 then i + 8 else i
  }

  /** The castling reads of `get_castle_moves` stay inside the row (otherwise Python raises
      IndexError). Queen-side reads never raise: they wrap. */
  predicate CastleReadsOk(s: Position, from: Pos)
    requires WellFormed(s) && InBounds(from)
  {
    KingSide(s.rights, s.side) ==>
      from.col + 1 < 8 && (s.board[from.row][from.col + 1] == Empty ==> from.col + 2 < 8)
  }

  /** Generating moves for the piece on `from` raises no exception. */
  predicate GenOk(s: Position, from: Pos)
    requires WellFormed(s) && InBounds(from)
  {
    At(s.board, from).Piece? && At(s.board, from).kind == King ==> CastleReadsOk(s, from)
  }

  /** Knight and king moves: each offset, in order, whose target is on the board and not
      held by the mover's own colour. */
  function StepTargets(b: Grid, c: Color, from: Pos, offs: seq<(int, int)>): seq<Pos>
    requires IsGrid(b)
  {
    if offs == [] then []
    else
      var p := RayPos(from, offs[|offs| - 1], 1);
      StepTargets(b, c, from, offs[..|offs| - 1]) + (if InBounds(p) && !Owned(At(b, p), c) then [p] else [])
  }

  /** One ray of a rook, bishop or queen from step `i` on: empty squares are added, the first
      occupied square is added only when it holds an opponent, and the ray stops there. */
  function Ray(b: Grid, c: Color, from: Pos, d: (int, int), i: int): seq<Pos>
    requires IsGrid(b)
    decreases 8 - i
  {
    if i >= 8 then []
    else
      var p := RayPos(from, d, i);
      if !InBounds(p) then []
      else if At(b, p) == Empty then [p] + Ray(b, c, from, d, i + 1)
      else if IsOpponent(At(b, p), c) then [p]
      else []
  }

  /** All rays of a slider, concatenated in direction order. */
  function Rays(b: Grid, c: Color, from: Pos, dirs: seq<(int, int)>): seq<Pos>
    requires IsGrid(b)
  {
    if dirs == [] then []
    else Rays(b, c, from, dirs[..|dirs| - 1]) + Ray(b, c, from, dirs[|dirs| - 1], 1)
  }

  /** One diagonal of a pawn: onto an opponent, or onto the en passant target. */
  function PawnDiagonal(b: Grid, c: Color, ep: Option<Pos>, from: Pos, dc: int): seq<Pos>
    requires IsGrid(b)
  {
    var p := Pos(from.row + Forward(c), from.col + dc);
    if !InBounds(p) then []
    else if IsOpponent(At(b, p), c) then [p]
    else if ep == Some(p) then [p]
    else []
  }

  function PawnMoves(b: Grid, c: Color, ep: Option<Pos>, from: Pos): seq<Pos>
    requires IsGrid(b)
  {
    var one := Pos(from.row + Forward(c), from.col);
    var two := Pos(from.row + 2 * Forward(c), from.col);
    var pushes :=
      if InBounds(one) && At(b, one) == Empty then
        [one] + (if from.row == PawnStartRow(c) && InBounds(two) && At(b, two) == Empty then [two] else [])
      else [];
    pushes + PawnDiagonal(b, c, ep, from, -1) + PawnDiagonal(b, c, ep, from, 1)
  }

  /** `get_castle_moves`: the rights consulted are those of the side to move. */
  function CastleMoves(s: Position, from: Pos): seq<Pos>
    requires WellFormed(s) && InBounds(from) && CastleReadsOk(s, from)
  {
    var row := s.board[from.row];
    var c := from.col;
    (if KingSide(s.rights, s.side) && row[c + 1] == Empty && row[c + 2] == Empty
     then [Pos(from.row, c + 2)] else [])
    + (if QueenSide(s.rights, s.side) && row[PyCol(c - 1)] == Empty && row[PyCol(c - 2)] == Empty
          && row[PyCol(c - 3)] == Empty
       then [Pos(from.row, c - 2)] else [])
  }

  /** `get_valid_moves(r, c)`: the destinations of the piece on `from`, in generation order. */
  function PieceMoves(s: Position, from: Pos): seq<Pos>
    requires WellFormed(s) && InBounds(from) && GenOk(s, from)
  {
    match At(s.board, from)
    case Empty => []
    case Piece(c, Pawn) => PawnMoves(s.board, c, s.ep, from)
    case Piece(c, King) => StepTargets(s.board, c, from, KingSteps) + CastleMoves(s, from)
    case Piece(c, Knight) => StepTargets(s.board, c, from, KnightJumps)
    case Piece(c, k) => Rays(s.board, c, from, SliderDirs(k))
  }

  /** No piece of the side to move makes move generation raise. */
  ghost predicate AllGenOk(s: Position)
    requires WellFormed(s)
  {
    forall p :: InBounds(p) && Owned(At(s.board, p), s.side) ==> GenOk(s, p)
  }

  function Pairs(from: Pos, ds: seq<Pos>): (r: seq<(Pos, Pos)>)
    ensures |r| == |ds| && forall i :: 0 <= i < |ds| ==> r[i] == (from, ds[i])
  {
    seq(|ds|, i requires 0 <= i < |ds| => (from, ds[i]))
  }

  function MovesOf(s: Position, from: Pos): seq<(Pos, Pos)>
    requires WellFormed(s) && AllGenOk(s) && InBounds(from)
  {
    if Owned(At(s.board, from), s.side) then Pairs(from, PieceMoves(s, from)) else []
  }

  /** The moves of squares (r, 0) .. (r, c - 1): the inner loop of `get_all_possible_moves`. */
  function RowMoves(s: Position, r: int, c: int): seq<(Pos, Pos)>
    requires WellFormed(s) && AllGenOk(s) && 0 <= r < 8 && 0 <= c <= 8
  {
    if c == 0 then [] else RowMoves(s, r, c - 1) + MovesOf(s, Pos(r, c - 1))
  }

  /** The moves of rows 0 .. r - 1: the outer loop. */
  function RowsUpTo(s: Position, r: int): seq<(Pos, Pos)>
    requires WellFormed(s) && AllGenOk(s) && 0 <= r <= 8
  {
    if r == 0 then [] else RowsUpTo(s, r - 1) + RowMoves(s, r - 1, 8)
  }

  /** `get_all_possible_moves`. */
  function AllMoves(s: Position): seq<(Pos, Pos)>
    requires WellFormed(s) && AllGenOk(s)
  {
    RowsUpTo(s, 8)
  }

  // ---------------------------------------------------------------------------------------
  // Properties of move generation

  /** The en passant target, when set, is an empty square on the board. */
  predicate EnPassantEmpty(b: Grid, ep: Option<Pos>)
    requires IsGrid(b)
  {
    ep.Some? ==> InBounds(ep.value) && At(b, ep.value) == Empty
  }

  /** Squares 1 .. i-1 of a ray are on the board and empty. */
  predicate Clear(b: Grid, from: Pos, d: (int, int), i: int)
    requires IsGrid(b)
  {
    forall j :: 1 <= j < i ==> InBounds(RayPos(from, d, j)) && At(b, RayPos(from, d, j)) == Empty
  }

  lemma {:induction false} StepTargetsMembership(b: Grid, c: Color, from: Pos, offs: seq<(int, int)>, p: Pos)
    requires IsGrid(b)
    ensures p in StepTargets(b, c, from, offs) <==>
      InBounds(p) && !Owned(At(b, p), c) && exists k :: 0 <= k < |offs| && p == RayPos(from, offs[k], 1)
  {
    if offs != [] {
      var init := offs[..|offs| - 1];
      StepTargetsMembership(b, c, from, init, p);
      if InBounds(p) && !Owned(At(b, p), c) && (exists k :: 0 <= k < |offs| && p == RayPos(from, offs[k], 1)) {
        var k :| 0 <= k < |offs| && p == RayPos(from, offs[k], 1);
        if k < |offs| - 1 {
          assert offs[k] == init[k];
        }
      }
      if p in StepTargets(b, c, from, init) {
        var k :| 0 <= k < |init| && p == RayPos(from, init[k], 1);
        assert offs[k] == init[k];
      }
    }
  }

  /** Step `k` of a ray lands on `p`, on the board and not held by colour `c`, with every
      earlier step on the board and empty. */
  ghost predicate RayHit(b: Grid, c: Color, from: Pos, d: (int, int), k: int, p: Pos)
    requires IsGrid(b)
  {
    p == RayPos(from, d, k) && InBounds(p) && !Owned(At(b, p), c) && Clear(b, from, d, k)
  }

  /** A ray, continued from a clear step `i`, holds exactly the squares it hits at step
      `i` or later. */
  lemma {:induction false} RayMembership(b: Grid, c: Color, from: Pos, d: (int, int), i: int, p: Pos)
    requires IsGrid(b) && 1 <= i && Clear(b, from, d, i)
    ensures p in Ray(b, c, from, d, i) <==> exists k :: i <= k < 8 && RayHit(b, c, from, d, k, p)
    decreases 8 - i
  {
    if i < 8 {
      var q := RayPos(from, d, i);
      if p == q && InBounds(q) && !Owned(At(b, q), c) {
        assert RayHit(b, c, from, d, i, p);
      }
      if InBounds(q) && At(b, q) == Empty {
        assert Clear(b, from, d, i + 1);
        RayMembership(b, c, from, d, i + 1, p);
        if exists k :: i <= k < 8 && RayHit(b, c, from, d, k, p) {
          var k :| i <= k < 8 && RayHit(b, c, from, d, k, p);
          if k > i {
            assert i + 1 <= k < 8 && RayHit(b, c, from, d, k, p);
          }
        }
      } else if exists k :: i <= k < 8 && RayHit(b, c, from, d, k, p) {
        var k :| i <= k < 8 && RayHit(b, c, from, d, k, p);
      }
    }
  }

  lemma {:induction false} RaysMembership(b: Grid, c: Color, from: Pos, dirs: seq<(int, int)>, p: Pos)
    requires IsGrid(b)
    ensures p in Rays(b, c, from, dirs) <==> exists k :: 0 <= k < |dirs| && p in Ray(b, c, from, dirs[k], 1)
  {
    if dirs != [] {
      var init := dirs[..|dirs| - 1];
      RaysMembership(b, c, from, init, p);
      if exists k :: 0 <= k < |dirs| && p in Ray(b, c, from, dirs[k], 1) {
        var k :| 0 <= k < |dirs| && p in Ray(b, c, from, dirs[k], 1);
        if k < |dirs| - 1 {
          assert dirs[k] == init[k];
        }
      }
      if p in Rays(b, c, from, init) {
        var k :| 0 <= k < |init| && p in Ray(b, c, from, init[k], 1);
        assert dirs[k] == init[k];
      }
    }
  }

  /** The pawn rules: a push only onto an empty square, a double push only from the start row
      over two empty squares, a diagonal only onto an opponent or the en passant target. */
  lemma PawnMovesMembership(b: Grid, c: Color, ep: Option<Pos>, from: Pos, p: Pos)
    requires IsGrid(b) && InBounds(from)
    ensures p in PawnMoves(b, c, ep, from) <==>
      || (p == Pos(from.row + Forward(c), from.col) && InBounds(p) && At(b, p) == Empty)
      || (p == Pos(from.row + 2 * Forward(c), from.col) && from.row == PawnStartRow(c) && InBounds(p)
          && At(b, Pos(from.row + Forward(c), from.col)) == Empty && At(b, p) == Empty)
      || (p.row == from.row + Forward(c) && (p.col == from.col - 1 || p.col == from.col + 1) && InBounds(p)
          && (IsOpponent(At(b, p), c) || ep == Some(p)))
  {
  }

  /** Every destination is on the board and never holds a piece of the mover's colour,
      provided the en passant target is an empty square and a king with a queen-side right
      stands at least two columns from the edge. */
  lemma DestinationsSound(s: Position, from: Pos, p: Pos)
    requires WellFormed(s) && InBounds(from) && GenOk(s, from) && At(s.board, from).Piece?
    requires EnPassantEmpty(s.board, s.ep)
    requires At(s.board, from).kind == King && QueenSide(s.rights, s.side) ==> from.col >= 2
    requires p in PieceMoves(s, from)
    ensures InBounds(p) && !Owned(At(s.board, p), At(s.board, from).color)
  {
    var b := s.board;
    var c := At(b, from).color;
    match At(b, from).kind
    case Pawn =>
      PawnMovesMembership(b, c, s.ep, from, p);
    case Knight =>
      StepTargetsMembership(b, c, from, KnightJumps, p);
    case King =>
      if p in StepTargets(b, c, from, KingSteps) {
        StepTargetsMembership(b, c, from, KingSteps, p);
      }
    case _ =>
      var dirs := SliderDirs(At(b, from).kind);
      RaysMembership(b, c, from, dirs, p);
      var k :| 0 <= k < |dirs| && p in Ray(b, c, from, dirs[k], 1);
      RayMembership(b, c, from, dirs[k], 1, p);
      var n :| 1 <= n < 8 && RayHit(b, c, from, dirs[k], n, p);
  }

  lemma MovesOfMembership(s: Position, from: Pos, m: (Pos, Pos))
    requires WellFormed(s) && AllGenOk(s) && InBounds(from)
    ensures m in MovesOf(s, from) <==> m.0 == from && Owned(At(s.board, from), s.side) && m.1 in PieceMoves(s, from)
  {
    if m in MovesOf(s, from) {
      var i :| 0 <= i < |MovesOf(s, from)| && MovesOf(s, from)[i] == m;
      assert m.1 == PieceMoves(s, from)[i];
    }
    if m.0 == from && Owned(At(s.board, from), s.side) && m.1 in PieceMoves(s, from) {
      var i :| 0 <= i < |PieceMoves(s, from)| && PieceMoves(s, from)[i] == m.1;
      assert MovesOf(s, from)[i] == m;
    }
  }

  lemma {:induction false} RowMovesMembership(s: Position, r: int, c: int, m: (Pos, Pos))
    requires WellFormed(s) && AllGenOk(s) && 0 <= r < 8 && 0 <= c <= 8
    ensures m in RowMoves(s, r, c) <==>
      m.0.row == r && 0 <= m.0.col < c && Owned(At(s.board, m.0), s.side) && m.1 in PieceMoves(s, m.0)
  {
    if c > 0 {
      RowMovesMembership(s, r, c - 1, m);
      MovesOfMembership(s, Pos(r, c - 1), m);
    }
  }

  lemma {:induction false} RowsUpToMembership(s: Position, r: int, m: (Pos, Pos))
    requires WellFormed(s) && AllGenOk(s) && 0 <= r <= 8
    ensures m in RowsUpTo(s, r) <==>
      InBounds(m.0) && m.0.row < r && Owned(At(s.board, m.0), s.side) && m.1 in PieceMoves(s, m.0)
  {
    if r > 0 {
      RowsUpToMembership(s, r - 1, m);
      RowMovesMembership(s, r - 1, 8, m);
    }
  }

  /** `get_all_possible_moves` lists exactly the pairs (origin, d) with origin holding a piece
      of the side to move and d among that piece's destinations. */
  lemma AllMovesMembership(s: Position, m: (Pos, Pos))
    requires WellFormed(s) && AllGenOk(s)
    ensures m in AllMoves(s) <==>
      InBounds(m.0) && Owned(At(s.board, m.0), s.side) && m.1 in PieceMoves(s, m.0)
  {
    RowsUpToMembership(s, 8, m);
  }

  /** Row-major scan position of an origin square. */
  function ScanIndex(p: Pos): int {
    8 * p.row + p.col
  }

  lemma {:induction false} RowMovesOrdered(s: Position, r: int, c: int)
    requires WellFormed(s) && AllGenOk(s) && 0 <= r < 8 && 0 <= c <= 8
    ensures forall i :: 0 <= i < |RowMoves(s, r, c)| ==>
      RowMoves(s, r, c)[i].0.row == r && 0 <= RowMoves(s, r, c)[i].0.col < c
    ensures forall i, j :: 0 <= i < j < |RowMoves(s, r, c)| ==>
      RowMoves(s, r, c)[i].0.col <= RowMoves(s, r, c)[j].0.col
  {
    if c > 0 {
      RowMovesOrdered(s, r, c - 1);
      var last := MovesOf(s, Pos(r, c - 1));
      assert forall i :: 0 <= i < |last| ==> last[i].0 == Pos(r, c - 1);
    }
  }

  lemma {:induction false} RowsUpToOrdered(s: Position, r: int)
    requires WellFormed(s) && AllGenOk(s) && 0 <= r <= 8
    ensures forall i :: 0 <= i < |RowsUpTo(s, r)| ==>
      InBounds(RowsUpTo(s, r)[i].0) && RowsUpTo(s, r)[i].0.row < r
    ensures forall i, j :: 0 <= i < j < |RowsUpTo(s, r)| ==>
      ScanIndex(RowsUpTo(s, r)[i].0) <= ScanIndex(RowsUpTo(s, r)[j].0)
  {
    if r > 0 {
      RowsUpToOrdered(s, r - 1);
      RowMovesOrdered(s, r - 1, 8);
    }
  }

  /** The moves come grouped by origin in row-major board order. */
  lemma AllMovesRowMajor(s: Position, i: int, j: int)
    requires WellFormed(s) && AllGenOk(s)
    requires 0 <= i < j < |AllMoves(s)|
    ensures ScanIndex(AllMoves(s)[i].0) <= ScanIndex(AllMoves(s)[j].0)
  {
    RowsUpToOrdered(s, 8);
  }
}
