/** The fog-of-war grid of `GameState.calculate_vision` and `get_piece_vision`, as functions of
    the board, and what it may reveal. */
module Vision {
  import opened Board
  import opened MoveGen

  // Vision offsets for knights and kings, in the order the source tries them. Rooks, bishops
  // and queens look along the same directions as they move.
  const KnightEyes: seq<(int, int)> := [(-2, 1), (-2, -1), (-1, 2), (-1, -2), (1, 2), (1, -2), (2, 1), (2, -1)]
  const KingEyes: seq<(int, int)> := [(-1, -1), (-1, 0), (-1, 1), (0, -1), (0, 1), (1, -1), (1, 0), (1, 1)]

  function EyeDirs(k: Kind): seq<(int, int)> {
    match k
    case Knight => KnightEyes
    case King => KingEyes
    case Rook => RookDirs
    case Bishop => BishopDirs
    case Queen => QueenDirs
    case Pawn => []
  }

  /** How many steps a piece looks along each direction. */
  function Reach(k: Kind): int {
    if k == Knight || k == King then 1 else 8
  }

  /** The grid once the game is over: a copy of the board. */
  function BoardSeen(b: Grid): (r: VisionGrid)
    requires IsGrid(b)
    ensures IsGrid(r) && forall p :: InBounds(p) ==> At(r, p) == Shown(At(b, p))
  {
    seq(8, i requires 0 <= i < 8 => seq(8, j requires 0 <= j < 8 => Shown(b[i][j])))
  }

  /** The grid after its first two steps: '??' everywhere, then the viewer's own pieces. */
  function OwnPieces(b: Grid, viewer: Color): (r: VisionGrid)
    requires IsGrid(b)
    ensures IsGrid(r)
    ensures forall p :: InBounds(p) ==> At(r, p) == if Owned(At(b, p), viewer) then Shown(At(b, p)) else Unknown
  {
    seq(8, i requires 0 <= i < 8 =>
      seq(8, j requires 0 <= j < 8 => if Owned(b[i][j], viewer) then Shown(b[i][j]) else Unknown))
  }

  /** One line of sight from step `i` to step `dist`: '??' and 'XX' squares get the true
      content, and the line stops after the first occupied square. */
  function VisionRay(vis: VisionGrid, b: Grid, from: Pos, d: (int, int), i: int, dist: int): (r: VisionGrid)
    requires IsGrid(vis) && IsGrid(b)
    ensures IsGrid(r)
    decreases dist - i + 1
  {
    if i > dist then vis
    else
      var p := RayPos(from, d, i);
      if !InBounds(p) then vis
      else
        var v := if At(vis, p) == Unknown || At(vis, p) == Hidden then Put(vis, p, Shown(At(b, p))) else vis;
        if At(b, p) != Empty then v else VisionRay(v, b, from, d, i + 1, dist)
  }

  function VisionDirs(vis: VisionGrid, b: Grid, from: Pos, dirs: seq<(int, int)>, dist: int): (r: VisionGrid)
    requires IsGrid(vis) && IsGrid(b)
    ensures IsGrid(r)
  {
    if dirs == [] then vis
    else VisionRay(VisionDirs(vis, b, from, dirs[..|dirs| - 1], dist), b, from, dirs[|dirs| - 1], 1, dist)
  }

  /** A pawn's diagonal: an opponent is shown, the en passant target is shown empty. */
  function PawnDiagonalVision(vis: VisionGrid, b: Grid, ep: Option<Pos>, from: Pos, c: Color, dc: int): (r: VisionGrid)
    requires IsGrid(vis) && IsGrid(b)
    ensures IsGrid(r)
  {
    var p := Pos(from.row + Forward(c), from.col + dc);
    if !InBounds(p) then vis
    else if IsOpponent(At(b, p), c) then Put(vis, p, Shown(At(b, p)))
    else if ep == Some(p) then Put(vis, p, Shown(Empty))
    else vis
  }

  /** The squares ahead of a pawn: the next one becomes '--' or 'XX' if still '??'; from the
      start row, the one after becomes '--' if both are empty and it is still '??'. */
  function PawnPushVision(vis: VisionGrid, b: Grid, from: Pos, c: Color): (r: VisionGrid)
    requires IsGrid(vis) && IsGrid(b) && InBounds(from)
    ensures IsGrid(r)
  {
    var one := Pos(from.row + Forward(c), from.col);
    var two := Pos(from.row + 2 * Forward(c), from.col);
    var v1 :=
      if InBounds(one) && At(vis, one) == Unknown then
        Put(vis, one, if At(b, one) == Empty then Shown(Empty) else Hidden)
      else vis;
    if from.row == PawnStartRow(c) && InBounds(two) && At(b, one) == Empty && At(b, two) == Empty
       && At(v1, two) == Unknown
    then Put(v1, two, Shown(Empty))
    else v1
  }

  /** A pawn sees the squares ahead of it and its diagonals. */
  function PawnVision(vis: VisionGrid, b: Grid, ep: Option<Pos>, from: Pos, c: Color): (r: VisionGrid)
    requires IsGrid(vis) && IsGrid(b) && InBounds(from)
    ensures IsGrid(r)
  {
    PawnDiagonalVision(PawnDiagonalVision(PawnPushVision(vis, b, from, c), b, ep, from, c, -1), b, ep, from, c, 1)
  }

  /** `get_piece_vision` for the piece on `from`. */
  function PieceVision(vis: VisionGrid, b: Grid, ep: Option<Pos>, from: Pos): (r: VisionGrid)
    requires IsGrid(vis) && IsGrid(b) && InBounds(from)
    ensures IsGrid(r)
  {
    match At(b, from)
    case Empty => vis
    case Piece(c, Pawn) => PawnVision(vis, b, ep, from, c)
    case Piece(_, k) => VisionDirs(vis, b, from, EyeDirs(k), Reach(k))
  }

  /** One square of the scan: the contribution of the piece there when it is the viewer's. */
  function ScanStep(vis: VisionGrid, b: Grid, ep: Option<Pos>, viewer: Color, q: Pos): (r: VisionGrid)
    requires IsGrid(vis) && IsGrid(b) && InBounds(q)
    ensures IsGrid(r)
  {
    if Owned(At(b, q), viewer) then PieceVision(vis, b, ep, q) else vis
  }

  /** The scan of squares (r, 0) .. (r, c - 1). */
  function VisionRow(vis: VisionGrid, b: Grid, ep: Option<Pos>, viewer: Color, r: int, c: int): (g: VisionGrid)
    requires IsGrid(vis) && IsGrid(b) && 0 <= r < 8 && 0 <= c <= 8
    ensures IsGrid(g)
  {
    if c == 0 then vis else ScanStep(VisionRow(vis, b, ep, viewer, r, c - 1), b, ep, viewer, Pos(r, c - 1))
  }

  /** The scan of rows 0 .. r - 1, in row-major order. */
  function VisionRows(vis: VisionGrid, b: Grid, ep: Option<Pos>, viewer: Color, r: int): (g: VisionGrid)
    requires IsGrid(vis) && IsGrid(b) && 0 <= r <= 8
    ensures IsGrid(g)
  {
    if r == 0 then vis else VisionRow(VisionRows(vis, b, ep, viewer, r - 1), b, ep, viewer, r - 1, 8)
  }

  /** `calculate_vision` for `viewer`. */
  function ComputeVision(b: Grid, ep: Option<Pos>, gameOver: bool, viewer: Color): (r: VisionGrid)
    requires IsGrid(b)
    ensures IsGrid(r)
  {
    if gameOver then BoardSeen(b) else VisionRows(OwnPieces(b, viewer), b, ep, viewer, 8)
  }

  // ---------------------------------------------------------------------------------------
  // What the grid may reveal

  /** Every cell is '??', 'XX' over an occupied square, or the true content. */
  ghost predicate Honest(vis: VisionGrid, b: Grid)
    requires IsGrid(vis) && IsGrid(b)
  {
    forall p :: InBounds(p) ==>
      At(vis, p) == Unknown || (At(vis, p) == Hidden && At(b, p) != Empty) || At(vis, p) == Shown(At(b, p))
  }

  ghost predicate OwnShown(vis: VisionGrid, b: Grid, viewer: Color)
    requires IsGrid(vis) && IsGrid(b)
  {
    forall p :: InBounds(p) && Owned(At(b, p), viewer) ==> At(vis, p) == Shown(At(b, p))
  }

  /** `p` is step `i` of one of the directions, with every earlier step empty. */
  ghost predicate InSight(b: Grid, q: Pos, p: Pos, dirs: seq<(int, int)>, dist: int)
    requires IsGrid(b)
  {
    exists k, i :: 0 <= k < |dirs| && 1 <= i <= dist && p == RayPos(q, dirs[k], i) && Clear(b, q, dirs[k], i)
  }

  /** The piece on `q` can make out the identity of the piece on `p`: a pawn on its forward
      diagonals, any other piece along a line of sight that no piece blocks. */
  ghost predicate Sees(b: Grid, q: Pos, p: Pos)
    requires IsGrid(b) && InBounds(q)
  {
    match At(b, q)
    case Empty => false
    case Piece(c, Pawn) => p.row == q.row + Forward(c) && (p.col == q.col - 1 || p.col == q.col + 1)
    case Piece(_, k) => InSight(b, q, p, EyeDirs(k), Reach(k))
  }

  /** The piece on `q` looks at `p`: a pawn at the two squares ahead and its forward
      diagonals, any other piece along a line of sight that no piece blocks. */
  ghost predicate InReach(b: Grid, q: Pos, p: Pos)
    requires IsGrid(b) && InBounds(q)
  {
    match At(b, q)
    case Empty => false
    case Piece(c, Pawn) =>
      || (p.col == q.col && (p.row == q.row + Forward(c) || p.row == q.row + 2 * Forward(c)))
      || (p.row == q.row + Forward(c) && (p.col == q.col - 1 || p.col == q.col + 1))
    case Piece(_, k) => InSight(b, q, p, EyeDirs(k), Reach(k))
  }

  /** Every cell revealed in any way ('XX', '--' or a piece) other than the viewer's own pieces
      is looked at by one of the viewer's pieces. */
  ghost predicate Revealed(vis: VisionGrid, b: Grid, viewer: Color)
    requires IsGrid(vis) && IsGrid(b)
  {
    forall p :: InBounds(p) && At(vis, p) != Unknown && !Owned(At(b, p), viewer) ==>
      exists q :: InBounds(q) && Owned(At(b, q), viewer) && InReach(b, q, p)
  }

  /** Every opponent shown is seen by one of the viewer's pieces. */
  ghost predicate Traced(vis: VisionGrid, b: Grid, viewer: Color)
    requires IsGrid(vis) && IsGrid(b)
  {
    forall p :: InBounds(p) && At(vis, p).Shown? && IsOpponent(At(vis, p).sq, viewer) ==>
      exists q :: InBounds(q) && Owned(At(b, q), viewer) && Sees(b, q, p)
  }

  /** How the piece on `q` may change a cell. */
  ghost predicate Written(b: Grid, ep: Option<Pos>, q: Pos, p: Pos, before: Cell, after: Cell)
    requires IsGrid(b) && InBounds(q) && InBounds(p)
  {
    && InReach(b, q, p)
    && (|| (after == Hidden && before == Unknown && At(b, p) != Empty)
        || (after == Shown(Empty) && (At(b, p) == Empty || ep == Some(p)))
        || (after == Shown(At(b, p)) && Sees(b, q, p)))
  }

  ghost predicate StepOk(vis: VisionGrid, vis': VisionGrid, b: Grid, ep: Option<Pos>, q: Pos)
    requires IsGrid(vis) && IsGrid(vis') && IsGrid(b) && InBounds(q)
  {
    forall p :: InBounds(p) && At(vis', p) != At(vis, p) ==> Written(b, ep, q, p, At(vis, p), At(vis', p))
  }

  /** A line of sight overwrites only '??' and 'XX', with the true content, and only on
      squares reached with every earlier step empty. */
  lemma {:induction false} VisionRayChanges(vis: VisionGrid, b: Grid, from: Pos, d: (int, int), i: int, dist: int)
    requires IsGrid(vis) && IsGrid(b) && 1 <= i && Clear(b, from, d, i)
    ensures var r := VisionRay(vis, b, from, d, i, dist);
      forall p :: InBounds(p) && At(r, p) != At(vis, p) ==>
        && (At(vis, p) == Unknown || At(vis, p) == Hidden)
        && At(r, p) == Shown(At(b, p))
        && exists j :: i <= j <= dist && p == RayPos(from, d, j) && Clear(b, from, d, j)
    decreases dist - i + 1
  {
    if i <= dist {
      var p := RayPos(from, d, i);
      if InBounds(p) {
        var v := if At(vis, p) == Unknown || At(vis, p) == Hidden then Put(vis, p, Shown(At(b, p))) else vis;
        if At(b, p) == Empty {
          assert Clear(b, from, d, i + 1);
          VisionRayChanges(v, b, from, d, i + 1, dist);
        }
      }
    }
  }

  lemma {:induction false} VisionDirsChanges(vis: VisionGrid, b: Grid, from: Pos, dirs: seq<(int, int)>, dist: int)
    requires IsGrid(vis) && IsGrid(b)
    ensures var r := VisionDirs(vis, b, from, dirs, dist);
      forall p :: InBounds(p) && At(r, p) != At(vis, p) ==>
        && (At(vis, p) == Unknown || At(vis, p) == Hidden)
        && At(r, p) == Shown(At(b, p))
        && InSight(b, from, p, dirs, dist)
  {
    if dirs != [] {
      var init := dirs[..|dirs| - 1];
      var d := dirs[|dirs| - 1];
      var v1 := VisionDirs(vis, b, from, init, dist);
      VisionDirsChanges(vis, b, from, init, dist);
      VisionRayChanges(v1, b, from, d, 1, dist);
      var r := VisionRay(v1, b, from, d, 1, dist);
      forall p | InBounds(p) && At(r, p) != At(vis, p)
        ensures InSight(b, from, p, dirs, dist)
      {
        if At(r, p) != At(v1, p) {
          var j :| 1 <= j <= dist && p == RayPos(from, d, j) && Clear(b, from, d, j);
          assert dirs[|dirs| - 1] == d;
        } else {
          var k, j :| 0 <= k < |init| && 1 <= j <= dist && p == RayPos(from, init[k], j) && Clear(b, from, init[k], j);
          assert dirs[k] == init[k];
        }
      }
    }
  }

  lemma PawnDiagonalChanges(vis: VisionGrid, b: Grid, ep: Option<Pos>, from: Pos, c: Color, dc: int)
    requires IsGrid(vis) && IsGrid(b)
    ensures var r := PawnDiagonalVision(vis, b, ep, from, c, dc);
      forall p :: InBounds(p) && At(r, p) != At(vis, p) ==>
        && p == Pos(from.row + Forward(c), from.col + dc)
        && ((At(r, p) == Shown(At(b, p)) && IsOpponent(At(b, p), c)) || (At(r, p) == Shown(Empty) && ep == Some(p)))
  {
  }

  lemma PawnPushChanges(vis: VisionGrid, b: Grid, from: Pos, c: Color)
    requires IsGrid(vis) && IsGrid(b) && InBounds(from)
    ensures var r := PawnPushVision(vis, b, from, c);
      forall p :: InBounds(p) && At(r, p) != At(vis, p) ==>
        && p.col == from.col && (p.row == from.row + Forward(c) || p.row == from.row + 2 * Forward(c))
        && At(vis, p) == Unknown
        && ((At(r, p) == Shown(Empty) && At(b, p) == Empty) || (At(r, p) == Hidden && At(b, p) != Empty))
  {
  }

  /** A pawn writes '--' or 'XX' ahead of it only over '??', and on its diagonals shows only an
      opponent or an empty en passant target. */
  lemma PawnVisionChanges(vis: VisionGrid, b: Grid, ep: Option<Pos>, from: Pos, c: Color)
    requires IsGrid(vis) && IsGrid(b) && InBounds(from)
    ensures var r := PawnVision(vis, b, ep, from, c);
      forall p :: InBounds(p) && At(r, p) != At(vis, p) ==>
        || (p.col == from.col && (p.row == from.row + Forward(c) || p.row == from.row + 2 * Forward(c))
            && At(vis, p) == Unknown
            && ((At(r, p) == Shown(Empty) && At(b, p) == Empty) || (At(r, p) == Hidden && At(b, p) != Empty)))
        || (p.row == from.row + Forward(c) && (p.col == from.col - 1 || p.col == from.col + 1)
            && ((At(r, p) == Shown(At(b, p)) && IsOpponent(At(b, p), c)) || (At(r, p) == Shown(Empty) && ep == Some(p))))
  {
    var v2 := PawnPushVision(vis, b, from, c);
    var v3 := PawnDiagonalVision(v2, b, ep, from, c, -1);
    PawnPushChanges(vis, b, from, c);
    PawnDiagonalChanges(v2, b, ep, from, c, -1);
    PawnDiagonalChanges(v3, b, ep, from, c, 1);
  }

  /** Each piece's contribution changes cells only as `Written` allows. */
  lemma PieceVisionStep(vis: VisionGrid, b: Grid, ep: Option<Pos>, q: Pos)
    requires IsGrid(vis) && IsGrid(b) && InBounds(q) && At(b, q).Piece?
    ensures StepOk(vis, PieceVision(vis, b, ep, q), b, ep, q)
  {
    var r := PieceVision(vis, b, ep, q);
    match At(b, q)
    case Piece(c, Pawn) =>
      PawnVisionChanges(vis, b, ep, q, c);
    case Piece(c, k) =>
      VisionDirsChanges(vis, b, q, EyeDirs(k), Reach(k));
  }

  /** A step by one of the viewer's pieces keeps every shown opponent traced to a piece that
      sees it, and every other revealed cell to a piece that looks at it. */
  lemma StepKeepsTraced(v: VisionGrid, r: VisionGrid, b: Grid, ep: Option<Pos>, q: Pos, viewer: Color)
    requires IsGrid(v) && IsGrid(r) && IsGrid(b) && InBounds(q) && Owned(At(b, q), viewer)
    requires StepOk(v, r, b, ep, q) && Traced(v, b, viewer) && Revealed(v, b, viewer)
    ensures Traced(r, b, viewer) && Revealed(r, b, viewer)
  {
    forall p | InBounds(p) && At(r, p) != Unknown && !Owned(At(b, p), viewer)
      ensures exists q' :: InBounds(q') && Owned(At(b, q'), viewer) && InReach(b, q', p)
    {
      if At(r, p) != At(v, p) {
        assert Written(b, ep, q, p, At(v, p), At(r, p));
        assert InReach(b, q, p);
      }
    }
    forall p | InBounds(p) && At(r, p).Shown? && IsOpponent(At(r, p).sq, viewer)
      ensures exists q' :: InBounds(q') && Owned(At(b, q'), viewer) && Sees(b, q', p)
    {
      if At(r, p) != At(v, p) {
        assert Written(b, ep, q, p, At(v, p), At(r, p));
        assert Sees(b, q, p);
      }
    }
  }

  /** With an empty en passant target, a step keeps the grid honest and the viewer's pieces
      shown. */
  lemma StepKeepsHonest(v: VisionGrid, r: VisionGrid, b: Grid, ep: Option<Pos>, q: Pos, viewer: Color)
    requires IsGrid(v) && IsGrid(r) && IsGrid(b) && InBounds(q) && EnPassantEmpty(b, ep)
    requires StepOk(v, r, b, ep, q) && Honest(v, b) && OwnShown(v, b, viewer)
    ensures Honest(r, b) && OwnShown(r, b, viewer)
  {
    forall p | InBounds(p)
      ensures At(r, p) == Unknown || (At(r, p) == Hidden && At(b, p) != Empty) || At(r, p) == Shown(At(b, p))
      ensures Owned(At(b, p), viewer) ==> At(r, p) == Shown(At(b, p))
    {
      if At(r, p) != At(v, p) {
        assert Written(b, ep, q, p, At(v, p), At(r, p));
      }
    }
  }

  /** What the scan keeps: every shown opponent traced to a piece that sees it, every other
      revealed cell to a piece that looks at it and, given an empty en passant target, an honest
      grid showing all the viewer's pieces. */
  ghost predicate Sound(vis: VisionGrid, b: Grid, ep: Option<Pos>, viewer: Color)
    requires IsGrid(vis) && IsGrid(b)
  {
    Traced(vis, b, viewer) && Revealed(vis, b, viewer) && (EnPassantEmpty(b, ep) ==> Honest(vis, b) && OwnShown(vis, b, viewer))
  }

  lemma ScanStepSound(v: VisionGrid, b: Grid, ep: Option<Pos>, viewer: Color, q: Pos)
    requires IsGrid(v) && IsGrid(b) && InBounds(q) && Sound(v, b, ep, viewer)
    ensures Sound(ScanStep(v, b, ep, viewer, q), b, ep, viewer)
  {
    if Owned(At(b, q), viewer) {
      var r := PieceVision(v, b, ep, q);
      PieceVisionStep(v, b, ep, q);
      StepKeepsTraced(v, r, b, ep, q, viewer);
      if EnPassantEmpty(b, ep) {
        StepKeepsHonest(v, r, b, ep, q, viewer);
      }
    }
  }

  lemma {:induction false} VisionRowSound(v: VisionGrid, b: Grid, ep: Option<Pos>, viewer: Color, r: int, c: int)
    requires IsGrid(v) && IsGrid(b) && 0 <= r < 8 && 0 <= c <= 8 && Sound(v, b, ep, viewer)
    ensures Sound(VisionRow(v, b, ep, viewer, r, c), b, ep, viewer)
  {
    if c > 0 {
      VisionRowSound(v, b, ep, viewer, r, c - 1);
      ScanStepSound(VisionRow(v, b, ep, viewer, r, c - 1), b, ep, viewer, Pos(r, c - 1));
    }
  }

  lemma {:induction false} VisionRowsSound(v: VisionGrid, b: Grid, ep: Option<Pos>, viewer: Color, r: int)
    requires IsGrid(v) && IsGrid(b) && 0 <= r <= 8 && Sound(v, b, ep, viewer)
    ensures Sound(VisionRows(v, b, ep, viewer, r), b, ep, viewer)
  {
    if r > 0 {
      VisionRowsSound(v, b, ep, viewer, r - 1);
      VisionRowSound(VisionRows(v, b, ep, viewer, r - 1), b, ep, viewer, r - 1, 8);
    }
  }

  /** `calculate_vision`: once the game is over the grid is the board; before that it is
      honest (given an empty en passant target), shows all the viewer's pieces, reveals any
      other cell only where one of the viewer's pieces looks, and shows an opponent's identity
      only where one of the viewer's pieces sees it. */
  lemma VisionSound(b: Grid, ep: Option<Pos>, gameOver: bool, viewer: Color)
    requires IsGrid(b)
    ensures var r := ComputeVision(b, ep, gameOver, viewer);
      && (gameOver ==> forall p :: InBounds(p) ==> At(r, p) == Shown(At(b, p)))
      && (!gameOver ==> Traced(r, b, viewer) && Revealed(r, b, viewer))
      && (!gameOver && EnPassantEmpty(b, ep) ==> Honest(r, b) && OwnShown(r, b, viewer))
  {
    if !gameOver {
      VisionRowsSound(OwnPieces(b, viewer), b, ep, viewer, 8);
    }
  }
}
