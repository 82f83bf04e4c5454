/** The effects of `GameState.make_move` once a move has been accepted, and of
    `update_castle_rights`, as functions of the state before the move. */
module MoveApply {
  import opened Board
  import opened MoveGen

  /** `is_pawn_promotion`: a pawn reaching row 0 (white) or row 7 (black). */
  predicate Promotes(piece: Square, end: Pos) {
    piece.Piece? && piece.kind == Pawn && end.row == LastRow(piece.color)
  }

  /** A king moving two columns. */
  predicate IsCastle(piece: Square, start: Pos, end: Pos) {
    piece.Piece? && piece.kind == King && (end.col - start.col == 2 || start.col - end.col == 2)
  }

  /** A pawn landing on the en passant target. */
  predicate IsEnPassant(piece: Square, end: Pos, ep: Option<Pos>) {
    piece.Piece? && piece.kind == Pawn && ep == Some(end)
  }

  /** The square whose content is moved when castling: the column after the king's
      destination (king side) or two columns before it (queen side). */
  function RookFrom(start: Pos, end: Pos): Pos {
    if end.col - start.col == 2 then Pos(end.row, end.col + 1) else Pos(end.row, end.col - 2)
  }

  /** The square the king crosses, which receives that content. */
  function RookTo(start: Pos, end: Pos): Pos {
    if end.col - start.col == 2 then Pos(end.row, end.col - 1) else Pos(end.row, end.col + 1)
  }

  /** The square of the pawn taken en passant: the origin's row, the destination's column. */
  function Victim(start: Pos, end: Pos): Pos {
    Pos(start.row, end.col)
  }

  /** The move's writes stay on the board. */
  predicate ApplyOk(b: Grid, start: Pos, end: Pos) {
    && IsGrid(b) && InBounds(start) && InBounds(end) && start != end && At(b, start).Piece?
    && (IsCastle(At(b, start), start, end) ==> InBounds(RookFrom(start, end)))
  }

  /** What lands on the destination: the mover, or its colour with the promotion kind. */
  function Placed(piece: Square, end: Pos, promotion: Kind): Square
    requires piece.Piece?
  {
    if Promotes(piece, end) then Piece(piece.color, promotion) else piece
  }

  /** The board after the move, written in the order of the source: clear the origin, clear the
      pawn taken en passant, relocate the castling corner, place the piece. */
  function ApplyBoard(b: Grid, start: Pos, end: Pos, promotion: Kind, ep: Option<Pos>): (r: Grid)
    requires ApplyOk(b, start, end)
    ensures IsGrid(r)
    ensures At(r, start) == Empty
    ensures At(r, end) == Placed(At(b, start), end, promotion)
    ensures IsEnPassant(At(b, start), end, ep) && Victim(start, end) != end ==> At(r, Victim(start, end)) == Empty
    ensures IsCastle(At(b, start), start, end) ==>
      At(r, RookTo(start, end)) == At(b, RookFrom(start, end)) && At(r, RookFrom(start, end)) == Empty
    ensures forall q ::
              (InBounds(q) && q != start && q != end
               && !(IsEnPassant(At(b, start), end, ep) && q == Victim(start, end))
               && !(IsCastle(At(b, start), start, end) && (q == RookFrom(start, end) || q == RookTo(start, end))))
              ==> At(r, q) == At(b, q)
  {
    var piece := At(b, start);
    var b1 := Put(b, start, Empty);
    var b2 := if IsEnPassant(piece, end, ep) then Put(b1, Victim(start, end), Empty) else b1;
    var b3 :=
      if IsCastle(piece, start, end) then
        Put(Put(b2, RookTo(start, end), At(b2, RookFrom(start, end))), RookFrom(start, end), Empty)
      else b2;
    Put(b3, end, Placed(piece, end, promotion))
  }

  /** The en passant target after the move: the midpoint of a two-row pawn move, else none.
      Rows are never negative here, so Dafny's `/` agrees with Python's `//`. */
  function NewEnPassant(piece: Square, start: Pos, end: Pos): Option<Pos> {
    if piece.Piece? && piece.kind == Pawn && (start.row - end.row == 2 || end.row - start.row == 2)
    then Some(Pos((start.row + end.row) / 2, start.col))
    else None
  }

  /** `update_castle_rights`: a king move clears both of its colour's rights; a rook of either
      colour leaving a corner clears that corner's right. Rights are only ever revoked. */
  function UpdatedRights(rights: Rights, start: Pos, piece: Square): (r: Rights)
    ensures r.wks ==> rights.wks
    ensures r.wqs ==> rights.wqs
    ensures r.bks ==> rights.bks
    ensures r.bqs ==> rights.bqs
  {
    if piece.Piece? && piece.kind == King then
      if piece.color == White then rights.(wks := false, wqs := false)
      else rights.(bks := false, bqs := false)
    else if piece.Piece? && piece.kind == Rook then
      if start.row == 7 then
        if start.col == 0 then rights.(wqs := false)
        else if start.col == 7 then rights.(wks := false)
        else rights
      else if start.row == 0 then
        if start.col == 0 then rights.(bqs := false)
        else if start.col == 7 then rights.(bks := false)
        else rights
      else rights
    else rights
  }

  /** Which corner each right belongs to. */
  lemma RightsRevokedPrecisely(rights: Rights, start: Pos, piece: Square)
    requires piece.Piece?
    ensures var r := UpdatedRights(rights, start, piece);
      && (piece.kind == King ==> !KingSide(r, piece.color) && !QueenSide(r, piece.color)
                                 && KingSide(r, Opposite(piece.color)) == KingSide(rights, Opposite(piece.color))
                                 && QueenSide(r, Opposite(piece.color)) == QueenSide(rights, Opposite(piece.color)))
      && (piece.kind == Rook ==>
            && r.wks == (rights.wks && start != Pos(7, 7))
            && r.wqs == (rights.wqs && start != Pos(7, 0))
            && r.bks == (rights.bks && start != Pos(0, 7))
            && r.bqs == (rights.bqs && start != Pos(0, 0)))
      && (piece.kind != King && piece.kind != Rook ==> r == rights)
  {
  }

  function Opposite(c: Color): Color {
    if c == White then Black else White
  }

  /** Every king of a colour that still holds a castling right stands on its home square. */
  ghost predicate KingsHome(b: Grid, rights: Rights)
    requires IsGrid(b)
  {
    forall p :: InBounds(p) && At(b, p).Piece? && At(b, p).kind == King
      && (KingSide(rights, At(b, p).color) || QueenSide(rights, At(b, p).color))
      ==> p == Pos(HomeRow(At(b, p).color), 4)
  }

  /** With kings at home, generating moves for a piece of the side to move never raises, and a
      king with a queen-side right is far enough from the edge. */
  lemma KingsHomeMakesGenOk(s: Position, from: Pos)
    requires WellFormed(s) && KingsHome(s.board, s.rights) && InBounds(from) && Owned(At(s.board, from), s.side)
    ensures GenOk(s, from)
    ensures At(s.board, from).kind == King && QueenSide(s.rights, s.side) ==> from.col >= 2
  {
  }

  /** A double push leaves an empty target; every other move clears it. */
  lemma EnPassantTargetEmpty(b: Grid, start: Pos, end: Pos, promotion: Kind, ep: Option<Pos>)
    requires ApplyOk(b, start, end)
    requires NewEnPassant(At(b, start), start, end).Some? ==>
      At(b, Pos((start.row + end.row) / 2, start.col)) == Empty && start.col == end.col
    ensures EnPassantEmpty(ApplyBoard(b, start, end, promotion, ep), NewEnPassant(At(b, start), start, end))
  {
  }

  /** A move by a piece of colour `mover` (which castles only while holding a right, and never
      promotes to a king) keeps every right-holding king on its home square. */
  lemma ApplyKeepsKingsHome(b: Grid, rights: Rights, start: Pos, end: Pos, promotion: Kind, ep: Option<Pos>)
    requires ApplyOk(b, start, end) && KingsHome(b, rights) && promotion != King
    requires IsCastle(At(b, start), start, end) ==>
      KingSide(rights, At(b, start).color) || QueenSide(rights, At(b, start).color)
    ensures KingsHome(ApplyBoard(b, start, end, promotion, ep), UpdatedRights(rights, start, At(b, start)))
  {
    var piece := At(b, start);
    var r := ApplyBoard(b, start, end, promotion, ep);
    var rights' := UpdatedRights(rights, start, piece);
    forall p | InBounds(p) && At(r, p).Piece? && At(r, p).kind == King
      && (KingSide(rights', At(r, p).color) || QueenSide(rights', At(r, p).color))
      ensures p == Pos(HomeRow(At(r, p).color), 4)
    {
      // The destination holds no right-holding king (a king mover loses its rights, a promotion
      // is no king) and the relocated castling piece came from a corner; elsewhere nothing moved.
      if p != end && !(IsCastle(piece, start, end) && p == RookTo(start, end)) {
        assert At(r, p) == At(b, p);
      }
    }
  }
}
