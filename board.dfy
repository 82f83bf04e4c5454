/** Squares, pieces, positions and 8x8 grids shared by the engine, the AI and the views. */
module Board {

  datatype Option<T> = None | Some(value: T)

  /** The colour prefix of a piece code: 'w' or 'b'. */
  datatype Color = White | Black

  /** The kind suffix of a piece code: 'p', 'N', 'B', 'R', 'Q', 'K'. */
  datatype Kind = Pawn | Knight | Bishop | Rook | Queen | King

  /** A board square: '--' or a two-character piece code. */
  datatype Square = Empty | Piece(color: Color, kind: Kind)

  /** A (row, column) tuple; row 0 is black's back rank. */
  datatype Pos = Pos(row: int, col: int)

  /** One fog-of-war cell: '??', 'XX', or the true content of the square. */
  datatype Cell = Unknown | Hidden | Shown(sq: Square)

  /** The four castling flags 'wks', 'wqs', 'bks', 'bqs'. */
  datatype Rights = Rights(wks: bool, wqs: bool, bks: bool, bqs: bool)

  type Grid = seq<seq<Square>>
  type VisionGrid = seq<seq<Cell>>

  function ColorToMove(whiteToMove: bool): Color {
    if whiteToMove then White else Black
  }

  predicate Owned(sq: Square, c: Color) {
    sq.Piece? && sq.color == c
  }

  /** A square holding a piece of the other colour. */
  predicate IsOpponent(sq: Square, c: Color) {
    sq.Piece? && sq.color != c
  }

  /** Row step of a pawn: up the board for white, down for black. */
  function Forward(c: Color): int {
    if c == White then -1 else 1
  }

  function PawnStartRow(c: Color): int {
    if c == White then 6 else 1
  }

  function LastRow(c: Color): int {
    if c == White then 0 else 7
  }

  function HomeRow(c: Color): int {
    if c == White then 7 else 0
  }

  function KingSide(rights: Rights, c: Color): bool {
    if c == White then rights.wks else rights.bks
  }

  function QueenSide(rights: Rights, c: Color): bool {
    if c == White then rights.wqs else rights.bqs
  }

  /** is_in_bounds */
  predicate InBounds(p: Pos) {
    0 <= p.row < 8 && 0 <= p.col < 8
  }

  predicate IsGrid<T>(g: seq<seq<T>>) {
    |g| == 8 && forall i :: 0 <= i < 8 ==> |g[i]| == 8
  }

  function At<T>(g: seq<seq<T>>, p: Pos): T
    requires IsGrid(g) && InBounds(p)
  {
    g[p.row][p.col]
  }

  /** The grid with one square replaced. */
  function Put<T>(g: seq<seq<T>>, p: Pos, x: T): (h: seq<seq<T>>)
    requires IsGrid(g) && InBounds(p)
    ensures IsGrid(h)
    ensures forall q :: InBounds(q) ==> At(h, q) == if q == p then x else At(g, q)
  {
    g[p.row := g[p.row][p.col := x]]
  }

  /** The square reached from `from` after `i` steps of direction `d`. */
  function RayPos(from: Pos, d: (int, int), i: int): Pos {
    Pos(from.row + d.0 * i, from.col + d.1 * i)
  }

  /** Two grids that agree on every square are equal. */
  lemma GridExt<T>(g: seq<seq<T>>, h: seq<seq<T>>)
    requires IsGrid(g) && IsGrid(h)
    requires forall p :: InBounds(p) ==> At(g, p) == At(h, p)
    ensures g == h
  {
    forall i | 0 <= i < 8
      ensures g[i] == h[i]
    {
      forall j | 0 <= j < 8
        ensures g[i][j] == h[i][j]
      {
        assert At(g, Pos(i, j)) == At(h, Pos(i, j));
      }
    }
  }

  /** The starting position of `GameState.__init__`. */
  function InitialBoard(): (b: Grid)
    ensures IsGrid(b)
  {
    var back := [Rook, Knight, Bishop, Queen, King, Bishop, Knight, Rook];
    [ seq(8, j requires 0 <= j < 8 => Piece(Black, back[j])),
      seq(8, j => Piece(Black, Pawn)),
      seq(8, j => Empty),
      seq(8, j => Empty),
      seq(8, j => Empty),
      seq(8, j => Empty),
      seq(8, j => Piece(White, Pawn)),
      seq(8, j requires 0 <= j < 8 => Piece(White, back[j])) ]
  }
}
