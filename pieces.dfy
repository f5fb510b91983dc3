/**
 * The six piece kinds of chess.py (King, Queen, Rook, Bishop, Knight, Pawn)
 * and the board cell that holds either one of them or the empty marker.
 * A piece carries only its colour: the Python classes store nothing else.
 */
module Pieces {

  datatype Kind = King | Queen | Rook | Bishop | Knight | Pawn

  datatype Colour = White | Black

  /** What a board square holds: the EMPTYCELL marker or a piece. */
  datatype Cell = Empty | Piece(kind: Kind, colour: Colour)

  /**
   * A piece's `__eq__`: `other` must be an instance of the piece's own class
   * (the isinstance test) and carry the same colour. The empty marker is a
   * string, never an instance of a piece class.
   */
  function PieceEq(piece: Cell, other: Cell): (r: bool)
    requires piece.Piece?
    ensures r <==> other == piece
    ensures other.Empty? ==> !r
    ensures other.Piece? && other.kind != piece.kind ==> !r
  {
    match other
    case Empty => false
    case Piece(k, c) => SameClass(piece.kind, k) && c == piece.colour
  }

  /** `isinstance(self, other.__class__)` for two piece classes, none of which derives from another. */
  predicate SameClass(mine: Kind, theirs: Kind)
    ensures SameClass(mine, theirs) <==> mine == theirs
  {
    match (mine, theirs)
    case (King, King) => true
    case (Queen, Queen) => true
    case (Rook, Rook) => true
    case (Bishop, Bishop) => true
    case (Knight, Knight) => true
    case (Pawn, Pawn) => true
    case _ => false
  }

  /**
   * Two distinct piece objects of the same kind and colour are equal, so
   * piece equality is reflexive, symmetric and transitive.
   */
  lemma PieceEqIsEquivalence(a: Cell, b: Cell, c: Cell)
    requires a.Piece? && b.Piece? && c.Piece?
    ensures PieceEq(a, a)
    ensures PieceEq(a, b) == PieceEq(b, a)
    ensures PieceEq(a, b) && PieceEq(b, c) ==> PieceEq(a, c)
  {
  }

  /**
   * `str()` of a cell: the EMPTYCELL string ".", or the piece's Unicode
   * chess symbol (outlined for White, filled for Black).
   */
  function Glyph(c: Cell): (g: char)
    ensures g == '.' <==> c.Empty?
    ensures g != ' ' && g != '\n'
    ensures c.Piece? ==> '\U{2654}' <= g <= '\U{265F}'
    ensures c.Piece? ==> (c.colour == White <==> g <= '\U{2659}')
  {
    match c
    case Empty => '.'
    case Piece(King, White) => '\U{2654}'
    case Piece(King, Black) => '\U{265A}'
    case Piece(Queen, White) => '\U{2655}'
    case Piece(Queen, Black) => '\U{265B}'
    case Piece(Rook, White) => '\U{2656}'
    case Piece(Rook, Black) => '\U{265C}'
    case Piece(Bishop, White) => '\U{2657}'
    case Piece(Bishop, Black) => '\U{265D}'
    case Piece(Knight, White) => '\U{2658}'
    case Piece(Knight, Black) => '\U{265E}'
    case Piece(Pawn, White) => '\U{2659}'
    case Piece(Pawn, Black) => '\U{265F}'
  }

  /** No two different cells print alike, so a rendering determines the cells behind it. */
  lemma GlyphInjective(a: Cell, b: Cell)
    ensures Glyph(a) == Glyph(b) ==> a == b
  {
  }

  /** A cell as `__str__` prints it: its glyph left-aligned in a field of width two. */
  function CellText(c: Cell): string
  {
    [Glyph(c), ' ']
  }
}
