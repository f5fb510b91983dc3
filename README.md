# Chess board model

A Dafny model of the board in `chess.py`. The board is an 8 x 8 grid of cells,
addressed by a file letter `"a"`..`"h"` and a rank `1`..`8`.

- Reads and writes go through a bounds check that raises `ValueError` for any
  square off the board.
- `init_pieces` fills the grid with the standard 32-piece starting position.
- `__str__` prints the grid rank by rank.
- A piece is one of six kinds and carries only a colour. Two pieces are equal
  when they have the same kind and the same colour.

Layout:

- `wrappers.dfy`: `Option`, `Result` and `Outcome`. These stand in for the
  `KeyError` and `ValueError` the Python code raises.
- `pieces.dfy` (module `Pieces`): the piece kinds, colours and board cells;
  piece equality (`__eq__`); the printed glyph of a cell (`__str__`).
- `text.dfy` (module `Text`): `''.join` and `'\n'.join` on strings, and the
  character layout they produce.
- `board.dfy` (module `Chess`):
  - the files and ranks;
  - `file_to_idx`;
  - the starting position as a specification function;
  - the `Board` class, whose grid is an `array2<Cell>` updated in place.
    Reads are functions. Writes and `init_pieces` are methods with `modifies`.

Reading an index: `grid[i, j]` is `self.board[i][j]`. It holds file
`Files[i]` and rank `j + 1`.

## Model

| member | source | states |
|---|---|---|
| Chess.FileToIdx | chess.py:23-27 | `file_to_idx` finds a column exactly for the eight file letters, and that column's letter is the file looked up; any other string is a failed lookup |
| Chess.FilesIndexed | chess.py:22-23 | the zipped dictionary maps the files a..h to 0..7 in order |
| Chess.ValidSquare | chess.py:31-32 | the guard both accessors share: the file is one of a..h and the rank one of 1..8. A predicate with no contract; its meaning is stated through `Get` and `Set` |
| Chess.SquareIndex | chess.py:33 | a valid square lands on an in-bounds cell `[file_to_idx(file)][rank - 1]` whose file and rank are the square's own, with the row equal to `rank - 1` |
| Chess.SquareIndexInjective | chess.py:33 | two valid squares share a cell exactly when they are the same square |
| Chess.Board.constructor | chess.py:20-24 | a new board holds the empty marker in every cell, so every valid square reads as empty |
| Chess.Board.Get | chess.py:29-33 | the read fails with InvalidPosition exactly when the file is not a..h or the rank is not 1..8; otherwise it returns the cell at the square's index |
| Chess.Board.Set | chess.py:35-39 | the write fails exactly on an invalid square and then changes nothing; otherwise reading that square gives back the piece written, whatever it held before, and every other square reads as before |
| Chess.Product | chess.py:49 | `itertools.product(files, ranks)` has one pair per file and rank, and holds a pair exactly when its file and rank are listed |
| Chess.ProductOrder | chess.py:49 | the product runs through the ranks for each file in turn: file `a` with rank `b` is at position `a * len(ranks) + b` |
| Chess.BackRankKinds | chess.py:43-54 | the back-rank order puts rooks on files a and h, knights on b and g, bishops on c and f, the queen on d and the king on e |
| Chess.StartingCell | chess.py:41-54 | the reference starting position, against which `init_pieces` is stated. A cell is empty exactly on ranks 3 to 6. A piece is White exactly on ranks 1-2, and a pawn exactly on ranks 2 and 7. On the back ranks the king is on file e and the queen on file d |
| Chess.Targets | chess.py:43-50 | the cells a loop's squares are written to, in loop order: entry `n` is in bounds, its column's file letter is square `n`'s file, and its row is one less than square `n`'s rank |
| Chess.CornerTargets | chess.py:43-48 | a back-rank loop over two files and ranks 1 and 8 writes exactly those two columns of the two outer rows |
| Chess.BackRankTargets | chess.py:43-48 | the rook, knight and bishop loops write exactly columns a/h, b/g and c/f of ranks 1 and 8 |
| Chess.ProductTargets | chess.py:49-50 | a loop over all files and some valid ranks writes exactly the rows of those ranks |
| Chess.ProductValid | chess.py:49-50 | every square the pawn loop's product yields passes the bounds check, so no write in that loop fails |
| Chess.ProductWritesOnlyRanks | chess.py:49-50 | a loop over a product writes only rows of the listed ranks |
| Chess.ProductWritesAllFiles | chess.py:49-50 | a loop over all files times some ranks writes every column of each listed rank |
| Chess.PawnTargets | chess.py:49-50 | the pawn loop writes exactly ranks 2 and 7, every file |
| Chess.SquareAt | chess.py:22-23 | the square of file index `i` and rank `r` is valid and sits at column `i`, row `r - 1` |
| Chess.RoyalSquares | chess.py:51-54 | d1, d8, e1 and e8 are valid and sit at columns d and e of the outer rows |
| Chess.Board.PlaceEach | chess.py:43-50 | one loop of `init_pieces` puts the loop's piece on every listed square (White on the white rank, Black otherwise) and leaves every other cell as it was |
| Chess.Board.PlacePawns | chess.py:49-50 | the pawn loop puts White pawns on rank 2 and Black pawns on rank 7 and changes nothing else |
| Chess.Board.InitPieces | chess.py:41-54 | after `init_pieces`, ranks 1, 2, 7 and 8 hold the starting position: R N B Q K B N R with pawns in front, White on ranks 1-2 and Black on 7-8. Ranks 3 to 6 keep what they held |
| Chess.NewGame | chess.py:20-54 | a new board after `init_pieces` reads, square by square, as the starting position, with ranks 3 to 6 empty |
| Pieces.PieceEq | chess.py:78-151 | each piece class's `__eq__` (King, Queen, Rook, Bishop, Knight, Pawn): a piece equals another cell exactly when that cell is a piece of the same kind and colour; it never equals the empty marker or a piece of another kind |
| Pieces.SameClass | chess.py:79-149 | `isinstance(self, other.__class__)` for two of the six piece classes holds exactly when they are the same class; none derives from another |
| Pieces.PieceEqIsEquivalence | chess.py:78-151 | piece equality is reflexive, symmetric and transitive |
| Pieces.Glyph | chess.py:76-146 | a cell prints as "." exactly when it is empty; a piece prints as a chess symbol in U+2654..U+265F, never a space or newline. White pieces print as U+2654..U+2659 (outlined) and Black pieces as U+265A..U+265F (filled) |
| Pieces.GlyphInjective | chess.py:76-146 | different cells print as different characters |
| Pieces.CellText | chess.py:57 | `'{:2}'.format(str(cell))`: the cell's glyph and one space of padding. No contract; its layout is given by `RankLayout` |
| Text.Concat | chess.py:57 | `''.join(parts)`. No contract; its layout is given by `ConcatPairs` |
| Text.Join | chess.py:57-58 | `sep.join(lines)`, with the separator between lines only. No contract; its layout is given by `JoinLines16` |
| Text.ConcatPairs | chess.py:57 | `''.join` of two-character parts puts character `m` of part `k` at position `2k + m` |
| Text.JoinLines16 | chess.py:57-58 | `'\n'.join` of sixteen-character lines puts character `m` of line `k` at `17k + m` and a newline after each line but the last |
| Chess.Board.RankText | chess.py:57 | the inner comprehension of `__str__`: the padded cells of files a to h on one rank, concatenated. No contract; its layout is given by `RankLayout` |
| Chess.Board.Render | chess.py:56-58 | `__str__`: the rank lines for ranks 1 to 8 joined by newlines. No contract; its layout is given by `RenderLayout` |
| Chess.Board.RankLayout | chess.py:57-58 | the text of a rank is sixteen characters: file `i`'s glyph at `2i`, then a space |
| Chess.Board.RenderLayout | chess.py:56-58 | `__str__` is eight lines of sixteen characters (135 in all). Line `j` is rank `j + 1`, rank 1 first, and shows files a to h left to right: character `2i` of line `j` is the glyph of what `get_piece_at_position(files[i], ranks[j])` returns |
| Chess.Board.RenderDeterminesBoard | chess.py:56-58 | two boards that print alike hold the same cell on every square |

## Left out

- Move generation (rook and bishop rays, knight and king steps, pawn advances) is not modelled, because `chess.py` contains none.
- The text of the `ValueError` messages is left out. Only the failure, `InvalidPosition`, is modelled.
- Python's dynamic typing is left out. A file is a string and a rank an integer, so other argument types cannot be expressed.
- `Board.files`, `Board.ranks` and `Board.file_idx` are built per instance and never changed. They are module constants `Files` and `Ranks` here.
- The `file_idx` dictionary is not stored. `FileToIdx` computes each letter's distance from 'a' instead, and `FilesIndexed` proves this is the same mapping.
- The string constants `ROOK`, `KNIGHT`, `BISHOP`, `PAWN`, `KING`, `QUEEN`, `WHITE` and `BLACK` are datatype constructors here. As strings, `BLACK` and `BISHOP` are both "B"; as constructors they are distinct.
- A piece has no position. The Python piece objects store only a colour, so the board's grid alone says where a piece stands.
- Instances of the base class `Piece` are not modelled, since the board never holds one. Python's `isinstance` test would make a King equal to a bare `Piece` of the same colour.
- `Pieces.PieceEq`: Python's rule for a reflected `__eq__` when the empty-marker string is on the left is not modelled. `PieceEq` models the piece's own method, called on a piece.
- `'{:2}'.format` is modelled as the glyph followed by one space. Every glyph is a single code point, so this is what the padding gives; other widths are not modelled.
- `init_pieces` writes through `set_piece_at_position`, whose check never fails on the listed squares. `Chess.Board.InitPieces` therefore discards each write's outcome.
- `Chess.Board.InitPieces`: the contract does not state that the loops write in the order Python runs them. Each cell is written at most once, so the order does not change the final board.
- `Chess.Board.PlacePawns` is a separate method for the pawn loop of `init_pieces`. The loop is the same; it just sits in its own method.
- No I/O, clock, randomness or concurrency appears in the modelled code.
