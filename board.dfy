/**
 * The chess board of chess.py: an 8 x 8 grid addressed by a file letter
 * "a".."h" and a rank 1..8, read and written with bounds checks, filled
 * with the standard starting position, and printed rank by rank.
 */
module Chess {
  import opened Wrappers
  import opened Pieces
  import opened Text

  /** The file letters, in column order (`self.files`). */
  const Files: seq<string> := ["a", "b", "c", "d", "e", "f", "g", "h"]

  /** The ranks, in row order (`self.ranks`). */
  const Ranks: seq<int> := [1, 2, 3, 4, 5, 6, 7, 8]

  /** The ValueError raised for a file or rank off the board. */
  datatype Error = InvalidPosition

  /** The file at column `i` is the single letter `i` places after 'a'. */
  lemma FileLetters()
    ensures forall i :: 0 <= i < 8 ==> |Files[i]| == 1 && Files[i][0] as int == 'a' as int + i
  {
  }

  /**
   * `file_to_idx`: the column the `file_idx` dictionary (the files zipped
   * with 0..7) gives a file letter, or None where the lookup raises
   * KeyError. The dictionary pairs each letter with its distance from 'a'.
   */
  function FileToIdx(file: string): (r: Option<nat>)
    ensures r.Some? <==> file in Files
    ensures r.Some? ==> r.value < 8 && Files[r.value] == file
  {
    FileLetters();
    if |file| == 1 && 'a' <= file[0] <= 'h' then
      var i := file[0] as int - 'a' as int;
      assert Files[i] == file by {
        assert |Files[i]| == |file| && Files[i][0] == file[0];
      }
      Some(i)
    else
      None
  }

  /** The file letters map to 0..7 in order, so two different letters never share a column. */
  lemma FilesIndexed()
    ensures forall i :: 0 <= i < 8 ==> FileToIdx(Files[i]) == Some(i)
  {
    FileLetters();
  }

  /** The guard of `get_piece_at_position` and `set_piece_at_position`. */
  predicate ValidSquare(file: string, rank: int)
  {
    file in Files && rank in Ranks
  }

  /** Where a valid square lives in `self.board`: `[file_to_idx(file)][rank - 1]`. */
  function SquareIndex(file: string, rank: int): (r: (nat, nat))
    requires ValidSquare(file, rank)
    ensures r.0 < 8 && r.1 < 8
    ensures Files[r.0] == file && Ranks[r.1] == rank && r.1 == rank - 1
  {
    (FileToIdx(file).value, rank - 1)
  }

  /** Different valid squares occupy different cells of the grid. */
  lemma SquareIndexInjective(f1: string, r1: int, f2: string, r2: int)
    requires ValidSquare(f1, r1) && ValidSquare(f2, r2)
    ensures SquareIndex(f1, r1) == SquareIndex(f2, r2) <==> f1 == f2 && r1 == r2
  {
  }

  /** The back-rank order of the starting position, files a to h. */
  const BackRank: seq<Kind> := [Rook, Knight, Bishop, Queen, King, Bishop, Knight, Rook]

  /**
   * The standard starting position at column `i`, row `j`: the back rank
   * on ranks 1 and 8, pawns on ranks 2 and 7, White on ranks 1-2, Black on
   * ranks 7-8, nothing elsewhere.
   */
  function StartingCell(i: nat, j: nat): (c: Cell)
    requires i < 8 && j < 8
    ensures c.Empty? <==> 2 <= j < 6
    ensures c.Piece? ==> (c.colour == White <==> j < 2)
    ensures c.Piece? ==> (c.kind == Pawn <==> j == 1 || j == 6)
    ensures (j == 0 || j == 7) ==> (c.kind == King <==> i == 4) && (c.kind == Queen <==> i == 3)
  {
    BackRankKinds();
    if j == 0 then Piece(BackRank[i], White)
    else if j == 1 then Piece(Pawn, White)
    else if j == 6 then Piece(Pawn, Black)
    else if j == 7 then Piece(BackRank[i], Black)
    else Empty
  }

  /** Which column of the back rank holds which kind. */
  lemma BackRankKinds()
    ensures forall i :: 0 <= i < 8 ==>
              (BackRank[i] == Rook <==> i == 0 || i == 7) && (BackRank[i] == Knight <==> i == 1 || i == 6) &&
              (BackRank[i] == Bishop <==> i == 2 || i == 5) && (BackRank[i] == Queen <==> i == 3) &&
              (BackRank[i] == King <==> i == 4)
  {
  }

  /** Where pair `(a, b)` of a product over `width` ranks sits: after `a` whole blocks of `width` pairs. */
  function Offset(a: nat, b: nat, width: nat): nat
  {
    a * width + b
  }

  /** The squares `itertools.product(files, ranks)` visits, file by file (see `ProductOrder`). */
  function Product(files: seq<string>, ranks: seq<int>): (r: seq<(string, int)>)
    ensures |r| == |files| * |ranks|
    ensures forall f, k :: (f, k) in r <==> f in files && k in ranks
  {
    if files == [] then []
    else
      var first := seq(|ranks|, n requires 0 <= n < |ranks| => (files[0], ranks[n]));
      var rest := Product(files[1..], ranks);
      assert forall f, k :: (f, k) in first <==> f == files[0] && k in ranks by {
        forall f, k | f == files[0] && k in ranks ensures (f, k) in first {
          var n :| 0 <= n < |ranks| && ranks[n] == k;
          assert first[n] == (f, k);
        }
      }
      assert forall f :: f in files <==> f == files[0] || f in files[1..];
      first + rest
  }

  /** `itertools.product` runs through the ranks for each file in turn: file `a` with rank `b` comes at `a * |ranks| + b`. */
  lemma {:induction false} ProductOrder(files: seq<string>, ranks: seq<int>)
    ensures forall a, b :: 0 <= a < |files| && 0 <= b < |ranks| ==>
              Offset(a, b, |ranks|) < |Product(files, ranks)| && Product(files, ranks)[Offset(a, b, |ranks|)] == (files[a], ranks[b])
  {
    if files != [] {
      ProductOrder(files[1..], ranks);
      var m := |ranks|;
      var p, rest := Product(files, ranks), Product(files[1..], ranks);
      assert p == seq(m, n requires 0 <= n < m => (files[0], ranks[n])) + rest;
      forall a, b | 0 < a < |files| && 0 <= b < m
        ensures Offset(a, b, m) < |p| && p[Offset(a, b, m)] == (files[a], ranks[b])
      {
        assert Offset(a, b, m) == m + Offset(a - 1, b, m);
        assert files[a] == files[1..][a - 1];
      }
    }
  }

  /** Whether every square of a list passes the board's bounds check. */
  predicate AllValid(squares: seq<(string, int)>)
  {
    forall n :: 0 <= n < |squares| ==> ValidSquare(squares[n].0, squares[n].1)
  }

  /** The grid cells (column, row) a list of valid squares names, in list order. */
  function Targets(squares: seq<(string, int)>): (t: seq<(nat, nat)>)
    requires AllValid(squares)
    ensures |t| == |squares|
    ensures forall n :: 0 <= n < |squares| ==>
              t[n].0 < 8 && t[n].1 < 8 && Files[t[n].0] == squares[n].0 && t[n].1 + 1 == squares[n].1
  {
    seq(|squares|, n requires 0 <= n < |squares| => SquareIndex(squares[n].0, squares[n].1))
  }

  /** The squares of the three back-rank loops of `init_pieces` and of its pawn loop. */
  const RookSquares: seq<(string, int)> := [("a", 1), ("a", 8), ("h", 1), ("h", 8)]
  const KnightSquares: seq<(string, int)> := [("b", 1), ("b", 8), ("g", 1), ("g", 8)]
  const BishopSquares: seq<(string, int)> := [("c", 1), ("c", 8), ("f", 1), ("f", 8)]
  const PawnSquares: seq<(string, int)> := Product(Files, [2, 7])

  /** The square of file index `i` and rank `rank` is valid and lands on column `i`, row `rank - 1`. */
  lemma SquareAt(i: nat, rank: int)
    requires i < 8 && 1 <= rank <= 8
    ensures ValidSquare(Files[i], rank) && SquareIndex(Files[i], rank) == (i, rank - 1)
  {
    FileLetters();
    var f := Files[i];
    assert |f| == 1 && f[0] as int == 'a' as int + i;
    assert FileToIdx(f) == Some(i);
    assert Ranks[rank - 1] == rank;
  }

  /** A back-rank loop over files `x` and `y`, ranks 1 and 8, writes columns `x` and `y` of the two outer rows. */
  lemma {:induction false} CornerTargets(squares: seq<(string, int)>, x: nat, y: nat)
    requires x < 8 && y < 8
    requires squares == [(Files[x], 1), (Files[x], 8), (Files[y], 1), (Files[y], 8)]
    ensures AllValid(squares)
    ensures forall i, j :: 0 <= i < 8 && 0 <= j < 8 ==> ((i, j) in Targets(squares) <==> (i == x || i == y) && (j == 0 || j == 7))
  {
    SquareAt(x, 1);
    SquareAt(x, 8);
    SquareAt(y, 1);
    SquareAt(y, 8);
    var t := Targets(squares);
    assert t[0] == (x, 0) && t[1] == (x, 7) && t[2] == (y, 0) && t[3] == (y, 7);
    forall i, j | 0 <= i < 8 && 0 <= j < 8
      ensures (i, j) in t <==> (i == x || i == y) && (j == 0 || j == 7)
    {
      if (i, j) in t {
        var n :| 0 <= n < 4 && t[n] == (i, j);
      }
    }
  }

  /** The rook, knight and bishop loops write the outer, next and third columns of ranks 1 and 8. */
  lemma BackRankTargets()
    ensures AllValid(RookSquares) && AllValid(KnightSquares) && AllValid(BishopSquares)
    ensures forall i, j :: 0 <= i < 8 && 0 <= j < 8 ==>
              ((i, j) in Targets(RookSquares) <==> (i == 0 || i == 7) && (j == 0 || j == 7))
    ensures forall i, j :: 0 <= i < 8 && 0 <= j < 8 ==>
              ((i, j) in Targets(KnightSquares) <==> (i == 1 || i == 6) && (j == 0 || j == 7))
    ensures forall i, j :: 0 <= i < 8 && 0 <= j < 8 ==>
              ((i, j) in Targets(BishopSquares) <==> (i == 2 || i == 5) && (j == 0 || j == 7))
  {
    CornerTargets(RookSquares, 0, 7);
    CornerTargets(KnightSquares, 1, 6);
    CornerTargets(BishopSquares, 2, 5);
  }

  /** A product of all files with valid ranks writes the columns of exactly those ranks. */
  lemma ProductTargets(ranks: seq<int>)
    requires forall k :: k in ranks ==> k in Ranks
    ensures AllValid(Product(Files, ranks))
    ensures forall i, j :: 0 <= i < 8 && 0 <= j < 8 ==> ((i, j) in Targets(Product(Files, ranks)) <==> j + 1 in ranks)
  {
    ProductValid(ranks);
    ProductWritesOnlyRanks(Files, ranks);
    ProductWritesAllFiles(ranks);
  }

  /** Every square of a product of all files with valid ranks passes the bounds check. */
  lemma ProductValid(ranks: seq<int>)
    requires forall k :: k in ranks ==> k in Ranks
    ensures AllValid(Product(Files, ranks))
  {
    var p := Product(Files, ranks);
    forall n | 0 <= n < |p|
      ensures ValidSquare(p[n].0, p[n].1)
    {
      assert p[n] in p;
    }
  }

  /** A product of any files with some ranks writes only rows of those ranks. */
  lemma ProductWritesOnlyRanks(files: seq<string>, ranks: seq<int>)
    requires AllValid(Product(files, ranks))
    ensures forall i, j :: (i, j) in Targets(Product(files, ranks)) ==> j + 1 in ranks
  {
    var p := Product(files, ranks);
    var t := Targets(p);
    forall i, j | (i, j) in t
      ensures j + 1 in ranks
    {
      var n :| 0 <= n < |t| && t[n] == (i, j);
      var (f, k) := p[n];
      assert (f, k) in p;
      assert j == k - 1;
    }
  }

  /** A product of all files with some valid ranks writes every column of each of those ranks. */
  lemma ProductWritesAllFiles(ranks: seq<int>)
    requires AllValid(Product(Files, ranks))
    ensures forall i, j :: 0 <= i < 8 && 0 <= j < 8 && j + 1 in ranks ==> (i, j) in Targets(Product(Files, ranks))
  {
    var p := Product(Files, ranks);
    var t := Targets(p);
    ProductOrder(Files, ranks);
    forall i, j | 0 <= i < 8 && 0 <= j < 8 && j + 1 in ranks
      ensures (i, j) in t
    {
      var b :| 0 <= b < |ranks| && ranks[b] == j + 1;
      SquareAt(i, j + 1);
      assert t[Offset(i, b, |ranks|)] == (i, j);
    }
  }

  /** The pawn loop writes exactly ranks 2 and 7. */
  lemma PawnTargets()
    ensures AllValid(PawnSquares)
    ensures forall i, j :: 0 <= i < 8 && 0 <= j < 8 ==> ((i, j) in Targets(PawnSquares) <==> j == 1 || j == 6)
  {
    ProductTargets([2, 7]);
  }

  /** Where the four single writes of `init_pieces`, the queens and the kings, land. */
  lemma RoyalSquares()
    ensures ValidSquare("d", 1) && SquareIndex("d", 1) == (3, 0)
    ensures ValidSquare("d", 8) && SquareIndex("d", 8) == (3, 7)
    ensures ValidSquare("e", 1) && SquareIndex("e", 1) == (4, 0)
    ensures ValidSquare("e", 8) && SquareIndex("e", 8) == (4, 7)
  {
    FileLetters();
    assert Files[3] == "d" && Files[4] == "e";
  }

  class Board {
    /** `self.board`: the cell of file index `i` and rank `j + 1` is `grid[i, j]`. */
    const grid: array2<Cell>

    predicate Valid()
    {
      grid.Length0 == 8 && grid.Length1 == 8
    }

    /** `Board()`: every square holds the empty marker. */
    constructor ()
      ensures Valid() && fresh(grid)
      ensures forall i, j :: 0 <= i < 8 && 0 <= j < 8 ==> grid[i, j] == Empty
      ensures forall file, rank :: ValidSquare(file, rank) ==> Get(file, rank) == Success(Empty)
    {
      grid := new Cell[8, 8]((i, j) => Empty);
    }

    /** `get_piece_at_position`: the cell at a valid square, InvalidPosition otherwise. */
    function Get(file: string, rank: int): (r: Result<Cell, Error>)
      requires Valid()
      reads grid
      ensures r.Failure? <==> !ValidSquare(file, rank)
      ensures r.Failure? ==> r.error == InvalidPosition
      ensures r.Success? ==> r.value == grid[SquareIndex(file, rank).0, SquareIndex(file, rank).1]
    {
      if !ValidSquare(file, rank) then Failure(InvalidPosition)
      else
        var (i, j) := SquareIndex(file, rank);
        Success(grid[i, j])
    }

    /**
     * `set_piece_at_position`: overwrites the cell at a valid square with
     * `piece`, whatever it held; an invalid square fails and changes nothing.
     */
    method Set(file: string, rank: int, piece: Cell) returns (r: Outcome<Error>)
      requires Valid()
      modifies grid
      ensures r.Fail? <==> !ValidSquare(file, rank)
      ensures r.Fail? ==> r.error == InvalidPosition && unchanged(grid)
      ensures r.Pass? ==> grid[SquareIndex(file, rank).0, SquareIndex(file, rank).1] == piece
      ensures r.Pass? ==> Get(file, rank) == Success(piece)
      ensures forall f, k {:trigger Get(f, k)} :: (f, k) != (file, rank) ==> Get(f, k) == old(Get(f, k))
      ensures forall i, j :: 0 <= i < 8 && 0 <= j < 8 && (r.Fail? || (i, j) != SquareIndex(file, rank)) ==>
                grid[i, j] == old(grid[i, j])
    {
      if !ValidSquare(file, rank) {
        return Fail(InvalidPosition);
      }
      var (i, j) := SquareIndex(file, rank);
      grid[i, j] := piece;
      r := Pass;
    }

    /**
     * One loop of `init_pieces`: puts a piece of `kind` on each listed
     * square, White where the rank is `whiteRank` and Black elsewhere.
     */
    method PlaceEach(squares: seq<(string, int)>, kind: Kind, whiteRank: int)
      requires Valid() && AllValid(squares)
      modifies grid
      ensures forall i, j :: 0 <= i < 8 && 0 <= j < 8 && (i, j) in Targets(squares) ==>
                grid[i, j] == Piece(kind, if j + 1 == whiteRank then White else Black)
      ensures forall i, j :: 0 <= i < 8 && 0 <= j < 8 && (i, j) !in Targets(squares) ==> grid[i, j] == old(grid[i, j])
    {
      for n := 0 to |squares|
        invariant forall i, j :: 0 <= i < 8 && 0 <= j < 8 && (i, j) in Targets(squares)[..n] ==>
                    grid[i, j] == Piece(kind, if j + 1 == whiteRank then White else Black)
        invariant forall i, j :: 0 <= i < 8 && 0 <= j < 8 && (i, j) !in Targets(squares)[..n] ==>
                    grid[i, j] == old(grid[i, j])
      {
        var (file, rank) := squares[n];
        ghost var t := Targets(squares);
        assert t[..n + 1] == t[..n] + [SquareIndex(file, rank)];
        var _ := Set(file, rank, Piece(kind, if rank == whiteRank then White else Black));
      }
      assert Targets(squares)[..|squares|] == Targets(squares);
    }

    /** The pawn loop of `init_pieces`: every file of ranks 2 and 7, white on rank 2. */
    method PlacePawns()
      requires Valid()
      modifies grid
      ensures forall i, j :: 0 <= i < 8 && 0 <= j < 8 ==>
                grid[i, j] == if j == 1 then Piece(Pawn, White) else if j == 6 then Piece(Pawn, Black) else old(grid[i, j])
    {
      PawnTargets();
      PlaceEach(PawnSquares, Pawn, 2);
    }

    /**
     * `init_pieces`: writes the 32 pieces of the starting position on ranks
     * 1, 2, 7 and 8; ranks 3 to 6 keep whatever they held.
     */
    method InitPieces()
      requires Valid()
      modifies grid
      ensures forall i, j :: 0 <= i < 8 && 0 <= j < 8 && (j <= 1 || 6 <= j) ==> grid[i, j] == StartingCell(i, j)
      ensures forall i, j :: 0 <= i < 8 && 2 <= j < 6 ==> grid[i, j] == old(grid[i, j])
    {
      BackRankTargets();
      RoyalSquares();
      PlaceEach(RookSquares, Rook, 1);
      label Rooks:
      PlaceEach(KnightSquares, Knight, 1);
      label Knights:
      PlaceEach(BishopSquares, Bishop, 1);
      label Bishops:
      PlacePawns();
      label Pawns:
      var _ := Set("d", 1, Piece(Queen, White));
      label WhiteQueen:
      var _ := Set("d", 8, Piece(Queen, Black));
      label BlackQueen:
      var _ := Set("e", 1, Piece(King, White));
      label WhiteKing:
      var _ := Set("e", 8, Piece(King, Black));
      forall i, j | 0 <= i < 8 && 0 <= j < 8
        ensures grid[i, j] == if j <= 1 || 6 <= j then StartingCell(i, j) else old(grid[i, j])
      {
        BackRankKinds();
        if (i == 3 || i == 4) && (j == 0 || j == 7) {
        } else {
          assert grid[i, j] == old@WhiteKing(grid[i, j]) == old@BlackQueen(grid[i, j]);
          assert old@BlackQueen(grid[i, j]) == old@WhiteQueen(grid[i, j]) == old@Pawns(grid[i, j]);
          if j == 1 || j == 6 {
          } else if j == 0 || j == 7 {
            if i == 2 || i == 5 {
            } else if i == 1 || i == 6 {
              assert old@Pawns(grid[i, j]) == old@Knights(grid[i, j]);
            } else {
              assert old@Pawns(grid[i, j]) == old@Rooks(grid[i, j]);
            }
          } else {
            assert old@Pawns(grid[i, j]) == old@Bishops(grid[i, j]);
            assert old@Bishops(grid[i, j]) == old@Knights(grid[i, j]);
            assert old@Knights(grid[i, j]) == old@Rooks(grid[i, j]);
            assert old@Rooks(grid[i, j]) == old(grid[i, j]);
          }
        }
      }
    }

    /** One rank of `__str__`: each file's cell, left-aligned in a two-character field, files a to h. */
    function RankText(rank: int): string
      requires Valid() && rank in Ranks
      reads grid
    {
      Concat(seq(8, i requires 0 <= i < 8 reads grid => CellText(Get(Files[i], rank).value)))
    }

    /** `__str__`: ranks 1 to 8, one line each, joined by newlines. */
    function Render(): string
      requires Valid()
      reads grid
    {
      Join(seq(8, j requires 0 <= j < 8 reads grid => RankText(Ranks[j])), "\n")
    }

    /** Line `j` of the rendering is sixteen characters: file `i`'s glyph at `2 * i`, a space after it. */
    lemma RankLayout(j: nat)
      requires Valid() && j < 8
      ensures |RankText(Ranks[j])| == 16
      ensures forall i :: 0 <= i < 8 ==> RankText(Ranks[j])[2 * i] == Glyph(grid[i, j]) && RankText(Ranks[j])[2 * i + 1] == ' '
    {
      var cells := seq(8, i requires 0 <= i < 8 reads grid => CellText(Get(Files[i], Ranks[j]).value));
      forall i | 0 <= i < 8
        ensures |cells[i]| == 2 && cells[i][0] == Glyph(grid[i, j]) && cells[i][1] == ' '
      {
        SquareAt(i, j + 1);
      }
      ConcatPairs(cells);
    }

    /**
     * The rendering has eight lines of sixteen characters separated by
     * newlines: line `j` shows rank `j + 1`, and its columns `2 * i` and
     * `2 * i + 1` hold the glyph of file `i` and a space.
     */
    lemma RenderLayout()
      requires Valid()
      ensures |Render()| == 135
      ensures forall i, j :: 0 <= i < 8 && 0 <= j < 8 ==>
                Render()[17 * j + 2 * i] == Glyph(grid[i, j]) && Render()[17 * j + 2 * i + 1] == ' '
      ensures forall j :: 0 <= j < 7 ==> Render()[17 * j + 16] == '\n'
      ensures forall i, j :: 0 <= i < 8 && 0 <= j < 8 ==> Render()[17 * j + 2 * i] == Glyph(Get(Files[i], Ranks[j]).value)
    {
      var lines := seq(8, j requires 0 <= j < 8 reads grid => RankText(Ranks[j]));
      forall j | 0 <= j < 8
        ensures |lines[j]| == 16
        ensures forall i :: 0 <= i < 8 ==> lines[j][2 * i] == Glyph(grid[i, j]) && lines[j][2 * i + 1] == ' '
      {
        RankLayout(j);
      }
      JoinLines16(lines, '\n');
      assert Render() == Join(lines, "\n");
      forall i, j | 0 <= i < 8 && 0 <= j < 8
        ensures Render()[17 * j + 2 * i] == Glyph(grid[i, j]) && Render()[17 * j + 2 * i + 1] == ' '
      {
        assert Render()[17 * j + 2 * i] == lines[j][2 * i];
        assert Render()[17 * j + (2 * i + 1)] == lines[j][2 * i + 1];
      }
      forall i, j | 0 <= i < 8 && 0 <= j < 8
        ensures Render()[17 * j + 2 * i] == Glyph(Get(Files[i], Ranks[j]).value)
      {
        SquareAt(i, j + 1);
        assert Ranks[j] == j + 1;
      }
    }

    /** Two boards with the same rendering hold the same piece on every square. */
    lemma RenderDeterminesBoard(other: Board)
      requires Valid() && other.Valid()
      ensures Render() == other.Render() ==> forall i, j :: 0 <= i < 8 && 0 <= j < 8 ==> grid[i, j] == other.grid[i, j]
    {
      RenderLayout();
      other.RenderLayout();
      if Render() == other.Render() {
        forall i, j | 0 <= i < 8 && 0 <= j < 8
          ensures grid[i, j] == other.grid[i, j]
        {
          GlyphInjective(grid[i, j], other.grid[i, j]);
        }
      }
    }
  }

  /**
   * A new board with `init_pieces` applied: every square reads as the
   * starting position, ranks 3 to 6 empty.
   */
  method NewGame() returns (b: Board)
    ensures b.Valid()
    ensures forall i, j :: 0 <= i < 8 && 0 <= j < 8 ==> b.Get(Files[i], Ranks[j]) == Success(StartingCell(i, j))
  {
    b := new Board();
    b.InitPieces();
    forall i, j | 0 <= i < 8 && 0 <= j < 8
      ensures b.Get(Files[i], Ranks[j]) == Success(StartingCell(i, j))
    {
      SquareAt(i, j + 1);
    }
  }
}
