/**
 * The pure decision rules of the browser client: naming a square from its
 * board index, building the move request, and the rendering rules (square
 * colour, which pieces may be dragged, whether the board is flipped, which
 * glyph a piece shows).
 */
module Board {
  import opened ChessOracle

  /** A cell of the rendered board: row 0 is the top rank, col 0 the a-file. */
  datatype Square = Square(row: int, col: int)

  predicate OnBoard(s: Square)
  {
    0 <= s.row < 8 && 0 <= s.col < 8
  }

  /**
   * `String.fromCharCode(97 + col)` followed by the decimal digits of `8 - row`
   * (one digit, since 8 - row is between 1 and 8).
   */
  function SquareName(s: Square): (r: string)
    requires OnBoard(s)
    ensures |r| == 2 && 'a' <= r[0] <= 'h' && '1' <= r[1] <= '8'
    ensures r[0] as int - 'a' as int == s.col && r[1] as int - '0' as int == 8 - s.row
  {
    [(97 + s.col) as char, (48 + (8 - s.row)) as char]
  }

  /** Distinct squares get distinct names. */
  lemma SquareNameInjective(s: Square, t: Square)
    requires OnBoard(s) && OnBoard(t) && SquareName(s) == SquareName(t)
    ensures s == t
  {
  }

  /** Every name a1..h8 is the name of exactly the square that lies in that file and rank. */
  lemma SquareNameOnto(file: char, rank: char)
    requires 'a' <= file <= 'h' && '1' <= rank <= '8'
    ensures var s := Square(8 - (rank as int - '0' as int), file as int - 'a' as int);
      OnBoard(s) && SquareName(s) == [file, rank]
  {
  }

  /** The top row is rank 8 and the bottom row rank 1; the left column is the a-file. */
  lemma SquareNameCorners()
    ensures SquareName(Square(0, 0)) == "a8" && SquareName(Square(7, 0)) == "a1"
    ensures SquareName(Square(0, 7)) == "h8" && SquareName(Square(7, 7)) == "h1"
    ensures SquareName(Square(6, 4)) == "e2" && SquareName(Square(4, 4)) == "e4"
  {
  }

  /** The request `handleMove` builds for a drag from `source` to `target`: always promoting to a queen. */
  function BuildMove(source: Square, target: Square): (m: MoveRequest)
    requires OnBoard(source) && OnBoard(target)
    ensures m.promotion == 'q'
    ensures m.from == SquareName(source) && m.to == SquareName(target)
  {
    MoveRequest(SquareName(source), SquareName(target), 'q')
  }

  /** The "light"/"dark" class of a square. */
  predicate IsLight(s: Square): (r: bool)
    // light exactly when row and column have the same parity
    ensures r <==> s.row % 2 == s.col % 2
  {
    (s.row + s.col) % 2 == 0
  }

  /** Neighbouring squares alternate colour, and h1 is light while a1 is dark, as on a real board. */
  lemma Colouring(s: Square)
    ensures IsLight(s) != IsLight(Square(s.row, s.col + 1))
    ensures IsLight(s) != IsLight(Square(s.row + 1, s.col))
    ensures IsLight(s) == IsLight(Square(s.row + 1, s.col + 1))
    ensures IsLight(Square(7, 7)) && !IsLight(Square(7, 0)) && IsLight(Square(0, 0))
  {
  }

  /** `playerRole === square.color`: only the local player's own pieces can be dragged. */
  predicate Draggable(playerRole: Option<Color>, piece: Color): (r: bool)
    ensures r <==> playerRole.Some? && playerRole.value == piece
  {
    playerRole == Some(piece)
  }

  lemma DragRules(playerRole: Option<Color>, piece: Color)
    // a spectator drags nothing
    ensures playerRole == None ==> !Draggable(playerRole, piece)
    // a player drags their own pieces and never the opponent's
    ensures playerRole == Some(piece) ==> Draggable(playerRole, piece)
    ensures playerRole == Some(piece) ==> !Draggable(playerRole, Opponent(piece))
  {
  }

  /** The board is shown from black's side exactly for the black player. */
  predicate Flipped(playerRole: Option<Color>): (r: bool)
    ensures r <==> playerRole.Some? && playerRole.value == Black
  {
    playerRole == Some(Black)
  }

  lemma FlipRules()
    ensures Flipped(Some(Black)) && !Flipped(Some(White)) && !Flipped(None)
  {
  }

  /** The `unicodePieces` table of `getPieceUnicode`, keyed by piece letter. */
  const Glyphs: map<char, string> := map[
    'k' := "\U{2654}", 'q' := "\U{2655}", 'r' := "\U{2656}",
    'b' := "\U{2657}", 'n' := "\U{2658}", 'p' := "\U{2659}",
    'K' := "\U{265A}", 'Q' := "\U{265B}", 'R' := "\U{265C}",
    'B' := "\U{265D}", 'N' := "\U{265E}", 'P' := "\U{265F}"]

  /** `unicodePieces[piece.type] || ""`. */
  function PieceGlyph(pieceType: char): (r: string)
    ensures |r| <= 1 && (r != "" <==> pieceType in Glyphs.Keys)
  {
    if pieceType in Glyphs then Glyphs[pieceType] else ""
  }

  /**
   * Each of the twelve letters shows one chess symbol of its own; any other
   * letter shows nothing. Lower-case letters (the only ones the rules library
   * uses for `type`) map to the outlined symbols U+2654..U+2659, whatever the
   * piece's colour.
   */
  lemma GlyphTable(a: char, b: char)
    ensures a in "kqrbnpKQRBNP" <==> PieceGlyph(a) != ""
    ensures a in "kqrbnpKQRBNP" ==> |PieceGlyph(a)| == 1 && '\U{2654}' <= PieceGlyph(a)[0] <= '\U{265F}'
    ensures a in "kqrbnp" ==> PieceGlyph(a)[0] <= '\U{2659}'
    ensures a in "kqrbnpKQRBNP" && b in "kqrbnpKQRBNP" && PieceGlyph(a) == PieceGlyph(b) ==> a == b
    // king, queen, rook, bishop, knight, pawn, in the order of the Unicode chess symbols
    ensures forall i :: 0 <= i < 6 ==>
      PieceGlyph("kqrbnp"[i]) == [(0x2654 + i) as char] && PieceGlyph("KQRBNP"[i]) == [(0x265A + i) as char]
  {
  }
}
