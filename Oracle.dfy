/**
 * The chess rules library both sides of the table delegate to. Its rules
 * (legality, FEN encoding, terminal detection) are not modelled: a position is
 * an abstract value and the library is a record of total functions over it,
 * so every property proved elsewhere holds for ANY rules library of this shape.
 */
module ChessOracle {

  datatype Option<T> = None | Some(value: T)

  /** The side to move, as `chess.turn()` reports it ('w' or 'b'). */
  datatype Color = White | Black

  /** A position of the library (board placement plus the library's own move history). */
  type Position(==)

  /** A position in Forsyth-Edwards notation, the library's portable snapshot. */
  type Fen = string

  /** A move request `{from, to, promotion}` as the client builds it and the server forwards it. */
  datatype MoveRequest = MoveRequest(from: string, to: string, promotion: char)

  /** What `chess.move(m)` does: returns a move (Accepted), returns null (Rejected) or throws. */
  datatype Outcome = Accepted(next: Position) | Rejected | Threw

  /** The library's terminal predicates on one position. */
  datatype Status = Status(
    checkmate: bool,            // isCheckmate / in_checkmate
    stalemate: bool,            // isStalemate / in_stalemate
    insufficientMaterial: bool, // isInsufficientMaterial / insufficient_material
    threefoldRepetition: bool,  // isThreefoldRepetition / in_threefold_repetition
    draw: bool,                 // isDraw / in_draw
    gameOver: bool)             // isGameOver

  /** The rules library as a capability: a stub with scripted answers satisfies it as well as chess.js. */
  datatype Oracle = Oracle(
    turn: Position -> Color,
    fen: Position -> Fen,
    play: (Position, MoveRequest) -> Outcome,
    status: Position -> Status,
    load: Fen -> Option<Position>,
    initial: Position)

  /**
   * How the library's predicates relate to each other: every named draw is a
   * draw, and the game is over exactly on checkmate or a draw (stalemate
   * included). The coordinator does not depend on this; the lemma that a
   * game-over message is never empty does.
   */
  predicate ConsistentStatus(s: Status)
  {
    && (s.stalemate ==> s.draw)
    && (s.insufficientMaterial ==> s.draw)
    && (s.threefoldRepetition ==> s.draw)
    && (s.gameOver <==> s.checkmate || s.draw)
  }

  function Opponent(c: Color): (r: Color)
    ensures r != c
  {
    if c == White then Black else White
  }
}
