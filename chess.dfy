/**
  The parts of the external chess engine that the networking and the user
  interface rely on. The engine itself (move generation, move application,
  position parsing) is foreign code: a board is represented here by what the
  program does to it, the moves applied since the default start position, and
  the legal-move query is a function supplied by the caller.
 */
module Chess {

  /** Rust's `i32`, the type of a square's row and column. */
  type i32 = x: int | -0x8000_0000 <= x < 0x8000_0000

  /** A square; row 0 is White's back rank, column 0 the a-file. The engine's
      square is two plain `i32` fields, so off-board values are representable
      (the mouse hit test can produce them). */
  datatype Square = Square(row: i32, column: i32)

  predicate OnBoard(s: Square) {
    0 <= s.row < 8 && 0 <= s.column < 8
  }

  datatype Move = Move(from: Square, to: Square)

  predicate OnBoardMove(m: Move) {
    OnBoard(m.from) && OnBoard(m.to)
  }

  /** The engine's piece kinds, `NoPiece` standing for an empty square. */
  datatype Piece = Pawn | Knight | Bishop | Rook | Queen | King | NoPiece

  /** The engine's colours, `NoColor` standing for the catch-all case the
      user interface also handles. */
  datatype Color = White | Black | NoColor

  /** A board, identified by the moves applied to it since the default start
      position. Only one direction is assumed of the engine: the same history
      means the same position. Different histories can reach the same position
      (two moves that commute, played in either order), so histories that
      differ show only that the positions may differ. */
  datatype Board = Board(history: seq<Move>)

  /** `ChessBoard::new()`: the default start position. */
  function NewBoard(): Board {
    Board([])
  }

  /** `make_move`: the engine applies one move, without a legality check. */
  function MakeMove(b: Board, m: Move): Board {
    Board(b.history + [m])
  }

  /** `get_legal_moves_from_square`, the engine's legality query. */
  type LegalMoves = (Board, Square) -> seq<Move>

  /** What the program relies on from the engine's legality query: a legal
      move stays on the board. */
  ghost predicate SoundOracle(legal: LegalMoves) {
    forall b, s, m :: m in legal(b, s) ==> OnBoardMove(m)
  }

  /** What the draw loop relies on from the engine's square queries: an occupied
      square has a real colour. Without it the image key of that square would
      have one letter, and the image-table lookup in `draw` would panic. */
  ghost predicate ColoredPieces(pieceOf: Square -> Piece, colorOf: Square -> Color) {
    forall s :: OnBoard(s) && pieceOf(s) != NoPiece ==> colorOf(s) != NoColor
  }
}
