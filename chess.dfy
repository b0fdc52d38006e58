/**
 * The part of python-chess the core queries: colours, piece kinds, squares
 * numbered as `chess.square(file, rank) == rank * 8 + file`, a board as a map
 * from occupied squares to pieces (`piece_at` is a lookup), the standard
 * starting position, and what `chess.pgn.read_game` hands back.
 * Move legality, `Board.push` and FEN parsing stay in the library; the
 * operations that need them take them as function parameters.
 */
module Chess {
  import opened Wrappers

  datatype Color = White | Black {
    function Opponent(): Color {
      if this == White then Black else White
    }
  }

  datatype Kind = Pawn | Knight | Bishop | Rook | Queen | King {
    /** `chess.piece_symbol(kind)`: the lower-case letter of the kind. */
    function Symbol(): char {
      match this
      case Pawn => 'p'
      case Knight => 'n'
      case Bishop => 'b'
      case Rook => 'r'
      case Queen => 'q'
      case King => 'k'
    }
  }

  datatype Piece = Piece(kind: Kind, color: Color)

  type Square = s: int | 0 <= s < 64

  /** `chess.square(file, rank)`. */
  function SquareAt(file: int, rank: int): Square
    requires 0 <= file < 8 && 0 <= rank < 8
  {
    rank * 8 + file
  }

  function FileOf(s: Square): int { s % 8 }

  function RankOf(s: Square): int { s / 8 }

  /** A position: the occupied squares and their pieces. */
  type Board = map<Square, Piece>

  /** `board.piece_at(square)`. */
  function PieceAt(b: Board, s: Square): Option<Piece> {
    if s in b then Some(b[s]) else None
  }

  /** A move as python-chess records it. */
  datatype Move = Move(from: Square, to: Square, promotion: Option<Kind>)

  /** What `chess.pgn.read_game` yields for one game: its header tags and main-line moves. */
  datatype Game = Game(headers: map<string, string>, moves: seq<Move>)

  /** The pieces of the back rank, file a to file h. */
  const BACK_RANK: seq<Kind> := [Rook, Knight, Bishop, Queen, King, Bishop, Knight, Rook]

  /** `chess.Board()`: the standard starting position. */
  function StartingBoard(): Board {
    map s: Square | s < 16 || 48 <= s :: StartingPiece(s)
  }

  function StartingPiece(s: Square): Piece {
    var rank := s / 8;
    Piece(if rank == 1 || rank == 6 then Pawn else BACK_RANK[s % 8], if rank < 4 then White else Black)
  }

  /** Moves the piece on `from` to `to`, clearing `from`: how the scenarios below build
      positions by hand (a plain move or capture; no castling, promotion or en passant). */
  function Shift(b: Board, from: Square, to: Square): Board
    requires from in b
  {
    (b - {from})[to := b[from]]
  }
}
