/**
 * The exposure/blocking evaluator: for one position, file and side, is that
 * side's pawn still on its start square, and what stands on the square
 * directly ahead of it.
 */
module BoardAnalysis {
  import opened Wrappers
  import opened Chess
  import opened Text

  /** The file letters, file a first. */
  const FILES: string := "abcdefgh"

  type FileIndex = i: int | 0 <= i < 8

  /** The rank index a side's pawns start on. */
  function HomeRank(color: Color): int {
    if color == White then 1 else 6
  }

  /** The rank step a side's pawns advance by (toward the opponent). */
  function Forward(color: Color): int {
    if color == White then 1 else -1
  }

  /** `get_pawn_start_and_ahead_squares`: the start square of the side's pawn on
      the file, and the square one rank toward the opponent. */
  function StartAndAheadSquares(file: FileIndex, color: Color): (r: (Square, Square))
    ensures FileOf(r.0) == file && FileOf(r.1) == file
    ensures RankOf(r.0) == HomeRank(color)
    ensures RankOf(r.1) == RankOf(r.0) + Forward(color)
  {
    if color == White then (SquareAt(file, 1), SquareAt(file, 2))
    else (SquareAt(file, 6), SquareAt(file, 5))
  }

  /** `is_pawn_exposed`: a pawn of that side stands on its start square; an empty
      square, a piece of the other side or a non-pawn of this side give false. */
  function IsPawnExposed(board: Board, file: FileIndex, color: Color): (r: bool)
    ensures r <==> PieceAt(board, SquareAt(file, HomeRank(color))) == Some(Piece(Pawn, color))
  {
    var (start, _) := StartAndAheadSquares(file, color);
    var piece := PieceAt(board, start);
    piece.Some? && piece.value.kind == Pawn && piece.value.color == color
  }

  /** The tuple `(friendly_non_pawn_block, enemy_block, any_block, blocker_piece_type)`. */
  datatype BlockInfo = BlockInfo(friendlyNonPawn: bool, enemy: bool, anyBlock: bool, blocker: Option<Kind>)

  /** `get_blocking_info`: classifies the square ahead of the side's start square. */
  function BlockingInfo(board: Board, file: FileIndex, color: Color): (r: BlockInfo)
    ensures
      var ahead := SquareAt(file, HomeRank(color) + Forward(color));
      && (r.anyBlock <==> ahead in board)
      && (r.blocker == if ahead in board then Some(board[ahead].kind) else None)
      && (r.friendlyNonPawn <==> ahead in board && board[ahead].color == color && board[ahead].kind != Pawn)
      && (r.enemy <==> ahead in board && board[ahead].color != color)
    ensures !(r.friendlyNonPawn && r.enemy)
    ensures r.friendlyNonPawn || r.enemy ==> r.anyBlock
  {
    var (_, ahead) := StartAndAheadSquares(file, color);
    match PieceAt(board, ahead)
    case None => BlockInfo(false, false, false, None)
    case Some(piece) =>
      if piece.color == color then BlockInfo(piece.kind != Pawn, false, true, Some(piece.kind))
      else BlockInfo(false, true, true, Some(piece.kind))
  }

  /** `get_file_index`: `FILES.index(letter)`, a substring search that raises
      ValueError when the text does not occur in "abcdefgh". */
  function FileIndexOf(letter: string): (r: Result<FileIndex>)
    ensures r.Ok? <==> Contains(FILES, letter)
    ensures r.Ok? ==> OccursAt(FILES, letter, r.value)
    ensures r.Ok? ==> forall i :: 0 <= i < r.value ==> !OccursAt(FILES, letter, i)
  {
    match Find(FILES, letter)
    case None => Err("substring not found")
    case Some(i) =>
      assert OccursAt(FILES, letter, 0) ==> i == 0;
      Ok(i)
  }

  /** A single file letter maps to its column, any other single character raises. */
  lemma FileIndexOfLetter(c: char)
    ensures forall i: FileIndex :: FILES[i] == c ==> FileIndexOf([c]) == Ok(i)
    ensures c !in FILES ==> FileIndexOf([c]).Err?
  {
    forall j | 0 <= j < 8 ensures OccursAt(FILES, [c], j) <==> FILES[j] == c {
      assert FILES[j..j + 1] == [FILES[j]];
    }
    forall i: FileIndex | FILES[i] == c ensures FileIndexOf([c]) == Ok(i) {
      assert OccursAt(FILES, [c], i);
    }
  }

  /** The evaluator on the standard position and on the edited positions of the
      board-analysis tests. */
  lemma StartingPositionEvaluation()
    ensures forall f: FileIndex, c: Color :: IsPawnExposed(StartingBoard(), f, c)
    ensures forall f: FileIndex, c: Color :: BlockingInfo(StartingBoard(), f, c) == BlockInfo(false, false, false, None)
    ensures BlockingInfo(StartingBoard()[21 := Piece(Knight, White)], 5, White) == BlockInfo(true, false, true, Some(Knight))
    ensures BlockingInfo(StartingBoard()[21 := Piece(Pawn, White)], 5, White) == BlockInfo(false, false, true, Some(Pawn))
    ensures BlockingInfo(StartingBoard()[21 := Piece(Knight, Black)], 5, White) == BlockInfo(false, true, true, Some(Knight))
  {
  }
}
