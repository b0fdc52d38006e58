/**
 * The first-episode f-file classifier: over the retained positions, which of
 * A1 (never moved, never blocked), A2 / A3 (moved one / two squares with no
 * block before), B4 / B5 (first friendly block lasting at most / more than two
 * plies) or `other` describes what happened first to a side's f-pawn.
 */
module Classification {
  import opened Wrappers
  import opened Chess
  import opened BoardAnalysis
  import Metrics

  datatype Bucket = A1 | A2 | A3 | B4 | B5 | Other

  /** The f-file, `get_file_index("f")`. */
  const F_FILE: FileIndex := 5

  // ---------------------------------------------------------------- specification

  /** The per-ply friendly block check: exposed, and a piece of the side that is not a
      pawn stands on the square ahead. */
  predicate FriendlyBlockAt(position: Board, color: Color) {
    var ahead := SquareAt(F_FILE, HomeRank(color) + Forward(color));
    && IsPawnExposed(position, F_FILE, color)
    && ahead in position && position[ahead].color == color && position[ahead].kind != Pawn
  }

  /** `exposed[t]` for every retained ply. */
  function ExposedSeq(positions: seq<Board>, color: Color): seq<bool> {
    seq(|positions|, t requires 0 <= t < |positions| => IsPawnExposed(positions[t], F_FILE, color))
  }

  /** `friendly_blocks[t]` for every retained ply. */
  function BlockSeq(positions: seq<Board>, color: Color): seq<bool> {
    seq(|positions|, t requires 0 <= t < |positions| => FriendlyBlockAt(positions[t], color))
  }

  /** `r` is the first index at or after `from` whose flag is set, or `None` when there is none. */
  ghost predicate IsFirstFrom(flags: seq<bool>, from: nat, r: Option<nat>) {
    && (r.Some? ==> from <= r.value < |flags| && flags[r.value] && forall t :: from <= t < r.value ==> !flags[t])
    && (r.None? ==> forall t :: from <= t < |flags| ==> !flags[t])
  }

  /** The first set flag at or after `from`: what each scanning loop with `break` finds. */
  function FirstFrom(flags: seq<bool>, from: nat): (r: Option<nat>)
    ensures IsFirstFrom(flags, from, r)
    decreases |flags| - from
  {
    if from >= |flags| then None
    else if flags[from] then Some(from)
    else FirstFrom(flags, from + 1)
  }

  /** At most one index is first. */
  lemma FirstFromUnique(flags: seq<bool>, from: nat, r: Option<nat>)
    requires IsFirstFrom(flags, from, r)
    ensures r == FirstFrom(flags, from)
  {
  }

  /** Ply `t` is a move-off: exposed at `t - 1` and no longer at `t`. */
  function MoveOffFlags(exposed: seq<bool>): seq<bool> {
    seq(|exposed|, t requires 0 <= t < |exposed| => t >= 1 && exposed[t - 1] && !exposed[t])
  }

  /** Ply `t` ends a block episode: the pawn left, or it is exposed and no longer blocked. */
  function EpisodeEndFlags(exposed: seq<bool>, blocks: seq<bool>): seq<bool>
    requires |blocks| == |exposed|
  {
    seq(|exposed|, t requires 0 <= t < |exposed| => !exposed[t] || (exposed[t] && !blocks[t]))
  }

  /** The first ply after `start` that ends the block episode, or the window length when the
      episode is still running at the end. */
  function BlockEnd(exposed: seq<bool>, blocks: seq<bool>, start: nat): nat
    requires |blocks| == |exposed|
  {
    match FirstFrom(EpisodeEndFlags(exposed, blocks), start + 1)
    case None => |exposed|
    case Some(t) => t
  }

  /** Where a side's f-pawn landed on the ply it left its start square: one square ahead
      (A2) before two squares ahead (A3), else `other`. */
  function Landing(position: Board, color: Color): Bucket {
    var oneAhead := SquareAt(F_FILE, if color == White then 2 else 5);
    var twoAhead := SquareAt(F_FILE, if color == White then 3 else 4);
    if PieceAt(position, oneAhead) == Some(Piece(Pawn, color)) then A2
    else if PieceAt(position, twoAhead) == Some(Piece(Pawn, color)) then A3
    else Other
  }

  /** The decision table of `classify_f_bucket_for_color` over the observation lists. */
  function Decide(positions: seq<Board>, color: Color, exposed: seq<bool>, blocks: seq<bool>): Bucket
    requires |exposed| == |blocks| == |positions|
  {
    var moveOff := FirstFrom(MoveOffFlags(exposed), 1);
    if moveOff.None? && true !in blocks then A1
    else if moveOff.Some? && true !in blocks[..moveOff.value] then Landing(positions[moveOff.value], color)
    else
      match FirstFrom(blocks, 0)
      case None => Other
      case Some(start) => if BlockEnd(exposed, blocks, start) - start <= 2 then B4 else B5
  }

  /** The bucket of a side's f-pawn over the retained positions. */
  function BucketOf(positions: seq<Board>, color: Color): Bucket {
    Decide(positions, color, ExposedSeq(positions, color), BlockSeq(positions, color))
  }

  // ---------------------------------------------------------------- the classifier

  /** `get_file_index("f")` is 5. */
  lemma FFileIndex()
    ensures FileIndexOf("f") == Ok(F_FILE)
  {
    FileIndexOfLetter('f');
    assert FILES[5] == 'f';
  }

  /** The first loop of `classify_f_bucket_for_color`: `exposed` and `friendly_blocks`, one
      entry per retained position. */
  method ObserveFPawn(positions: seq<Board>, color: Color) returns (exposed: seq<bool>, friendlyBlocks: seq<bool>)
    ensures exposed == ExposedSeq(positions, color)
    ensures friendlyBlocks == BlockSeq(positions, color)
  {
    FFileIndex();
    var fileIdx := FileIndexOf("f").value;
    var (startSq, aheadSq) := StartAndAheadSquares(fileIdx, color);
    assert startSq == SquareAt(F_FILE, HomeRank(color));
    assert aheadSq == SquareAt(F_FILE, HomeRank(color) + Forward(color));
    exposed := [];
    friendlyBlocks := [];
    for i := 0 to |positions|
      invariant exposed == ExposedSeq(positions[..i], color)
      invariant friendlyBlocks == BlockSeq(positions[..i], color)
    {
      var isExposed, hasFriendlyBlock := ObservePosition(positions[i], color, startSq, aheadSq);
      ObservationsStep(positions, color, i);
      exposed := exposed + [isExposed];
      friendlyBlocks := friendlyBlocks + [hasFriendlyBlock];
    }
    assert positions[..|positions|] == positions;
  }

  /** Observing one more position appends its two flags. */
  lemma ObservationsStep(positions: seq<Board>, color: Color, i: nat)
    requires i < |positions|
    ensures ExposedSeq(positions[..i + 1], color) == ExposedSeq(positions[..i], color) + [IsPawnExposed(positions[i], F_FILE, color)]
    ensures BlockSeq(positions[..i + 1], color) == BlockSeq(positions[..i], color) + [FriendlyBlockAt(positions[i], color)]
  {
  }

  /** The body of the observation loop for one position: the piece on the start square,
      then, only when the pawn is there, the piece on the square ahead. */
  method ObservePosition(position: Board, color: Color, startSq: Square, aheadSq: Square)
    returns (isExposed: bool, hasFriendlyBlock: bool)
    requires startSq == SquareAt(F_FILE, HomeRank(color))
    requires aheadSq == SquareAt(F_FILE, HomeRank(color) + Forward(color))
    ensures isExposed == IsPawnExposed(position, F_FILE, color)
    ensures hasFriendlyBlock == FriendlyBlockAt(position, color)
  {
    var pawn := PieceAt(position, startSq);
    isExposed := pawn.Some? && pawn.value.kind == Pawn && pawn.value.color == color;
    if isExposed {
      var blocker := PieceAt(position, aheadSq);
      hasFriendlyBlock := blocker.Some? && blocker.value.color == color && blocker.value.kind != Pawn;
    } else {
      hasFriendlyBlock := false;
    }
  }

  /** The move-off scan: the first `t >= 1` with `exposed[t - 1] and not exposed[t]`. */
  method FindMoveOff(exposed: seq<bool>) returns (moveOffPly: Option<nat>)
    ensures moveOffPly == FirstFrom(MoveOffFlags(exposed), 1)
  {
    moveOffPly := None;
    var t := 1;
    while t < |exposed|
      invariant 1 <= t
      invariant forall s :: 1 <= s < t && s < |exposed| ==> !MoveOffFlags(exposed)[s]
    {
      if exposed[t - 1] && !exposed[t] {
        moveOffPly := Some(t);
        break;
      }
      t := t + 1;
    }
    FirstFromUnique(MoveOffFlags(exposed), 1, moveOffPly);
  }

  /** The block-start scan: the first ply with a friendly block. */
  method FindBlockStart(friendlyBlocks: seq<bool>) returns (blockStart: Option<nat>)
    ensures blockStart == FirstFrom(friendlyBlocks, 0)
  {
    blockStart := None;
    var t := 0;
    while t < |friendlyBlocks|
      invariant 0 <= t <= |friendlyBlocks|
      invariant forall s :: 0 <= s < t ==> !friendlyBlocks[s]
    {
      if friendlyBlocks[t] {
        blockStart := Some(t);
        break;
      }
      t := t + 1;
    }
    FirstFromUnique(friendlyBlocks, 0, blockStart);
  }

  /** The block-end scan: the first ply after `start` at which the pawn is gone or no longer
      blocked; the window length when the episode is censored. */
  method FindBlockEnd(exposed: seq<bool>, friendlyBlocks: seq<bool>, start: nat) returns (blockEnd: nat)
    requires |friendlyBlocks| == |exposed|
    ensures blockEnd == BlockEnd(exposed, friendlyBlocks, start)
  {
    blockEnd := |exposed|;
    var t := start + 1;
    while t < |exposed|
      invariant start + 1 <= t
      invariant forall s :: start + 1 <= s < t && s < |exposed| ==> !EpisodeEndFlags(exposed, friendlyBlocks)[s]
    {
      if !exposed[t] {
        blockEnd := t;
        break;
      }
      if exposed[t] && !friendlyBlocks[t] {
        blockEnd := t;
        break;
      }
      t := t + 1;
    }
    FirstFromUnique(EpisodeEndFlags(exposed, friendlyBlocks), start + 1,
                    if blockEnd == |exposed| then None else Some(blockEnd));
  }

  /** `classify_f_bucket_for_color`. The result does not depend on `maxPlies`, which the
      source accepts and ignores. */
  method ClassifyFBucketForColor(positions: seq<Board>, color: Color, maxPlies: int := 24) returns (bucket: Bucket)
    ensures bucket == BucketOf(positions, color)
  {
    var exposed, friendlyBlocks := ObserveFPawn(positions, color);
    assert BucketOf(positions, color) == Decide(positions, color, exposed, friendlyBlocks);
    var moveOffPly := FindMoveOff(exposed);

    var anyFriendlyBlock := true in friendlyBlocks;
    if moveOffPly.None? && !anyFriendlyBlock {
      return A1;
    }

    if moveOffPly.Some? && true !in friendlyBlocks[..moveOffPly.value] {
      var position := positions[moveOffPly.value];
      var oneAhead := SquareAt(F_FILE, if color == White then 2 else 5);
      var twoAhead := SquareAt(F_FILE, if color == White then 3 else 4);
      var pawnOnOne := PieceAt(position, oneAhead);
      var pawnOnTwo := PieceAt(position, twoAhead);
      if pawnOnOne.Some? && pawnOnOne.value.kind == Pawn && pawnOnOne.value.color == color {
        return A2;
      } else if pawnOnTwo.Some? && pawnOnTwo.value.kind == Pawn && pawnOnTwo.value.color == color {
        return A3;
      } else {
        return Other;
      }
    }

    var blockStart := FindBlockStart(friendlyBlocks);
    if blockStart.None? {
      return Other;
    }
    var blockEnd := FindBlockEnd(exposed, friendlyBlocks, blockStart.value);
    var duration := blockEnd - blockStart.value;
    bucket := if duration <= 2 then B4 else B5;
  }

  /** The two sides' buckets. */
  datatype Buckets = Buckets(white: Bucket, black: Bucket)

  /** `classify_f_buckets_from_pgn`: `None` when `read_game` finds no game (here: no game
      given), otherwise both sides' buckets over positions replayed with the same cap as
      the metrics. A malformed FEN raises, as `chess.Board(fen)` does. */
  method ClassifyFBucketsFromPgn(game: Option<Game>, push: (Board, Move) -> Board,
                                 parseFen: string -> Option<Board>, maxPlies: int := 24)
    returns (r: Result<Option<Buckets>>)
    ensures game.None? ==> r == Ok(None)
    ensures game.Some? && Metrics.InitialBoard(game.value.headers, parseFen).Err? ==>
      r == Err(Metrics.InitialBoard(game.value.headers, parseFen).error)
    ensures game.Some? && Metrics.InitialBoard(game.value.headers, parseFen).Ok? ==>
      var positions := Metrics.RetainedPositions(Metrics.InitialBoard(game.value.headers, parseFen).value,
                                                 game.value.moves, maxPlies, push);
      r == Ok(Some(Buckets(BucketOf(positions, White), BucketOf(positions, Black))))
  {
    if game.None? {
      return Ok(None);
    }
    var initial := Metrics.InitialBoard(game.value.headers, parseFen);
    if initial.Err? {
      return Err(initial.error);
    }
    var positions := Metrics.RetainPositions(initial.value, game.value.moves, maxPlies, push);
    var white := ClassifyFBucketForColor(positions, White, maxPlies);
    var black := ClassifyFBucketForColor(positions, Black, maxPlies);
    r := Ok(Some(Buckets(white, black)));
  }

  // ---------------------------------------------------------------- properties

  /** Both observation lists have one entry per position; a friendly block is only seen
      while the pawn is exposed, and it is the evaluator's friendly non-pawn flag. */
  lemma ObservationFacts(positions: seq<Board>, color: Color)
    ensures |ExposedSeq(positions, color)| == |BlockSeq(positions, color)| == |positions|
    ensures forall t :: 0 <= t < |positions| && BlockSeq(positions, color)[t] ==> ExposedSeq(positions, color)[t]
    ensures forall t :: 0 <= t < |positions| ==>
      BlockSeq(positions, color)[t] == (ExposedSeq(positions, color)[t] && BlockingInfo(positions[t], F_FILE, color).friendlyNonPawn)
  {
  }

  /** The pawn never leaves its start square within the window. */
  ghost predicate NeverMovesOff(positions: seq<Board>, color: Color) {
    forall t :: 1 <= t < |positions| ==> !(ExposedSeq(positions, color)[t - 1] && !ExposedSeq(positions, color)[t])
  }

  /** No retained ply shows a friendly block. */
  ghost predicate NeverBlocked(positions: seq<Board>, color: Color) {
    forall t :: 0 <= t < |positions| ==> !BlockSeq(positions, color)[t]
  }

  /** A1 exactly when the pawn never moves off and is never blocked by a friendly piece. */
  lemma A1Exactly(positions: seq<Board>, color: Color)
    ensures BucketOf(positions, color) == A1 <==> NeverMovesOff(positions, color) && NeverBlocked(positions, color)
  {
    var exposed := ExposedSeq(positions, color);
    var blocks := BlockSeq(positions, color);
    var moveOff := FirstFrom(MoveOffFlags(exposed), 1);
    if BucketOf(positions, color) == A1 {
      assert moveOff.None? && true !in blocks;
      forall t | 1 <= t < |positions| ensures !(exposed[t - 1] && !exposed[t]) {
        assert !MoveOffFlags(exposed)[t];
      }
    }
  }

  /** When the pawn's first move-off at ply `m` comes before any friendly block, the bucket
      is decided by where a pawn of the side stands at ply `m`: one square ahead gives A2,
      which takes precedence over two squares ahead, A3; otherwise `other`. */
  lemma MoveOffWithoutBlock(positions: seq<Board>, color: Color, m: nat)
    requires 1 <= m < |positions|
    requires ExposedSeq(positions, color)[m - 1] && !ExposedSeq(positions, color)[m]
    requires forall t :: 1 <= t < m ==> !(ExposedSeq(positions, color)[t - 1] && !ExposedSeq(positions, color)[t])
    requires forall t :: 0 <= t < m ==> !BlockSeq(positions, color)[t]
    ensures var one := PieceAt(positions[m], SquareAt(F_FILE, HomeRank(color) + Forward(color)));
      var two := PieceAt(positions[m], SquareAt(F_FILE, HomeRank(color) + 2 * Forward(color)));
      var pawn := Some(Piece(Pawn, color));
      && (BucketOf(positions, color) == A2 <==> one == pawn)
      && (BucketOf(positions, color) == A3 <==> one != pawn && two == pawn)
      && (BucketOf(positions, color) == Other <==> one != pawn && two != pawn)
  {
    var exposed := ExposedSeq(positions, color);
    var blocks := BlockSeq(positions, color);
    FirstFromUnique(MoveOffFlags(exposed), 1, Some(m));
    assert true !in blocks[..m];
  }

  /** The decision table reaches its block-episode part: neither A1 nor a clean move-off. */
  ghost predicate ReachesBlockBranch(positions: seq<Board>, color: Color) {
    var exposed := ExposedSeq(positions, color);
    var blocks := BlockSeq(positions, color);
    var moveOff := FirstFrom(MoveOffFlags(exposed), 1);
    && !(moveOff.None? && true !in blocks)
    && !(moveOff.Some? && true !in blocks[..moveOff.value])
  }

  /** The `block_start is None` fallback cannot be taken: whenever the block-episode part is
      reached, some ply shows a friendly block. */
  lemma FallbackUnreachable(positions: seq<Board>, color: Color)
    requires ReachesBlockBranch(positions, color)
    ensures FirstFrom(BlockSeq(positions, color), 0).Some?
  {
    var exposed := ExposedSeq(positions, color);
    var blocks := BlockSeq(positions, color);
    var moveOff := FirstFrom(MoveOffFlags(exposed), 1);
    var s :| 0 <= s < |blocks| && blocks[s] by {
      if moveOff.None? {
        assert true in blocks;
      } else {
        assert true in blocks[..moveOff.value];
      }
    }
    assert !IsFirstFrom(blocks, 0, None);
  }

  /** The first block episode: it starts at the first blocked ply, runs over blocked plies
      only, and ends at the first later ply without a friendly block, or at the window's
      end; so its duration lies in `[1, len(positions) - start]`. B4 for a duration of at
      most 2, B5 otherwise, and these two buckets arise from this part of the table only. */
  lemma BlockEpisode(positions: seq<Board>, color: Color)
    requires ReachesBlockBranch(positions, color)
    ensures FirstFrom(BlockSeq(positions, color), 0).Some?
    ensures var blocks := BlockSeq(positions, color);
      var start := FirstFrom(blocks, 0).value;
      var end := BlockEnd(ExposedSeq(positions, color), blocks, start);
      && blocks[start] && (forall t :: 0 <= t < start ==> !blocks[t])
      && 1 <= end - start <= |positions| - start
      && (forall t :: start < t < end ==> blocks[t])
      && (end < |positions| ==> !blocks[end])
      && (BucketOf(positions, color) == B4 <==> end - start <= 2)
      && (BucketOf(positions, color) == B5 <==> end - start > 2)
  {
    FallbackUnreachable(positions, color);
    ObservationFacts(positions, color);
    var exposed := ExposedSeq(positions, color);
    var blocks := BlockSeq(positions, color);
    EpisodeShape(exposed, blocks, FirstFrom(blocks, 0).value);
  }

  /** On the flags alone: an episode that starts on a blocked ply runs over blocked plies
      and ends on an unblocked one or at the end, given that a block implies exposure. */
  lemma EpisodeShape(exposed: seq<bool>, blocks: seq<bool>, start: nat)
    requires |exposed| == |blocks| && start < |blocks| && blocks[start]
    requires forall t :: 0 <= t < |blocks| && blocks[t] ==> exposed[t]
    ensures var end := BlockEnd(exposed, blocks, start);
      && 1 <= end - start <= |blocks| - start
      && (forall t :: start < t < end ==> blocks[t])
      && (end < |blocks| ==> !blocks[end])
  {
    var flags := EpisodeEndFlags(exposed, blocks);
    forall t | start < t < BlockEnd(exposed, blocks, start) ensures blocks[t] {
      assert !flags[t];
    }
  }

  /** B4 or B5 exactly when the block-episode part of the table is reached. */
  lemma BlockBucketsExactly(positions: seq<Board>, color: Color)
    ensures BucketOf(positions, color) in {B4, B5} <==> ReachesBlockBranch(positions, color)
  {
    if ReachesBlockBranch(positions, color) {
      FallbackUnreachable(positions, color);
    }
  }

  // ---------------------------------------------------------------- scenarios

  /** The two flags of a board on the squares of the f-pawn: f2 and f3 for white, f7 and f6
      for black. */
  lemma FFlags(b: Board, color: Color)
    ensures var start := if color == White then 13 else 53;
      IsPawnExposed(b, F_FILE, color) <==> start in b && b[start] == Piece(Pawn, color)
    ensures var ahead := if color == White then 21 else 45;
      FriendlyBlockAt(b, color) <==>
        IsPawnExposed(b, F_FILE, color) && ahead in b && b[ahead].color == color && b[ahead].kind != Pawn
  {
  }

  /** The squares of the starting position the scenarios use. */
  lemma StartingSquares()
    ensures var s0 := StartingBoard();
      && s0[13] == Piece(Pawn, White) && s0[53] == Piece(Pawn, Black)
      && s0[6] == Piece(Knight, White) && s0[62] == Piece(Knight, Black)
      && s0[11] == Piece(Pawn, White) && s0[12] == Piece(Pawn, White) && s0[52] == Piece(Pawn, Black)
      && 21 !in s0 && 45 !in s0 && 29 !in s0 && 37 !in s0 && 38 !in s0
      && 44 !in s0 && 28 !in s0 && 27 !in s0
  {
    var s0 := StartingBoard();
    assert StartingPiece(13) == Piece(Pawn, White) && StartingPiece(53) == Piece(Pawn, Black);
    assert StartingPiece(6) == Piece(Knight, White) && StartingPiece(62) == Piece(Knight, Black);
    assert StartingPiece(11) == Piece(Pawn, White) && StartingPiece(12) == Piece(Pawn, White);
    assert StartingPiece(52) == Piece(Pawn, Black);
  }

  /** After 1. f3 (ply cap at least 2): white A2, black A1. */
  lemma ScenarioF3()
    ensures var positions := [StartingBoard(), Shift(StartingBoard(), 13, 21)];
      BucketOf(positions, White) == A2 && BucketOf(positions, Black) == A1
  {
    var s0 := StartingBoard();
    var s1 := Shift(s0, 13, 21);
    var positions := [s0, s1];
    StartingSquares();
    FFlags(s0, White); FFlags(s1, White); FFlags(s0, Black); FFlags(s1, Black);
    assert ExposedSeq(positions, White) == [true, false];
    assert BlockSeq(positions, White) == [false, false];
    assert ExposedSeq(positions, Black) == [true, true];
    assert BlockSeq(positions, Black) == [false, false];
    DecideTwoPlies(positions, White);
    DecideTwoPlies(positions, Black);
  }

  /** The decisions on the observations of a two-ply window, whatever the boards. */
  lemma DecideTwoPlies(positions: seq<Board>, color: Color)
    requires |positions| == 2
    ensures Decide(positions, color, [true, false], [false, false]) == Landing(positions[1], color)
    ensures Decide(positions, color, [true, true], [false, false]) == A1
  {
    FirstFromUnique(MoveOffFlags([true, false]), 1, Some(1));
    FirstFromUnique(MoveOffFlags([true, true]), 1, None);
  }

  /** After 1. f4 f5 (ply cap at least 3): both sides A3. */
  lemma ScenarioF4F5()
    ensures var s1 := Shift(StartingBoard(), 13, 29);
      var positions := [StartingBoard(), s1, Shift(s1, 53, 37)];
      BucketOf(positions, White) == A3 && BucketOf(positions, Black) == A3
  {
    var s0 := StartingBoard();
    var s1 := Shift(s0, 13, 29);
    var s2 := Shift(s1, 53, 37);
    var positions := [s0, s1, s2];
    StartingSquares();
    FFlags(s0, White); FFlags(s1, White); FFlags(s2, White);
    FFlags(s0, Black); FFlags(s1, Black); FFlags(s2, Black);
    assert 13 !in s1 && 13 !in s2 && s1[53] == Piece(Pawn, Black) && 53 !in s2;
    assert 21 !in s1 && s1[29] == Piece(Pawn, White);
    assert 45 !in s2 && s2[37] == Piece(Pawn, Black);
    assert Landing(s1, White) == A3 && Landing(s2, Black) == A3;
    assert ExposedSeq(positions, White) == [true, false, false];
    assert BlockSeq(positions, White) == [false, false, false];
    assert ExposedSeq(positions, Black) == [true, true, false];
    assert BlockSeq(positions, Black) == [false, false, false];
    DecideThreePlies(positions, White);
    DecideThreePlies(positions, Black);
  }

  /** The decisions on the observations of a three-ply window, whatever the boards. */
  lemma DecideThreePlies(positions: seq<Board>, color: Color)
    requires |positions| == 3
    ensures Decide(positions, color, [true, false, false], [false, false, false]) == Landing(positions[1], color)
    ensures Decide(positions, color, [true, true, false], [false, false, false]) == Landing(positions[2], color)
  {
    FirstFromUnique(MoveOffFlags([true, false, false]), 1, Some(1));
    FirstFromUnique(MoveOffFlags([true, true, false]), 1, Some(2));
  }

  /** 1. Nf3 e6 2. Ng5: the knight blocks f2 for two plies, white B4. */
  lemma ScenarioShortBlock()
    ensures var s1 := Shift(StartingBoard(), 6, 21);
      var s2 := Shift(s1, 52, 44);
      BucketOf([StartingBoard(), s1, s2, Shift(s2, 21, 38)], White) == B4
  {
    var s0 := StartingBoard();
    var s1 := Shift(s0, 6, 21);
    var s2 := Shift(s1, 52, 44);
    var s3 := Shift(s2, 21, 38);
    var positions := [s0, s1, s2, s3];
    StartingSquares();
    FFlags(s0, White); FFlags(s1, White); FFlags(s2, White); FFlags(s3, White);
    assert ExposedSeq(positions, White) == [true, true, true, true];
    assert BlockSeq(positions, White) == [false, true, true, false];
    ShortBlockDecision(positions, White);
  }

  /** The decision on the observations of the short-block game, whatever the boards. */
  lemma ShortBlockDecision(positions: seq<Board>, color: Color)
    requires |positions| == 4
    ensures Decide(positions, color, [true, true, true, true], [false, true, true, false]) == B4
  {
    var exposed := [true, true, true, true];
    var blocks := [false, true, true, false];
    FirstFromUnique(MoveOffFlags(exposed), 1, None);
    FirstFromUnique(blocks, 0, Some(1));
    FirstFromUnique(EpisodeEndFlags(exposed, blocks), 2, Some(3));
  }

  /** The boards of 1. Nf3 e6 2. e4 Nf6 3. d4. */
  function LongBlockGame(): seq<Board> {
    StartingSquares();
    var s1 := Shift(StartingBoard(), 6, 21);
    var s2 := Shift(s1, 52, 44);
    var s3 := Shift(s2, 12, 28);
    var s4 := Shift(s3, 62, 45);
    [StartingBoard(), s1, s2, s3, s4, Shift(s4, 11, 27)]
  }

  lemma LongBlockObservations()
    ensures ExposedSeq(LongBlockGame(), White) == [true, true, true, true, true, true]
    ensures BlockSeq(LongBlockGame(), White) == [false, true, true, true, true, true]
  {
    StartingSquares();
    var positions := LongBlockGame();
    var knight := Piece(Knight, White);
    var pawn := Piece(Pawn, White);
    assert positions[1][13] == pawn && positions[1][21] == knight;
    assert positions[2][13] == pawn && positions[2][21] == knight;
    assert positions[3][13] == pawn && positions[3][21] == knight;
    assert positions[4][13] == pawn && positions[4][21] == knight;
    assert positions[5][13] == pawn && positions[5][21] == knight;
    forall t | 0 <= t < 6
      ensures ExposedSeq(positions, White)[t]
      ensures BlockSeq(positions, White)[t] == (t != 0)
    {
      FFlags(positions[t], White);
    }
  }

  /** 1. Nf3 e6 2. e4 Nf6 3. d4: the knight stays on f3 to the end of the window, white B5. */
  lemma ScenarioLongBlock()
    ensures BucketOf(LongBlockGame(), White) == B5
  {
    LongBlockObservations();
    LongBlockDecision(LongBlockGame(), White);
  }

  /** The decision on the observations of the long-block game, whatever the boards. */
  lemma LongBlockDecision(positions: seq<Board>, color: Color)
    requires |positions| == 6
    ensures Decide(positions, color, [true, true, true, true, true, true], [false, true, true, true, true, true]) == B5
  {
    var exposed := [true, true, true, true, true, true];
    var blocks := [false, true, true, true, true, true];
    FirstFromUnique(MoveOffFlags(exposed), 1, None);
    FirstFromUnique(blocks, 0, Some(1));
    FirstFromUnique(EpisodeEndFlags(exposed, blocks), 2, None);
  }
}
