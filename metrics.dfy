/**
 * SPBTS metrics for one game: replay the moves up to a ply cap, evaluate every
 * retained position for both sides and all eight files, record one trace row
 * per combination, tally per-side counters and reduce them to rates.
 */
module Metrics {
  import opened Wrappers
  import opened Chess
  import opened BoardAnalysis

  // ---------------------------------------------------------------- replay

  /** The positions met while playing `moves` from `initial`, `initial` first. */
  function Run(initial: Board, moves: seq<Move>, push: (Board, Move) -> Board): (r: seq<Board>)
    ensures |r| == |moves| + 1
    decreases |moves|
  {
    if moves == [] then [initial]
    else
      var before := Run(initial, moves[..|moves| - 1], push);
      before + [push(before[|before| - 1], moves[|moves| - 1])]
  }

  /** How many moves the replay plays: the loop stops at move index `max_plies - 1`. */
  function RetainedMoves(moveCount: nat, maxPlies: int): nat {
    var cap := if maxPlies - 1 > 0 then maxPlies - 1 else 0;
    if moveCount < cap then moveCount else cap
  }

  /** The position list the replay builds. */
  function RetainedPositions(initial: Board, moves: seq<Move>, maxPlies: int, push: (Board, Move) -> Board): seq<Board> {
    Run(initial, moves[..RetainedMoves(|moves|, maxPlies)], push)
  }

  /** Whether the header tags ask for a custom starting position. */
  predicate HasCustomSetup(headers: map<string, string>) {
    "SetUp" in headers && headers["SetUp"] == "1" && "FEN" in headers
  }

  /** The board the replay starts from: the FEN board under `SetUp "1"` with a FEN
      tag, otherwise the standard position. `parseFen` stands for `chess.Board(fen)`,
      `None` for the ValueError it raises on a malformed FEN. */
  function InitialBoard(headers: map<string, string>, parseFen: string -> Option<Board>): (r: Result<Board>)
    ensures !HasCustomSetup(headers) ==> r == Ok(StartingBoard())
    ensures HasCustomSetup(headers) ==> (r.Ok? <==> parseFen(headers["FEN"]).Some?)
    ensures HasCustomSetup(headers) && r.Ok? ==> r.value == parseFen(headers["FEN"]).value
  {
    if HasCustomSetup(headers) then
      match parseFen(headers["FEN"])
      case None => Err("invalid FEN")
      case Some(b) => Ok(b)
    else Ok(StartingBoard())
  }

  /** The replay loop of `calculate_spbts_for_game` (and its copy in
      `classify_f_buckets_from_pgn`): `board.push` each move, keeping a copy,
      until `max_plies` positions are kept or the moves run out. */
  method RetainPositions(initial: Board, moves: seq<Move>, maxPlies: int, push: (Board, Move) -> Board)
    returns (positions: seq<Board>)
    ensures positions == RetainedPositions(initial, moves, maxPlies, push)
  {
    var board := initial;
    positions := [board];
    var i := 0;
    while i < |moves|
      invariant 0 <= i <= |moves|
      invariant i <= if maxPlies - 1 > 0 then maxPlies - 1 else 0
      invariant positions == Run(initial, moves[..i], push)
      invariant board == positions[|positions| - 1]
    {
      if i >= maxPlies - 1 {
        break;
      }
      assert moves[..i + 1][..i] == moves[..i];
      board := push(board, moves[i]);
      positions := positions + [board];
      i := i + 1;
    }
  }

  /** `Run` starts at `initial` and each position is the previous one with the next move pushed. */
  lemma {:induction false} RunSteps(initial: Board, moves: seq<Move>, push: (Board, Move) -> Board)
    ensures Run(initial, moves, push)[0] == initial
    ensures forall i :: 0 <= i < |moves| ==> Run(initial, moves, push)[i + 1] == push(Run(initial, moves, push)[i], moves[i])
    decreases |moves|
  {
    if moves != [] {
      var init := moves[..|moves| - 1];
      RunSteps(initial, init, push);
      forall i | 0 <= i < |moves|
        ensures Run(initial, moves, push)[i + 1] == push(Run(initial, moves, push)[i], moves[i])
      {
        if i < |moves| - 1 {
          assert moves[i] == init[i];
        }
      }
    }
  }

  /** The retained list holds `1 + min(len(moves), max(max_plies - 1, 0))` positions, which
      is `min(len(moves) + 1, max_plies)` for a cap of at least one; it starts at the
      initial board and follows the moves one push at a time. */
  lemma RetainedShape(initial: Board, moves: seq<Move>, maxPlies: int, push: (Board, Move) -> Board)
    ensures var ps := RetainedPositions(initial, moves, maxPlies, push);
      && |ps| == 1 + RetainedMoves(|moves|, maxPlies)
      && (maxPlies >= 1 ==> |ps| == if |moves| + 1 < maxPlies then |moves| + 1 else maxPlies)
      && ps[0] == initial
      && forall i :: 0 <= i < |ps| - 1 ==> ps[i + 1] == push(ps[i], moves[i])
  {
    var k := RetainedMoves(|moves|, maxPlies);
    RunSteps(initial, moves[..k], push);
  }

  // ---------------------------------------------------------------- trace

  /** One trace row; the flags are 0 or 1 as in the source's DataFrame. */
  datatype TraceRow = TraceRow(
    ply: nat, color: Color, file: FileIndex,
    exposed: nat, friendlyNpBlock: nat, enemyBlock: nat, anyBlock: nat,
    blockerPiece: Option<char>)
  {
    /** The row's `file` column. */
    function FileLetter(): char {
      FILES[file]
    }

    /** What every row of the trace satisfies: 0/1 flags, all zero when the pawn is
        not exposed, and the friendly and enemy flags exclusive and within `any`. */
    predicate Coherent() {
      && exposed <= 1 && anyBlock <= 1
      && friendlyNpBlock + enemyBlock <= anyBlock <= exposed
      && (exposed == 0 ==> blockerPiece.None?)
    }
  }

  function Flag(b: bool): nat {
    if b then 1 else 0
  }

  /** The row recorded for one position, side and file. */
  function Row(position: Board, ply: nat, color: Color, file: FileIndex): (r: TraceRow)
    ensures r.Coherent() && r.ply == ply && r.color == color && r.file == file
    ensures r.exposed == Flag(IsPawnExposed(position, file, color))
    ensures var info := BlockingInfo(position, file, color);
      r.exposed == 1 ==>
        && r.friendlyNpBlock == Flag(info.friendlyNonPawn) && r.enemyBlock == Flag(info.enemy)
        && r.anyBlock == Flag(info.anyBlock)
        && r.blockerPiece == (if info.blocker.Some? then Some(info.blocker.value.Symbol()) else None)
  {
    if IsPawnExposed(position, file, color) then
      var info := BlockingInfo(position, file, color);
      TraceRow(ply, color, file, 1, Flag(info.friendlyNonPawn), Flag(info.enemy), Flag(info.anyBlock),
               if info.blocker.Some? then Some(info.blocker.value.Symbol()) else None)
    else
      TraceRow(ply, color, file, 0, 0, 0, 0, None)
  }

  /** The rows for files `0 .. n-1` of one side at one ply. */
  function FileRows(position: Board, ply: nat, color: Color, n: nat): seq<TraceRow>
    requires n <= 8
  {
    seq(n, f requires 0 <= f < n => Row(position, ply, color, f))
  }

  /** The rows of the sides done so far (white, then black) at one ply. */
  function SideRows(position: Board, ply: nat, sidesDone: nat): seq<TraceRow> {
    if sidesDone == 0 then []
    else if sidesDone == 1 then FileRows(position, ply, White, 8)
    else FileRows(position, ply, White, 8) + FileRows(position, ply, Black, 8)
  }

  /** The full trace of a position list: by ply, then white before black, then files a to h. */
  function Trace(positions: seq<Board>): seq<TraceRow>
    decreases |positions|
  {
    if positions == [] then []
    else
      var n := |positions| - 1;
      Trace(positions[..n]) + SideRows(positions[n], n, 2)
  }

  /** The position in the trace of the row for ply `i`, side `c` and file `f`. */
  function RowIndex(i: nat, c: Color, f: FileIndex): nat {
    16 * i + (if c == White then 0 else 8) + f
  }

  /** The trace has `16 * len(positions)` rows, and the row at `RowIndex(i, c, f)` is
      the evaluation of position `i` for side `c` and file `f`. */
  lemma {:induction false} TraceLayout(positions: seq<Board>)
    ensures |Trace(positions)| == 16 * |positions|
    ensures forall i, c, f :: 0 <= i < |positions| ==>
      Trace(positions)[RowIndex(i, c, f)] == Row(positions[i], i, c, f)
    decreases |positions|
  {
    if positions != [] {
      var n := |positions| - 1;
      var prefix := positions[..n];
      TraceLayout(prefix);
      var rows := SideRows(positions[n], n, 2);
      assert Trace(positions) == Trace(prefix) + rows;
      assert |rows| == 16;
      forall i, c, f | 0 <= i < |positions|
        ensures Trace(positions)[RowIndex(i, c, f)] == Row(positions[i], i, c, f)
      {
        if i < n {
          assert positions[i] == prefix[i];
        } else {
          assert Trace(positions)[RowIndex(i, c, f)] == rows[RowIndex(i, c, f) - 16 * n];
        }
      }
    }
  }

  /** Every row of the trace is coherent and names a retained ply. */
  lemma {:induction false} TraceRowsCoherent(positions: seq<Board>)
    ensures forall k :: 0 <= k < |Trace(positions)| ==>
      Trace(positions)[k].Coherent() && Trace(positions)[k].ply < |positions|
    decreases |positions|
  {
    if positions != [] {
      var n := |positions| - 1;
      TraceRowsCoherent(positions[..n]);
    }
  }

  // ---------------------------------------------------------------- counters

  /** A side's counters: the `aggregates` entries and the two per-file lists. */
  datatype Tally = Tally(
    exposure: nat, friendlyNp: nat, enemy: nat, any: nat,
    perFileExposure: seq<nat>, perFileFriendlyBlocks: seq<nat>)
  {
    predicate WellShaped() {
      |perFileExposure| == 8 && |perFileFriendlyBlocks| == 8
    }
  }

  const ZEROS: seq<nat> := [0, 0, 0, 0, 0, 0, 0, 0]

  const EMPTY_TALLY: Tally := Tally(0, 0, 0, 0, ZEROS, ZEROS)

  /** What one row adds to its side's counters. */
  function Count(t: Tally, r: TraceRow): Tally
    requires t.WellShaped()
  {
    if r.exposed == 0 then t
    else
      Tally(t.exposure + 1, t.friendlyNp + r.friendlyNpBlock, t.enemy + r.enemyBlock, t.any + r.anyBlock,
            t.perFileExposure[r.file := t.perFileExposure[r.file] + 1],
            t.perFileFriendlyBlocks[r.file := t.perFileFriendlyBlocks[r.file] + r.friendlyNpBlock])
  }

  /** The counters of one side after the given rows. */
  function TallyOf(rows: seq<TraceRow>, color: Color): (t: Tally)
    ensures t.WellShaped()
    decreases |rows|
  {
    if rows == [] then EMPTY_TALLY
    else
      var prev := TallyOf(rows[..|rows| - 1], color);
      var last := rows[|rows| - 1];
      if last.color == color then Count(prev, last) else prev
  }

  /** The number of exposed rows of a side. */
  function ExposedRows(rows: seq<TraceRow>, color: Color): nat
    decreases |rows|
  {
    if rows == [] then 0
    else
      var last := rows[|rows| - 1];
      ExposedRows(rows[..|rows| - 1], color) + (if last.color == color && last.exposed == 1 then 1 else 0)
  }

  function Sum(s: seq<nat>): nat {
    if s == [] then 0 else s[0] + Sum(s[1..])
  }

  lemma {:induction false} SumBump(s: seq<nat>, i: nat, d: nat)
    requires i < |s|
    ensures Sum(s[i := s[i] + d]) == Sum(s) + d
  {
    if i > 0 {
      assert s[i := s[i] + d][1..] == s[1..][i - 1 := s[1..][i - 1] + d];
      SumBump(s[1..], i - 1, d);
    }
  }

  /** The counter relations that hold for any run of coherent rows. */
  ghost predicate Consistent(t: Tally) {
    && t.WellShaped()
    && t.friendlyNp + t.enemy <= t.any <= t.exposure
    && t.exposure == Sum(t.perFileExposure)
    && t.friendlyNp == Sum(t.perFileFriendlyBlocks)
    && forall i :: 0 <= i < 8 ==> t.perFileFriendlyBlocks[i] <= t.perFileExposure[i]
  }

  /** Over coherent rows, a side's `exposure` counts its exposed rows and is the sum of the
      per-file exposures; `friendly_np + enemy <= any <= exposure`; and no file has more
      friendly blocks than exposures. */
  lemma {:induction false} TallyInvariants(rows: seq<TraceRow>, color: Color)
    requires forall k :: 0 <= k < |rows| ==> rows[k].Coherent()
    ensures Consistent(TallyOf(rows, color))
    ensures TallyOf(rows, color).exposure == ExposedRows(rows, color)
    decreases |rows|
  {
    if rows != [] {
      var init := rows[..|rows| - 1];
      TallyInvariants(init, color);
      var last := rows[|rows| - 1];
      if last.color == color {
        CountKeepsConsistent(TallyOf(init, color), last);
      }
    }
  }

  /** Counting one coherent row keeps the counter relations. */
  lemma CountKeepsConsistent(t: Tally, r: TraceRow)
    requires Consistent(t) && r.Coherent()
    ensures Consistent(Count(t, r))
  {
    if r.exposed == 1 {
      SumBump(t.perFileExposure, r.file, 1);
      SumBump(t.perFileFriendlyBlocks, r.file, r.friendlyNpBlock);
    }
  }

  // ---------------------------------------------------------------- summary

  /** One side's summary; `None` stands for the source's `None` (undefined, not zero). */
  datatype SideSummary = SideSummary(
    exposure: nat,
    spbtsFriendlyNp: Option<real>, spbtsEnemy: Option<real>, spbtsAny: Option<real>,
    perFileFriendlyNp: Option<seq<Option<real>>>)

  datatype Summary = Summary(white: SideSummary, black: SideSummary)

  /** The rate of `n` over a positive denominator `d`. */
  function Rate(n: nat, d: nat): real
    requires d > 0
  {
    n as real / d as real
  }

  /** `summarize_side`: no rate at all when nothing was exposed; otherwise each rate
      is its count over `exposure`, and a file's rate is undefined exactly when that
      file was never exposed. */
  function SummarizeSide(t: Tally): (s: SideSummary)
    requires t.WellShaped()
    ensures s.exposure == t.exposure
    ensures t.exposure == 0 <==> s.spbtsFriendlyNp.None?
    ensures t.exposure == 0 ==> s.spbtsEnemy.None? && s.spbtsAny.None? && s.perFileFriendlyNp.None?
    ensures t.exposure > 0 ==>
      && s.spbtsFriendlyNp.Some? && s.spbtsEnemy.Some? && s.spbtsAny.Some? && s.perFileFriendlyNp.Some?
      && s.spbtsFriendlyNp.value * t.exposure as real == t.friendlyNp as real
      && s.spbtsEnemy.value * t.exposure as real == t.enemy as real
      && s.spbtsAny.value * t.exposure as real == t.any as real
    ensures s.perFileFriendlyNp.Some? ==>
      && |s.perFileFriendlyNp.value| == 8
      && forall i :: 0 <= i < 8 ==>
        && (s.perFileFriendlyNp.value[i].None? <==> t.perFileExposure[i] == 0)
        && (s.perFileFriendlyNp.value[i].Some? ==>
              s.perFileFriendlyNp.value[i].value * t.perFileExposure[i] as real == t.perFileFriendlyBlocks[i] as real)
  {
    if t.exposure == 0 then SideSummary(0, None, None, None, None)
    else
      var perFile := seq(8, i requires 0 <= i < 8 =>
        if t.perFileExposure[i] > 0 then Some(Rate(t.perFileFriendlyBlocks[i], t.perFileExposure[i])) else None);
      SideSummary(t.exposure, Some(Rate(t.friendlyNp, t.exposure)), Some(Rate(t.enemy, t.exposure)),
                  Some(Rate(t.any, t.exposure)), Some(perFile))
  }

  /** Every rate a summary defines lies in [0, 1]. */
  predicate UnitRates(s: SideSummary) {
    && (s.spbtsFriendlyNp.Some? ==> 0.0 <= s.spbtsFriendlyNp.value <= 1.0)
    && (s.spbtsEnemy.Some? ==> 0.0 <= s.spbtsEnemy.value <= 1.0)
    && (s.spbtsAny.Some? ==> 0.0 <= s.spbtsAny.value <= 1.0)
    && (s.perFileFriendlyNp.Some? ==>
          forall i :: 0 <= i < |s.perFileFriendlyNp.value| && s.perFileFriendlyNp.value[i].Some? ==>
            0.0 <= s.perFileFriendlyNp.value[i].value <= 1.0)
  }

  /** For counters that hold the trace relations, every defined rate lies in [0, 1]. */
  lemma RatesInUnitInterval(t: Tally)
    requires Consistent(t)
    ensures UnitRates(SummarizeSide(t))
  {
    var s := SummarizeSide(t);
    if t.exposure > 0 {
      UnitRate(t.friendlyNp, t.exposure);
      UnitRate(t.enemy, t.exposure);
      UnitRate(t.any, t.exposure);
      forall i | 0 <= i < 8 && t.perFileExposure[i] > 0
        ensures 0.0 <= Rate(t.perFileFriendlyBlocks[i], t.perFileExposure[i]) <= 1.0
      {
        UnitRate(t.perFileFriendlyBlocks[i], t.perFileExposure[i]);
      }
    }
  }

  /** What the trace of any position list guarantees about each side's counters and
      rates: the counter relations hold, `exposure` counts the exposed rows, and every
      defined rate lies in [0, 1]. */
  lemma {:induction false} TraceSummary(positions: seq<Board>, color: Color)
    ensures var t := TallyOf(Trace(positions), color);
      && Consistent(t) && t.exposure == ExposedRows(Trace(positions), color)
      && UnitRates(SummarizeSide(t))
  {
    TraceRowsCoherent(positions);
    TallyInvariants(Trace(positions), color);
    RatesInUnitInterval(TallyOf(Trace(positions), color));
  }

  lemma UnitRate(n: nat, d: nat)
    requires 0 < d && n <= d
    ensures 0.0 <= Rate(n, d) <= 1.0
  {
    assert Rate(n, d) * d as real == n as real;
  }

  // ---------------------------------------------------------------- the game loop

  /** Both sides' counters as the `aggregates` dictionary holds them. */
  function Aggregates(rows: seq<TraceRow>): map<Color, Tally> {
    map[White := TallyOf(rows, White), Black := TallyOf(rows, Black)]
  }

  /** The body of the triple loop for one side and file: bump the side's counters when
      its pawn is exposed, and build the row. */
  method RecordRow(position: Board, ply: nat, color: Color, file: FileIndex, aggregates: map<Color, Tally>)
    returns (row: TraceRow, aggregates': map<Color, Tally>)
    requires color in aggregates && aggregates[color].WellShaped()
    ensures row == Row(position, ply, color, file)
    ensures aggregates' == aggregates[color := Count(aggregates[color], row)]
  {
    aggregates' := aggregates;
    if IsPawnExposed(position, file, color) {
      var t := aggregates[color];
      t := t.(exposure := t.exposure + 1, perFileExposure := t.perFileExposure[file := t.perFileExposure[file] + 1]);
      var info := BlockingInfo(position, file, color);
      if info.friendlyNonPawn {
        t := t.(friendlyNp := t.friendlyNp + 1,
                perFileFriendlyBlocks := t.perFileFriendlyBlocks[file := t.perFileFriendlyBlocks[file] + 1]);
      }
      if info.enemy {
        t := t.(enemy := t.enemy + 1);
      }
      if info.anyBlock {
        t := t.(any := t.any + 1);
      }
      aggregates' := aggregates[color := t];
      var s := aggregates[color].perFileFriendlyBlocks;
      assert !info.friendlyNonPawn ==> s[file := s[file] + 0] == s;
      row := TraceRow(ply, color, file, 1, Flag(info.friendlyNonPawn), Flag(info.enemy), Flag(info.anyBlock),
                      if info.blocker.Some? then Some(info.blocker.value.Symbol()) else None);
    } else {
      row := TraceRow(ply, color, file, 0, 0, 0, 0, None);
    }
  }

  /** The innermost loop for one side at one ply: a row per file, a to h. */
  method RecordSide(position: Board, ply: nat, color: Color, trace: seq<TraceRow>, aggregates: map<Color, Tally>)
    returns (trace': seq<TraceRow>, aggregates': map<Color, Tally>)
    requires aggregates == Aggregates(trace)
    ensures trace' == trace + FileRows(position, ply, color, 8)
    ensures aggregates' == Aggregates(trace')
  {
    trace', aggregates' := trace, aggregates;
    var file := 0;
    while file < 8
      invariant 0 <= file <= 8
      invariant trace' == trace + FileRows(position, ply, color, file)
      invariant aggregates' == Aggregates(trace')
    {
      var row;
      row, aggregates' := RecordRow(position, ply, color, file, aggregates');
      AggregatesStep(trace', row);
      FileRowsStep(trace, position, ply, color, file + 1);
      trace' := trace' + [row];
      file := file + 1;
    }
  }

  /** The triple loop of `calculate_spbts_for_game`: every retained position, white then
      black, files a to h; one row appended and the side's counters bumped per step. */
  method BuildTrace(positions: seq<Board>) returns (trace: seq<TraceRow>, aggregates: map<Color, Tally>)
    ensures trace == Trace(positions)
    ensures aggregates == Aggregates(trace)
  {
    trace := [];
    aggregates := map[White := EMPTY_TALLY, Black := EMPTY_TALLY];
    var ply := 0;
    while ply < |positions|
      invariant 0 <= ply <= |positions|
      invariant trace == Trace(positions[..ply])
      invariant aggregates == Aggregates(trace)
    {
      var position := positions[ply];
      var colors := [White, Black];
      ghost var before := trace;
      var ci := 0;
      while ci < 2
        invariant 0 <= ci <= 2
        invariant trace == before + SideRows(position, ply, ci)
        invariant aggregates == Aggregates(trace)
      {
        trace, aggregates := RecordSide(position, ply, colors[ci], trace, aggregates);
        ci := ci + 1;
      }
      assert positions[..ply + 1][..ply] == positions[..ply];
      ply := ply + 1;
    }
    assert positions[..ply] == positions;
  }

  /** Appending one row updates the aggregates of its side by `Count`. */
  lemma AggregatesStep(rows: seq<TraceRow>, row: TraceRow)
    ensures Aggregates(rows + [row]) == Aggregates(rows)[row.color := Count(TallyOf(rows, row.color), row)]
  {
    AppendRow(rows, row);
  }

  /** Appending one row bumps its own side's counters by `Count` and leaves the other side's. */
  lemma AppendRow(rows: seq<TraceRow>, row: TraceRow)
    ensures TallyOf(rows + [row], row.color) == Count(TallyOf(rows, row.color), row)
    ensures TallyOf(rows + [row], row.color.Opponent()) == TallyOf(rows, row.color.Opponent())
  {
    assert (rows + [row])[..|rows|] == rows;
  }

  /** `calculate_spbts_for_game`: `None` for the game stands for `read_game` finding no
      game, which raises "Invalid PGN"; otherwise the summary and trace of the retained
      positions. */
  method CalculateSpbtsForGame(game: Option<Game>, push: (Board, Move) -> Board,
                               parseFen: string -> Option<Board>, maxPlies: int := 24)
    returns (r: Result<(Summary, seq<TraceRow>)>)
    ensures game.None? ==> r == Err("Invalid PGN")
    ensures game.Some? && InitialBoard(game.value.headers, parseFen).Err? ==>
      r == Err(InitialBoard(game.value.headers, parseFen).error)
    ensures game.Some? && InitialBoard(game.value.headers, parseFen).Ok? ==>
      var positions := RetainedPositions(InitialBoard(game.value.headers, parseFen).value, game.value.moves, maxPlies, push);
      var trace := Trace(positions);
      r == Ok((Summary(SummarizeSide(TallyOf(trace, White)), SummarizeSide(TallyOf(trace, Black))), trace))
    ensures r.Ok? ==> UnitRates(r.value.0.white) && UnitRates(r.value.0.black)
  {
    if game.None? {
      return Err("Invalid PGN");
    }
    var initial := InitialBoard(game.value.headers, parseFen);
    if initial.Err? {
      return Err(initial.error);
    }
    var positions := RetainPositions(initial.value, game.value.moves, maxPlies, push);
    var trace, aggregates := BuildTrace(positions);
    TraceSummary(positions, White);
    TraceSummary(positions, Black);
    var summary := Summary(SummarizeSide(aggregates[White]), SummarizeSide(aggregates[Black]));
    r := Ok((summary, trace));
  }

  // ---------------------------------------------------------------- scenario

  /** The per-file exposure list after files `0 .. n-1` were exposed once each. */
  function FirstFiles(n: nat): seq<nat> {
    seq(8, i requires 0 <= i < 8 => if i < n then 1 else 0)
  }

  /** Rows of the other side leave a side's counters alone. */
  lemma {:induction false} OtherSideIgnored(rows: seq<TraceRow>, more: seq<TraceRow>, color: Color)
    requires forall k :: 0 <= k < |more| ==> more[k].color != color
    ensures TallyOf(rows + more, color) == TallyOf(rows, color)
    decreases |more|
  {
    if more == [] {
      assert rows + more == rows;
    } else {
      var init := more[..|more| - 1];
      var last := more[|more| - 1];
      assert forall k :: 0 <= k < |init| ==> init[k] == more[k];
      OtherSideIgnored(rows, init, color);
      assert rows + more == (rows + init) + [last];
      AppendRow(rows + init, last);
      assert last.color.Opponent() == color;
    }
  }

  /** Every row of the standard position is exposed and unblocked. */
  lemma StartingRow(color: Color, file: FileIndex)
    ensures Row(StartingBoard(), 0, color, file) == TraceRow(0, color, file, 1, 0, 0, 0, None)
  {
    StartingPositionEvaluation();
  }

  lemma FileRowsStep(prefix: seq<TraceRow>, b: Board, ply: nat, color: Color, n: nat)
    requires 0 < n <= 8
    ensures prefix + FileRows(b, ply, color, n) == prefix + FileRows(b, ply, color, n - 1) + [Row(b, ply, color, n - 1)]
  {
    assert FileRows(b, ply, color, n) == FileRows(b, ply, color, n - 1) + [Row(b, ply, color, n - 1)];
  }

  lemma FirstFilesStep(n: nat)
    requires 0 < n <= 8
    ensures FirstFiles(n - 1)[n - 1 := FirstFiles(n - 1)[n - 1] + 1] == FirstFiles(n)
    ensures ZEROS[n - 1 := ZEROS[n - 1] + 0] == ZEROS
  {
  }

  /** Counting the first `n` files of a position where every pawn of the side is
      exposed and unblocked. */
  lemma {:induction false} UnblockedRowsTally(prefix: seq<TraceRow>, b: Board, ply: nat, color: Color, n: nat)
    requires n <= 8
    requires forall f: FileIndex :: Row(b, ply, color, f) == TraceRow(ply, color, f, 1, 0, 0, 0, None)
    requires TallyOf(prefix, color) == EMPTY_TALLY
    ensures TallyOf(prefix + FileRows(b, ply, color, n), color) == Tally(n, 0, 0, 0, FirstFiles(n), ZEROS)
  {
    if n == 0 {
      assert prefix + FileRows(b, ply, color, 0) == prefix;
      assert FirstFiles(0) == ZEROS;
    } else {
      UnblockedRowsTally(prefix, b, ply, color, n - 1);
      var rows := prefix + FileRows(b, ply, color, n - 1);
      var row := Row(b, ply, color, n - 1);
      FileRowsStep(prefix, b, ply, color, n);
      AppendRow(rows, row);
      FirstFilesStep(n);
    }
  }

  /** With `max_plies = 1` from the standard position: one position, sixteen rows all
      exposed and unblocked, exposure 8 for each side and a friendly-block rate of 0. */
  lemma StartingPositionOnePly(moves: seq<Move>, push: (Board, Move) -> Board)
    ensures var positions := RetainedPositions(StartingBoard(), moves, 1, push);
      var trace := Trace(positions);
      && positions == [StartingBoard()]
      && |trace| == 16
      && (forall k :: 0 <= k < 16 ==> trace[k].exposed == 1 && trace[k].friendlyNpBlock == 0 && trace[k].anyBlock == 0)
      && (forall c :: SummarizeSide(TallyOf(trace, c)).exposure == 8)
      && (forall c :: SummarizeSide(TallyOf(trace, c)).spbtsFriendlyNp == Some(0.0))
  {
    var positions := RetainedPositions(StartingBoard(), moves, 1, push);
    assert moves[..0] == [];
    assert positions == [StartingBoard()];
    assert positions[..0] == [];
    var w := FileRows(StartingBoard(), 0, White, 8);
    var b := FileRows(StartingBoard(), 0, Black, 8);
    var trace := Trace(positions);
    assert Trace(positions[..0]) == [];
    assert trace == Trace(positions[..0]) + SideRows(positions[0], 0, 2);
    assert trace == w + b;
    forall c: Color, f: FileIndex ensures Row(StartingBoard(), 0, c, f) == TraceRow(0, c, f, 1, 0, 0, 0, None) {
      StartingRow(c, f);
    }
    OtherSideIgnored(w, b, White);
    assert [] + w == w;
    UnblockedRowsTally([], StartingBoard(), 0, White, 8);
    OtherSideIgnored([], w, Black);
    UnblockedRowsTally(w, StartingBoard(), 0, Black, 8);
    assert Rate(0, 8) == 0.0;
  }
}
