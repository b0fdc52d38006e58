# pawn_blockers in Dafny

This project models the core of pawn_blockers, a tool that measures how often a side
blocks its own unmoved pawns in the opening.

- **Board evaluator.** For each side and file it finds the pawn's start square and the
  square directly ahead. A pawn still on its start square is *exposed*. The square ahead
  is classified as a friendly non-pawn block, an enemy block, any block, and the
  blocker's kind.
- **SPBTS metrics** ("self-pawn block to start").
  - A game's moves are replayed up to a ply cap.
  - One trace row is emitted per retained position, side and file, and per-side and
    per-file counters are bumped.
  - The counters are reduced to rates. Every rate is undefined when nothing was exposed.
- **f-file classifier.** The f-pawn's first episode is put in a bucket:
  - A1: never moved and never blocked;
  - A2: moved one square;
  - A3: moved two squares;
  - B4: a short friendly block;
  - B5: a long friendly block;
  - other.
- **Player classifier and game filter.**
  - The classifier keeps a list of named rules, appended in order, and reports the names
    of the rules a game matches.
  - The filter keeps a list of filters that must all accept a game.
- **PGN header parsing and metadata normalisation.**
- **Splitting a multi-game PGN text into games.**

The model has one module per source file:

| module | file | source |
|---|---|---|
| `BoardAnalysis` | board_analysis.dfy | modules/core/board_analysis.py |
| `Metrics` | metrics.dfy | modules/core/metrics.py |
| `Classification` | classification.dfy | modules/core/classification.py |
| `Grouping` | grouping.dfy | modules/analysis/grouping.py |
| `GameParser` | game_parser.dfy | modules/data/game_parser.py |
| `Twic` | twic.dfy | modules/data/sources/twic.py |

Three helper modules support them:
- `Chess` (chess.dfy): the part of python-chess that is queried — colours, piece kinds,
  squares, a board as a map from square to piece, and the standard starting position.
- `Text` (text.dfy): the Python `str` operations used, over `seq<char>`.
- `Wrappers` (wrappers.dfy): `Option` and `Result`.

Code that works step by step is written as methods with loops, and each method is proved
against a specification function:
- the replay loop and the ply × side × file loop of `calculate_spbts_for_game`;
- the observation loop and the three scanning loops of `classify_f_bucket_for_color`;
- the header loop of `parse_player_names`;
- the chunking loop of `_split_pgn_content`.

`PlayerClassifier` and `GameFilter` are classes. Their methods append to a `rules` or
`filters` field and return the object itself, as the source's chaining methods do.

The properties are then proved as lemmas about those specification functions.

## Model

| member | source | states |
|---|---|---|
| BoardAnalysis.StartAndAheadSquares | modules/core/board_analysis.py:10-15 | both squares lie on the given file; the start square is on rank index 1 (white) or 6 (black); the ahead square is one rank toward the opponent |
| BoardAnalysis.IsPawnExposed | modules/core/board_analysis.py:18-22 | exposed exactly when a pawn of that side stands on its start square; an empty square or any other piece gives false |
| BoardAnalysis.BlockingInfo | modules/core/board_analysis.py:25-43 | empty square ahead gives (false, false, false, None); a piece of the side gives (kind is not pawn, false, true, kind); an enemy piece gives (false, true, true, kind); friendly and enemy never hold together, and either implies any |
| BoardAnalysis.FileIndexOf | modules/core/board_analysis.py:46-48 | succeeds exactly when the text occurs in "abcdefgh", and then gives the lowest index where it occurs; otherwise an error, as `str.index` raises |
| BoardAnalysis.FileIndexOfLetter | tests/test_board_analysis.py:17-24 | each file letter maps to its column 0..7, and any other single character is an error |
| BoardAnalysis.StartingPositionEvaluation | tests/test_board_analysis.py:64-116 | on the starting position every pawn is exposed and unblocked; a knight, a friendly pawn or an enemy knight on f3 gives the three tuples the tests expect |
| Metrics.InitialBoard | modules/core/metrics.py:29-33 | the FEN board when SetUp is "1" and a FEN is present; an error when that FEN does not parse; the standard position otherwise |
| Metrics.RetainPositions | modules/core/metrics.py:36-43 | the replay loop with its break at move index `max_plies - 1` yields exactly the retained position list |
| Metrics.RunSteps | modules/core/metrics.py:39-43 | the replay starts from the initial board, and each position is the previous one with the next move pushed |
| Metrics.RetainedShape | modules/core/metrics.py:36-43 | the list holds `1 + min(len(moves), max(max_plies - 1, 0))` positions, which is `min(len(moves) + 1, max_plies)` for a cap of at least 1; it starts at the initial board and follows the moves |
| Metrics.Row | modules/core/metrics.py:55-97 | a row records its ply, side and file; it is exposed exactly when the pawn is on its start square; when exposed its flags are those of `get_blocking_info` and its blocker is the `piece_symbol` letter of the piece ahead, or none when the square is empty; otherwise all zero with no blocker |
| Metrics.TraceLayout | modules/core/metrics.py:52-98 | the trace has `16 * len(positions)` rows, ordered by ply, then white before black, then files a to h |
| Metrics.TraceRowsCoherent | modules/core/metrics.py:52-98 | every row has 0/1 flags, all zero when not exposed, and names a ply in `[0, len(positions))` |
| Metrics.TallyInvariants | modules/core/metrics.py:57-71 | a side's exposure equals its number of exposed rows and the sum of the per-file exposures; `friendly_np + enemy <= any <= exposure`; per-file friendly blocks never exceed per-file exposure |
| Metrics.CountKeepsConsistent | modules/core/metrics.py:57-71 | counting one coherent row keeps every counter relation |
| Metrics.AppendRow | modules/core/metrics.py:57-71 | a row bumps only its own side's counters |
| Metrics.AggregatesStep | modules/core/metrics.py:57-71 | appending a row updates the aggregates of its side and no other |
| Metrics.RecordRow | modules/core/metrics.py:55-97 | the loop body emits the row for that position, side and file and bumps exactly that side's counters by it |
| Metrics.RecordSide | modules/core/metrics.py:54-97 | the file loop appends the side's eight rows, a to h, and leaves the aggregates equal to the counts of the whole trace so far |
| Metrics.BuildTrace | modules/core/metrics.py:52-98 | the triple loop produces exactly the trace, and aggregates that are the per-side counts of that trace |
| Metrics.SummarizeSide | modules/core/metrics.py:102-128 | zero exposure gives exposure 0 and no rates and no per-file map; otherwise each rate is its count over the exposure, and a file's rate is undefined exactly when that file's exposure is 0 |
| Metrics.RatesInUnitInterval | modules/core/metrics.py:122-128 | for counters with the trace relations, every defined rate lies in [0, 1] |
| Metrics.TraceSummary | modules/core/metrics.py:52-128 | for the trace of any position list, each side's counters keep every counter relation, its exposure counts its exposed rows, and every rate its summary defines lies in [0, 1] |
| Metrics.CalculateSpbtsForGame | modules/core/metrics.py:25-132 | no game gives the "Invalid PGN" error; an unparsable FEN gives an error; otherwise the result is the summary of both sides' counts of the trace, and the trace itself; every rate of a successful result lies in [0, 1]; `max_plies` defaults to 24 |
| Metrics.StartingPositionOnePly | tests/test_metrics.py:12-33 | with `max_plies = 1` from the standard position: one position, 16 rows all exposed and unblocked, exposure 8 and friendly-block rate 0 for each side |
| Classification.FFileIndex | modules/core/classification.py:24 | `get_file_index("f")` is 5 |
| Classification.ObserveFPawn | modules/core/classification.py:30-44 | the observation loop yields, for every position, whether the f-pawn is exposed and whether it is exposed and blocked by a friendly non-pawn |
| Classification.ObservePosition | modules/core/classification.py:31-44 | for one position: the exposure flag, and the friendly-block flag, which is only looked up when exposed |
| Classification.FindMoveOff | modules/core/classification.py:47-51 | the scan finds the first `t >= 1` with `exposed[t-1] and not exposed[t]`, or none |
| Classification.FindBlockStart | modules/core/classification.py:79-83 | the scan finds the first ply with a friendly block, or none |
| Classification.FindBlockEnd | modules/core/classification.py:89-96 | the scan finds the first ply after the start at which the pawn is gone or unblocked, or the window length |
| Classification.ClassifyFBucketForColor | modules/core/classification.py:12-99 | the bucket is the decision table over the two observation lists; `max_plies`, 24 by default, has no effect |
| Classification.ClassifyFBucketsFromPgn | modules/core/classification.py:102-131 | no game gives None; an unparsable FEN gives an error; otherwise both sides' buckets over the positions retained with the metrics' cap rule, with `max_plies` 24 by default |
| Classification.ObservationFacts | modules/core/classification.py:30-44 | both lists have one entry per position; a friendly block implies exposure; a block is exposure and a friendly non-pawn ahead |
| Classification.A1Exactly | modules/core/classification.py:47-58 | A1 exactly when the pawn never moves off and no friendly block ever occurs |
| Classification.MoveOffWithoutBlock | modules/core/classification.py:61-76 | after a first move-off at ply m with no block before it: A2 iff a pawn of the side is one square ahead; A3 iff not that but two squares ahead; other iff neither |
| Classification.FallbackUnreachable | modules/core/classification.py:57-86 | whenever the block-episode part is reached some ply shows a friendly block, so the `block_start is None` branch is never taken |
| Classification.BlockEpisode | modules/core/classification.py:79-99 | the episode starts at the first block; it lasts between 1 and `len(positions) - start` plies over blocked plies only; it ends on an unblocked ply or at the end; B4 iff its duration is at most 2, B5 iff more |
| Classification.EpisodeShape | modules/core/classification.py:89-98 | on the flags alone, when a block implies exposure: the episode's end lies in `(start, len]`, every ply before it is blocked, and the end ply is unblocked |
| Classification.BlockBucketsExactly | modules/core/classification.py:78-99 | B4 or B5 exactly when the decision reaches the block-episode part |
| Classification.ScenarioF3 | tests/test_classification.py:27-41 | after 1. f3: white A2, black A1 |
| Classification.ScenarioF4F5 | tests/test_classification.py:113-126 | after 1. f4 f5: both sides A3 |
| Classification.ScenarioShortBlock | tests/test_classification.py:55-72 | 1. Nf3 e6 2. Ng5: white B4 |
| Classification.ScenarioLongBlock | tests/test_classification.py:74-90 | 1. Nf3 e6 2. e4 Nf6 3. d4: white B5 |
| Grouping.MaxElo | modules/analysis/grouping.py:69-72 | no rating when both elos are absent; otherwise one of the present elos, at least as large as each of them |
| Grouping.IsEngine | modules/analysis/grouping.py:58-61 | true iff some engine pattern occurs in either lower-cased player name |
| Grouping.RatingRuleByElos | modules/analysis/grouping.py:68-73 | the rating rule holds iff some elo is present, some present elo is at least the minimum, and every present elo is at most the maximum, i.e. `min <= max(elos) <= max` |
| Grouping.NameRuleMatches | modules/analysis/grouping.py:79-82 | the name rule holds iff either lower-cased player name is among the lower-cased names |
| Grouping.MatchingIndices | modules/analysis/grouping.py:93-97 | the matching rules' positions, strictly increasing, each position present iff its rule holds |
| Grouping.MatchingNamesInOrder | modules/analysis/grouping.py:86-97 | the result lists the names of the matching rules in insertion order, so it is a subsequence of the rule names |
| Grouping.MatchingNamesMembership | modules/analysis/grouping.py:86-97 | a name is reported iff some rule with that name holds |
| Grouping.PlayerClassifier.constructor | modules/analysis/grouping.py:25-39 | no rules, and the eleven engine patterns |
| Grouping.PlayerClassifier.AddRule | modules/analysis/grouping.py:41-53 | appends exactly one (name, rule) pair, keeps the earlier rules, returns the classifier itself |
| Grouping.PlayerClassifier.AddEngineRule | modules/analysis/grouping.py:55-63 | appends the engine rule under the given name, "engine" by default |
| Grouping.PlayerClassifier.AddRatingRule | modules/analysis/grouping.py:65-75 | appends the rating-band rule, with maximum 9999 by default |
| Grouping.PlayerClassifier.AddPlayerNameRule | modules/analysis/grouping.py:77-84 | appends the name rule over the lower-cased names |
| Grouping.PlayerClassifier.ClassifyGame | modules/analysis/grouping.py:86-97 | the loop returns the names of the matching rules in order |
| Grouping.AllAdmit | modules/analysis/grouping.py:145-147 | true iff every filter admits the game |
| Grouping.VariantFilterMatches | modules/analysis/grouping.py:106-114 | the variant filter admits iff the lower-cased variant is among the lower-cased variants |
| Grouping.TimeControlFilterMatches | modules/analysis/grouping.py:116-125 | no time control is rejected; otherwise some pattern must occur in it |
| Grouping.RatingFilterMatches | modules/analysis/grouping.py:127-143 | without elos it admits iff there is no minimum; otherwise it admits iff the highest elo is at least the minimum and at most the maximum, each bound inclusive and only when given; with both bounds it agrees with the rating rule |
| Grouping.GameFilter.constructor | modules/analysis/grouping.py:103-104 | no filters |
| Grouping.GameFilter.AddVariantFilter | modules/analysis/grouping.py:106-114 | appends the variant filter and returns the filter itself |
| Grouping.GameFilter.AddTimeControlFilter | modules/analysis/grouping.py:116-125 | appends the time-control filter and returns the filter itself |
| Grouping.GameFilter.AddRatingFilter | modules/analysis/grouping.py:127-143 | appends the rating filter, both bounds absent by default, and returns the filter itself |
| Grouping.GameFilter.Passes | modules/analysis/grouping.py:145-147 | true iff every filter admits the game, so an empty filter passes every game |
| Grouping.CreateLeelaVsHumanClassifier | modules/analysis/grouping.py:151-160 | the four Leela name rules, then the engine rule |
| Grouping.CreateRatingClassifier | modules/analysis/grouping.py:163-171 | the four rating brackets, with shared boundaries |
| Grouping.LeelaRookOddsGame | tests/test_grouping.py:236-267 | white "LeelaRookOdds" is reported as leela_rook and as engine |
| Grouping.NoLeelaGroupForOthers | tests/test_grouping.py:236-267 | players whose name lengths are none of 7, 13, 14 and 15 (the lengths of the four Leela account names), as Alice and Bob, get no leela_ group; derived from `LeelaGroupsExactly` |
| Grouping.LeelaGroupsExactly | modules/analysis/grouping.py:151-160 | a leela_ group is reported exactly when a player's lower-cased name is one of the four Leela accounts' |
| Grouping.RatingBoundaryShared | modules/analysis/grouping.py:163-171 | a highest elo of 1200 falls in both beginner and intermediate |
| GameParser.HeaderOf | modules/data/game_parser.py:15-22 | a line adds a header iff it starts with `[` and contains a `"` |
| GameParser.HeaderShape | modules/data/game_parser.py:20-21 | the key is the line's first whitespace-free token without the bracket; the value is the text after the first quote up to the next quote or the line's end |
| GameParser.CollectLastWins | modules/data/game_parser.py:22 | the last entry that sets a key decides its value |
| GameParser.HeaderLookup | modules/data/game_parser.py:15-22 | a key is present iff some line is a header line for it, and its value comes from the last such line |
| GameParser.ParsePlayerNames | modules/data/game_parser.py:6-27 | the loop builds exactly the headers of the lines; a missing White or Black header gives the empty name |
| GameParser.ParseStripped | modules/data/game_parser.py:62-63 | `int()` accepts exactly an optional sign followed by digits with single underscores between them, with at most 4300 digits (CPython's default `max_str_digits`; longer text raises); the value is the digits' value, negated after `-` |
| GameParser.ParseInt | modules/data/game_parser.py:62-63 | the same, after removing surrounding whitespace |
| GameParser.IntTextChars | modules/data/game_parser.py:62-65 | text `int()` accepts is not empty and holds only digits, signs and underscores |
| GameParser.SafeInt | modules/data/game_parser.py:58-65 | no value gives None; otherwise the result of `int()`, with None where it raises |
| GameParser.SafeIntRoundTrip | modules/data/game_parser.py:58-65 | the decimal text of every integer of at most 4300 digits reads back as that integer; the text of a longer integer gives None, as `int()` raises on it |
| GameParser.GameIdOf | modules/data/game_parser.py:41-42 | with a `/` in Site: the text after its last `/`; otherwise GameId, or empty |
| GameParser.ExtractGameMetadata | modules/data/game_parser.py:30-55 | missing text fields are empty; variant defaults to "Standard"; the starting FEN is given only under SetUp "1" with a FEN; elos are read by `_safe_int` |
| Twic.StrippedLines | modules/data/sources/twic.py:153-154 | every line is stripped |
| Twic.SplitPgnContent | modules/data/sources/twic.py:148-168 | the loop with its final flush yields exactly the games of the stripped lines |
| Twic.FromFirstEvent | modules/data/sources/twic.py:161 | the stripped lines from the first `[Event ` line on; every line before it is not an event line |
| Twic.ScanCollects | modules/data/sources/twic.py:150-166 | while scanning, the finished games and the open game are together the lines from the first event line on, and a game is open exactly once an event line has been seen |
| Twic.ScanWellFormed | modules/data/sources/twic.py:157-163 | each finished or open game is an event line followed by non-event lines |
| Twic.ScanCounts | modules/data/sources/twic.py:157-166 | there is one game, finished or open, per event line seen |
| Twic.ChunksCharacterised | modules/data/sources/twic.py:148-168 | one game per event line, each well formed, together exactly the lines from the first event line on, in order and without duplicates; no event line gives no game |
| Twic.GameStartsWithEvent | modules/data/sources/twic.py:158-166 | a game's joined text starts with `[Event ` |
| Twic.GamesOfLines | modules/data/sources/twic.py:150-168 | the games of stripped lines: one per event line, each starting with `[Event ` |
| Twic.GamesCharacterised | modules/data/sources/twic.py:148-168 | one game per stripped `[Event ` line, each game's text starting with `[Event `; empty content gives no game |

## Left out

- python-chess is not part of this model.
  - `Board.push` is passed in as a function parameter, and so is FEN parsing.
  - An unparsable FEN is modelled as that parameter returning None. It yields an error
    result, because `chess.Board(fen)` raises.
  - `read_game` is modelled as an optional game given as input. Move parsing and move
    legality are not modelled.
- Castling, promotion and en passant appear only inside `push`. The scenario lemmas build
  their boards by hand with plain moves.
- The trace is a sequence of row records, not a pandas DataFrame.
- The SPBTS rates are exact reals, not floating-point numbers.
- The f-pawn "fate" tracker does not exist in the modelled files. It is not invented here.
- Cohorts, statistics, visualisation, the Lichess client and the download and network
  parts of the TWIC client are not part of this model. This includes `_extract_rating`,
  which is regex-based.
- `_split_pgn_content` is modelled as a function of the content alone. It reads no field
  of the TWIC client.
- `GameInfo.metadata` is left out. No rule or filter built in the modelled code reads it. A
  `Custom` rule cannot see it, although a callable passed to `add_rule` could read it.
- Grouping rules and filters are closures in the source. Here they are a datatype of the
  kinds the source builds. The `Custom` rule keeps `add_rule`'s arbitrary predicate.
- Grouping.PlayerClassifier.AddEngineRule: the rule holds the pattern list as it is when
  the rule is added. The source's closure reads `self.engine_patterns` when it runs. That
  attribute is a public mutable list. The two differ if a caller replaces or mutates
  `engine_patterns` after the rule is added. In the model `enginePatterns` is a `const`.
- Grouping.GameFilter.AddTimeControlFilter: the filter holds a copy of the pattern list as
  it is when the filter is added. The source's closure reads the caller's list object when
  it runs, so a caller that mutates that list afterwards changes the filter there but not
  here. Aliasing between the caller's list and the filter is not modelled.
- `str.lower()` is modelled for ASCII letters only.
- `int()` is modelled for ASCII digits only. Python also accepts other Unicode decimal
  digits.
- `int()`'s digit limit is fixed at CPython's default of 4300. The interpreter setting that
  changes it (`sys.set_int_max_str_digits` or `PYTHONINTMAXSTRDIGITS`) is not modelled.
- GameParser.ParsePlayerNames: the headers are a map, so the insertion order of the
  source's dictionary is not modelled.
