/**
 * Splitting a multi-game PGN file into games (`TWICClient._split_pgn_content`,
 * modules/data/sources/twic.py).
 *
 * Every line is stripped; each line that starts with `[Event ` opens a new game, the
 * following lines belong to it, lines before the first such line are dropped, and each
 * game is its lines joined with newlines.
 */
module Twic {
  import opened Text

  predicate IsEventLine(line: string) {
    StartsWith(line, "[Event ")
  }

  /** Every line stripped. */
  function StrippedLines(lines: seq<string>): (r: seq<string>)
    ensures |r| == |lines| && forall i :: 0 <= i < |lines| ==> r[i] == Strip(lines[i])
  {
    seq(|lines|, i requires 0 <= i < |lines| => Strip(lines[i]))
  }

  /** The finished games and the game being collected after reading `lines` in order. */
  function Scan(lines: seq<string>): (seq<seq<string>>, seq<string>) {
    if lines == [] then ([], [])
    else
      var (done, current) := Scan(lines[..|lines| - 1]);
      var line := lines[|lines| - 1];
      if IsEventLine(line) then
        (if current != [] then done + [current] else done, [line])
      else if current != [] then (done, current + [line])
      else (done, current)
  }

  /** The games of a list of stripped lines, each as its list of lines. */
  function Chunks(lines: seq<string>): seq<seq<string>> {
    var (done, current) := Scan(lines);
    if current != [] then done + [current] else done
  }

  /** Each game's lines joined with newlines. */
  function JoinAll(chunks: seq<seq<string>>): (r: seq<string>)
    ensures |r| == |chunks| && forall i :: 0 <= i < |chunks| ==> r[i] == JoinWith(chunks[i], '\n')
  {
    seq(|chunks|, i requires 0 <= i < |chunks| => JoinWith(chunks[i], '\n'))
  }

  /** The games of a PGN text. */
  function Games(content: string): seq<string> {
    JoinAll(Chunks(StrippedLines(SplitLines(content))))
  }

  method SplitPgnContent(content: string) returns (games: seq<string>)
    ensures games == Games(content)
  {
    var lines := SplitLines(content);
    ghost var stripped := StrippedLines(lines);
    ghost var done: seq<seq<string>> := [];
    games := [];
    var current: seq<string> := [];
    for i := 0 to |lines|
      invariant (done, current) == Scan(stripped[..i])
      invariant games == JoinAll(done)
    {
      var line := Strip(lines[i]);
      assert stripped[..i + 1][..i] == stripped[..i];
      if StartsWith(line, "[Event ") {
        if current != [] {
          games := games + [JoinWith(current, '\n')];
          done := done + [current];
        }
        current := [line];
      } else if current != [] {
        current := current + [line];
      }
    }
    assert stripped[..|lines|] == stripped;
    if current != [] {
      games := games + [JoinWith(current, '\n')];
      done := done + [current];
    }
  }

  // ---------------------------------------------------------------- reference properties

  /** The number of event lines. */
  function EventCount(lines: seq<string>): nat {
    if lines == [] then 0
    else EventCount(lines[..|lines| - 1]) + (if IsEventLine(lines[|lines| - 1]) then 1 else 0)
  }

  /** The lines from the first event line on; none when there is no event line. */
  function FromFirstEvent(lines: seq<string>): (r: seq<string>)
    ensures |r| <= |lines| && r == lines[|lines| - |r|..]
    ensures r == [] || IsEventLine(r[0])
    ensures forall i :: 0 <= i < |lines| - |r| ==> !IsEventLine(lines[i])
  {
    if lines == [] then []
    else if IsEventLine(lines[0]) then lines
    else FromFirstEvent(lines[1..])
  }

  /** The lines of the games, in order. */
  function Flatten(chunks: seq<seq<string>>): seq<string> {
    if chunks == [] then [] else Flatten(chunks[..|chunks| - 1]) + chunks[|chunks| - 1]
  }

  /** A game's lines: an event line first and no other event line. */
  predicate IsGameChunk(chunk: seq<string>) {
    chunk != [] && IsEventLine(chunk[0]) && forall i :: 1 <= i < |chunk| ==> !IsEventLine(chunk[i])
  }

  lemma FromFirstEventAppend(lines: seq<string>, line: string)
    ensures FromFirstEvent(lines + [line]) ==
      if FromFirstEvent(lines) != [] then FromFirstEvent(lines) + [line]
      else if IsEventLine(line) then [line]
      else []
  {
    var r := FromFirstEvent(lines + [line]);
    var all := lines + [line];
    assert forall i :: 0 <= i < |lines| ==> all[i] == lines[i];
    if FromFirstEvent(lines) != [] {
      var k := |lines| - |FromFirstEvent(lines)|;
      assert IsEventLine(all[k]);
      UniqueFirstEvent(all, k);
      assert all[k..] == FromFirstEvent(lines) + [line];
    } else if IsEventLine(line) {
      UniqueFirstEvent(all, |lines|);
    } else {
      assert forall i :: 0 <= i < |all| ==> !IsEventLine(all[i]);
    }
  }

  /** The lines from an event line with none before it are `FromFirstEvent`. */
  lemma {:induction false} UniqueFirstEvent(lines: seq<string>, k: nat)
    requires k < |lines| && IsEventLine(lines[k])
    requires forall i :: 0 <= i < k ==> !IsEventLine(lines[i])
    ensures FromFirstEvent(lines) == lines[k..]
  {
    if k > 0 {
      var rest := lines[1..];
      assert forall i :: 0 <= i < k - 1 ==> rest[i] == lines[i + 1];
      UniqueFirstEvent(rest, k - 1);
      assert rest[k - 1..] == lines[k..];
    }
  }

  /** After any prefix, the finished games followed by the open one are the lines from the
      first event line on; a game is open exactly once an event line has been seen. */
  lemma {:induction false} ScanCollects(lines: seq<string>)
    ensures Scan(lines).1 == [] <==> FromFirstEvent(lines) == []
    ensures Flatten(Scan(lines).0) + Scan(lines).1 == FromFirstEvent(lines)
  {
    if lines != [] {
      var front, line := lines[..|lines| - 1], lines[|lines| - 1];
      assert lines == front + [line];
      ScanCollects(front);
      ScanCollectsStep(front, line);
    }
  }

  lemma ScanCollectsStep(front: seq<string>, line: string)
    requires Scan(front).1 == [] <==> FromFirstEvent(front) == []
    requires Flatten(Scan(front).0) + Scan(front).1 == FromFirstEvent(front)
    ensures Scan(front + [line]).1 == [] <==> FromFirstEvent(front + [line]) == []
    ensures Flatten(Scan(front + [line]).0) + Scan(front + [line]).1 == FromFirstEvent(front + [line])
  {
    FromFirstEventAppend(front, line);
    var all := front + [line];
    assert all[..|all| - 1] == front;
    var (done, current) := Scan(front);
    if IsEventLine(line) {
      assert Scan(all) == (if current != [] then done + [current] else done, [line]);
      if current != [] {
        FlattenAppend(done, current);
        assert Flatten(done + [current]) + [line] == FromFirstEvent(front) + [line];
      }
    } else if current != [] {
      assert Scan(all) == (done, current + [line]);
      AppendLine(Flatten(done), current, line);
    } else {
      assert Scan(all) == (done, current);
    }
  }

  /** After any prefix, every finished game and the open one are well formed. */
  lemma {:induction false} ScanWellFormed(lines: seq<string>)
    ensures forall k :: 0 <= k < |Scan(lines).0| ==> IsGameChunk(Scan(lines).0[k])
    ensures Scan(lines).1 == [] || IsGameChunk(Scan(lines).1)
  {
    if lines != [] {
      var front := lines[..|lines| - 1];
      var line := lines[|lines| - 1];
      ScanWellFormed(front);
      var (done, current) := Scan(front);
      if !IsEventLine(line) && current != [] {
        assert IsGameChunk(current + [line]);
      }
    }
  }

  /** After any prefix, there is one game, finished or open, per event line. */
  lemma {:induction false} ScanCounts(lines: seq<string>)
    ensures |Scan(lines).0| + (if Scan(lines).1 != [] then 1 else 0) == EventCount(lines)
  {
    if lines != [] {
      ScanCounts(lines[..|lines| - 1]);
    }
  }

  /** The step for a line that extends the open game: appending it to the open game is
      appending it to everything collected so far. */
  lemma AppendLine(flat: seq<string>, current: seq<string>, line: string)
    ensures flat + (current + [line]) == (flat + current) + [line]
  {
  }

  lemma FlattenAppend(chunks: seq<seq<string>>, chunk: seq<string>)
    ensures Flatten(chunks + [chunk]) == Flatten(chunks) + chunk
  {
    assert (chunks + [chunk])[..|chunks|] == chunks;
  }

  /** The chunks of a list of lines: one per event line, each an event line followed by
      non-event lines, and together exactly the lines from the first event line on, in
      order; so no event line gives no game. */
  lemma ChunksCharacterised(lines: seq<string>)
    ensures |Chunks(lines)| == EventCount(lines)
    ensures forall k :: 0 <= k < |Chunks(lines)| ==> IsGameChunk(Chunks(lines)[k])
    ensures Flatten(Chunks(lines)) == FromFirstEvent(lines)
    ensures EventCount(lines) == 0 ==> Chunks(lines) == []
  {
    ScanCollects(lines);
    ScanWellFormed(lines);
    ScanCounts(lines);
    var (done, current) := Scan(lines);
    if current != [] {
      FlattenAppend(done, current);
    }
  }

  /** A join starts with its first part. */
  lemma {:induction false} JoinStartsWithFirst(parts: seq<string>, sep: char)
    requires parts != []
    ensures parts[0] <= JoinWith(parts, sep)
  {
  }

  /** A game's text starts with its event line's `[Event ` prefix. */
  lemma GameStartsWithEvent(chunk: seq<string>)
    requires IsGameChunk(chunk)
    ensures "[Event " <= JoinWith(chunk, '\n')
  {
    JoinStartsWithFirst(chunk, '\n');
    var first := chunk[0];
    assert "[Event " <= first;
  }

  /** `_split_pgn_content`: one game per stripped `[Event ` line, each game's text starting
      with that line; empty content gives no game. */
  lemma GamesCharacterised(content: string)
    ensures |Games(content)| == EventCount(StrippedLines(SplitLines(content)))
    ensures forall k :: 0 <= k < |Games(content)| ==> "[Event " <= Games(content)[k]
    ensures content == [] ==> Games(content) == []
  {
    var lines := StrippedLines(SplitLines(content));
    GamesOfLines(lines);
    if content == [] {
      ChunksCharacterised(lines);
    }
  }

  /** The games of a list of stripped lines: one per event line, each starting `[Event `. */
  lemma GamesOfLines(lines: seq<string>)
    ensures |JoinAll(Chunks(lines))| == EventCount(lines)
    ensures forall k :: 0 <= k < EventCount(lines) ==> "[Event " <= JoinAll(Chunks(lines))[k]
  {
    ChunksCharacterised(lines);
    var chunks := Chunks(lines);
    forall k | 0 <= k < |chunks| ensures "[Event " <= JoinWith(chunks[k], '\n') {
      GameStartsWithEvent(chunks[k]);
    }
  }
}
