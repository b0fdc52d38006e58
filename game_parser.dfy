/**
 * PGN header parsing and metadata normalisation (modules/data/game_parser.py).
 *
 * Headers are read line by line from raw PGN text, without a PGN library: a line that
 * starts with `[` and has at least one `"` names a key (its first whitespace-free token
 * without the bracket) and a value (the text between its first two quotes).
 */
module GameParser {
  import opened Wrappers
  import opened Text

  /** `headers.get(key, default)`. */
  function Get(headers: map<string, string>, key: string, default: string): string {
    if key in headers then headers[key] else default
  }

  // ---------------------------------------------------------------- header lines

  /** The (key, value) pair a line contributes, if it is a header line. */
  function HeaderOf(line: string): (r: Option<(string, string)>)
    ensures r.Some? <==> StartsWith(line, "[") && '"' in line
  {
    if StartsWith(line, "[") then
      var parts := SplitOn(line, '"');
      if |parts| >= 2 then
        var token := LeadingToken(line);
        assert token != [] by {
          assert line[0] == '[';
        }
        Some((token[1..], parts[1]))
      else None
    else None
  }

  /** A header line's key is its first whitespace-free token without the bracket, and its
      value is the text between its first quote and the next quote (or the line's end). */
  lemma HeaderShape(line: string)
    requires HeaderOf(line).Some?
    ensures var (key, value) := HeaderOf(line).value;
      && "[" + key <= line
      && (forall i :: 0 <= i < |key| ==> !IsSpace(key[i]))
      && (|key| + 1 == |line| || IsSpace(line[|key| + 1]))
      && var q := IndexOfChar(line, '"');
      && value <= line[q + 1..] && '"' !in value
      && (q + 1 + |value| == |line| || line[q + 1 + |value|] == '"')
  {
    HeaderKeyShape(line);
    SplitSecondPiece(line, '"');
    var token := LeadingToken(line);
    var parts := SplitOn(line, '"');
    assert HeaderOf(line).value == (token[1..], parts[1]);
    assert '"' !in parts[1];
  }

  /** The key part of `HeaderShape`. */
  lemma HeaderKeyShape(line: string)
    requires StartsWith(line, "[")
    ensures var token := LeadingToken(line);
      && token != [] && "[" + token[1..] <= line
      && (forall i :: 0 <= i < |token| - 1 ==> !IsSpace(token[1..][i]))
      && (|token| == |line| || IsSpace(line[|token|]))
  {
    assert line[0] == '[';
    var token := LeadingToken(line);
    assert token[0] == '[';
    assert "[" + token[1..] == token;
  }

  /** A header entry that sets `key`. */
  predicate SetsKey(entry: Option<(string, string)>, key: string) {
    entry.Some? && entry.value.0 == key
  }

  /** `entries[i]` is the last entry that sets `key`. */
  predicate LastSetting(entries: seq<Option<(string, string)>>, key: string, i: int) {
    && 0 <= i < |entries| && SetsKey(entries[i], key)
    && forall j :: i < j < |entries| ==> !SetsKey(entries[j], key)
  }

  /** The dictionary built by applying the entries in order. */
  function Collect(entries: seq<Option<(string, string)>>): map<string, string> {
    if entries == [] then map[]
    else
      var earlier := Collect(entries[..|entries| - 1]);
      match entries[|entries| - 1]
      case None => earlier
      case Some((k, v)) => earlier[k := v]
  }

  /** A key is present exactly when some entry sets it. */
  lemma {:induction false} CollectPresence(entries: seq<Option<(string, string)>>, key: string)
    ensures key in Collect(entries) <==> exists i :: 0 <= i < |entries| && SetsKey(entries[i], key)
  {
    if entries != [] {
      var n := |entries| - 1;
      var front := entries[..n];
      CollectPresence(front, key);
      assert forall i :: 0 <= i < n ==> front[i] == entries[i];
    }
  }

  /** A present key holds the value of the last entry that sets it. */
  lemma {:induction false} CollectLastWins(entries: seq<Option<(string, string)>>, key: string, i: int)
    requires LastSetting(entries, key, i)
    ensures key in Collect(entries) && Collect(entries)[key] == entries[i].value.1
  {
    var n := |entries| - 1;
    if i < n {
      var front := entries[..n];
      assert LastSetting(front, key, i) by {
        forall j | i < j < n ensures !SetsKey(front[j], key) {
          assert front[j] == entries[j];
        }
      }
      CollectLastWins(front, key, i);
    }
  }

  /** The header entry of each line. */
  function Entries(lines: seq<string>): (r: seq<Option<(string, string)>>)
    ensures |r| == |lines| && forall i :: 0 <= i < |lines| ==> r[i] == HeaderOf(lines[i])
  {
    seq(|lines|, i requires 0 <= i < |lines| => HeaderOf(lines[i]))
  }

  /** The headers of a list of lines: each header line in turn sets its key. */
  function HeadersOf(lines: seq<string>): map<string, string> {
    Collect(Entries(lines))
  }

  /** A key is present exactly when some line is a header line for it, and then it holds
      the value of the last such line: a later duplicate overwrites an earlier one. */
  lemma HeaderLookup(lines: seq<string>, key: string)
    ensures key in HeadersOf(lines) <==>
      exists i :: 0 <= i < |lines| && HeaderOf(lines[i]).Some? && HeaderOf(lines[i]).value.0 == key
    ensures forall i :: LastSetting(Entries(lines), key, i) ==>
      key in HeadersOf(lines) && HeadersOf(lines)[key] == HeaderOf(lines[i]).value.1
  {
    var entries := Entries(lines);
    CollectPresence(entries, key);
    forall i | LastSetting(entries, key, i) ensures Collect(entries)[key] == HeaderOf(lines[i]).value.1 {
      CollectLastWins(entries, key, i);
    }
  }

  /** Applying one more entry. */
  lemma CollectStep(entries: seq<Option<(string, string)>>, i: nat)
    requires i < |entries|
    ensures Collect(entries[..i + 1]) ==
      match entries[i]
      case None => Collect(entries[..i])
      case Some((k, v)) => Collect(entries[..i])[k := v]
  {
    assert entries[..i + 1][..i] == entries[..i];
  }

  /** The white player, black player and all headers of a PGN text; a missing player
      header gives the empty name. */
  method ParsePlayerNames(pgnText: string) returns (white: string, black: string, headers: map<string, string>)
    ensures headers == HeadersOf(SplitLines(pgnText))
    ensures "White" in headers ==> white == headers["White"]
    ensures "White" !in headers ==> white == ""
    ensures "Black" in headers ==> black == headers["Black"]
    ensures "Black" !in headers ==> black == ""
  {
    var lines := SplitLines(pgnText);
    ghost var entries := Entries(lines);
    headers := map[];
    for i := 0 to |lines|
      invariant headers == Collect(entries[..i])
    {
      var line := lines[i];
      CollectStep(entries, i);
      if StartsWith(line, "[") {
        var parts := SplitOn(line, '"');
        if |parts| >= 2 {
          var token := LeadingToken(line);
          assert line[0] == '[';
          var key := token[1..];
          var value := parts[1];
          assert entries[i] == Some((key, value));
          headers := headers[key := value];
        }
      }
    }
    assert entries[..|lines|] == entries;
    white := Get(headers, "White", "");
    black := Get(headers, "Black", "");
  }

  // ---------------------------------------------------------------- integers

  predicate IsDigit(c: char) {
    '0' <= c <= '9'
  }

  /** Decimal digits with single underscores between them, as Python's `int()` accepts. */
  predicate IsDigitRun(s: string) {
    && |s| >= 1 && IsDigit(s[0]) && IsDigit(s[|s| - 1])
    && (forall i :: 0 <= i < |s| ==> IsDigit(s[i]) || s[i] == '_')
    && (forall i :: 0 <= i < |s| - 1 ==> !(s[i] == '_' && s[i + 1] == '_'))
  }

  /** The value of the digits of `s`, underscores skipped. */
  function DigitsValue(s: string): nat {
    if s == [] then 0
    else
      var c := s[|s| - 1];
      if IsDigit(c) then 10 * DigitsValue(s[..|s| - 1]) + (c as int - '0' as int)
      else DigitsValue(s[..|s| - 1])
  }

  /** The number of decimal digits in `s`, underscores not counted. */
  function DigitCount(s: string): nat {
    if s == [] then 0
    else DigitCount(s[..|s| - 1]) + (if IsDigit(s[|s| - 1]) then 1 else 0)
  }

  /** CPython's default limit on the number of digits `int()` converts from decimal text
      (`sys.int_info.default_max_str_digits`); longer text raises `ValueError`. */
  const MAX_STR_DIGITS: nat := 4300

  /** A digit run `int()` converts: within the digit limit. */
  predicate IsConvertibleRun(s: string) {
    IsDigitRun(s) && DigitCount(s) <= MAX_STR_DIGITS
  }

  /** An optional sign followed by a digit run of at most `MAX_STR_DIGITS` digits. */
  predicate IsIntText(t: string) {
    IsConvertibleRun(t) || (|t| >= 1 && (t[0] == '+' || t[0] == '-') && IsConvertibleRun(t[1..]))
  }

  /** Python's `int(text)` for base-10 text: surrounding whitespace, an optional sign, then a
      digit run; `None` where it raises `ValueError`. The value is the digits' value, negated
      after a minus sign. */
  function ParseInt(text: string): (r: Option<int>)
    ensures r.Some? <==> IsIntText(Strip(text))
    ensures r.Some? && IsDigitRun(Strip(text)) ==> r.value == DigitsValue(Strip(text))
    ensures r.Some? && !IsDigitRun(Strip(text)) ==>
      r.value == (if Strip(text)[0] == '-' then -1 else 1) * DigitsValue(Strip(text)[1..])
  {
    ParseStripped(Strip(text))
  }

  /** `int()` on text without surrounding whitespace. */
  function ParseStripped(t: string): (r: Option<int>)
    ensures r.Some? <==> IsIntText(t)
    ensures r.Some? && IsDigitRun(t) ==> r.value == DigitsValue(t)
    ensures r.Some? && !IsDigitRun(t) ==> r.value == (if t[0] == '-' then -1 else 1) * DigitsValue(t[1..])
  {
    if t != [] && (t[0] == '+' || t[0] == '-') then
      var body := t[1..];
      if IsConvertibleRun(body) then
        assert !IsDigitRun(t);
        var v: int := DigitsValue(body);
        Some(if t[0] == '-' then -v else v)
      else None
    else if IsConvertibleRun(t) then Some(DigitsValue(t))
    else None
  }

  /** Text `int()` accepts is not empty and holds only digits, signs and underscores. */
  lemma IntTextChars(t: string)
    requires IsIntText(t)
    ensures t != []
    ensures forall i :: 0 <= i < |t| ==> IsDigit(t[i]) || t[i] == '+' || t[i] == '-' || t[i] == '_'
  {
    if !IsDigitRun(t) {
      assert forall i :: 1 <= i < |t| ==> t[i] == t[1..][i - 1];
    }
  }

  /** `_safe_int`: no value, or text `int()` rejects, gives `None`. */
  function SafeInt(value: Option<string>): (r: Option<int>)
    ensures value.None? ==> r.None?
    ensures value.Some? ==> r == ParseInt(value.value)
  {
    match value
    case None => None
    case Some(text) => ParseInt(text)
  }

  function DigitChar(d: nat): char
    requires d < 10
  {
    ('0' as int + d) as char
  }

  /** The decimal digits of `n`, most significant first, without leading zeros. */
  function Decimal(n: nat): (r: string)
    ensures IsDigitRun(r)
    ensures forall i :: 0 <= i < |r| ==> IsDigit(r[i])
  {
    if n < 10 then [DigitChar(n)] else Decimal(n / 10) + [DigitChar(n % 10)]
  }

  /** `str(n)` for an integer. */
  function IntText(n: int): string {
    if n < 0 then "-" + Decimal(-n) else Decimal(n)
  }

  lemma {:induction false} DecimalValue(n: nat)
    ensures DigitsValue(Decimal(n)) == n
  {
    if n >= 10 {
      DecimalValue(n / 10);
      var d := Decimal(n);
      assert d[..|d| - 1] == Decimal(n / 10);
    }
  }

  /** A run of digits alone has one digit per character. */
  lemma {:induction false} AllDigitsCount(s: string)
    requires forall i :: 0 <= i < |s| ==> IsDigit(s[i])
    ensures DigitCount(s) == |s|
  {
    if s != [] {
      AllDigitsCount(s[..|s| - 1]);
    }
  }

  /** `_safe_int(str(n)) == n` for every integer with at most `MAX_STR_DIGITS` digits; the
      text of a longer one exceeds `int()`'s limit and gives `None`. */
  lemma SafeIntRoundTrip(n: int)
    ensures |Decimal(if n < 0 then -n else n)| <= MAX_STR_DIGITS ==> SafeInt(Some(IntText(n))) == Some(n)
    ensures |Decimal(if n < 0 then -n else n)| > MAX_STR_DIGITS ==> SafeInt(Some(IntText(n))) == None
  {
    IntTextStripped(n);
    ParseDecimalText(n);
    assert SafeInt(Some(IntText(n))) == ParseStripped(IntText(n));
  }

  /** `int()` on the decimal text of `n`: `n` itself within the digit limit, else `None`. */
  lemma ParseDecimalText(n: int)
    ensures var m := if n < 0 then -n else n;
      ParseStripped(IntText(n)) == if |Decimal(m)| <= MAX_STR_DIGITS then Some(n) else None
  {
    var t := IntText(n);
    var m := if n < 0 then -n else n;
    var d := Decimal(m);
    DecimalFacts(m);
    if n < 0 {
      assert t[0] == '-' && t[1..] == d;
      assert !IsConvertibleRun(t);
      assert IsIntText(t) <==> |d| <= MAX_STR_DIGITS;
    } else {
      assert t == d;
    }
  }

  /** The decimal text of `m` is a digit run, starts with a digit, counts one digit per
      character and has the value `m`. */
  lemma DecimalFacts(m: nat)
    ensures var d := Decimal(m);
      && IsDigitRun(d) && IsDigit(d[0]) && DigitCount(d) == |d| && DigitsValue(d) == m
  {
    DecimalValue(m);
    AllDigitsCount(Decimal(m));
  }

  /** The decimal text of an integer has no surrounding whitespace. */
  lemma IntTextStripped(n: int)
    ensures Strip(IntText(n)) == IntText(n)
  {
    var t := IntText(n);
    assert !IsSpace(t[0]) && !IsSpace(t[|t| - 1]);
  }

  // ---------------------------------------------------------------- metadata

  datatype Metadata = Metadata(
    gameId: string,
    white: string,
    black: string,
    result: string,
    date: string,
    timeControl: string,
    variant: string,
    startingFen: Option<string>,
    whiteElo: Option<int>,
    blackElo: Option<int>)

  /** The game id: the text after the last `/` of Site when Site has one, else GameId. */
  function GameIdOf(headers: map<string, string>): (r: string)
    ensures var site := Get(headers, "Site", "");
      '/' in site ==> '/' !in r && |r| < |site| && site[|site| - |r|..] == r && site[|site| - |r| - 1] == '/'
    ensures var site := Get(headers, "Site", "");
      '/' !in site ==> r == Get(headers, "GameId", "")
  {
    var site := Get(headers, "Site", "");
    if '/' in site then
      var parts := SplitOn(site, '/');
      JoinLastPiece(parts, '/');
      parts[|parts| - 1]
    else Get(headers, "GameId", "")
  }

  /** `value` is the header's value, or empty when the header is missing. */
  predicate FieldOrEmpty(headers: map<string, string>, key: string, value: string) {
    (key in headers ==> value == headers[key]) && (key !in headers ==> value == "")
  }

  /** Normalised metadata: missing text fields are empty, the variant defaults to
      "Standard", the FEN counts only under `SetUp "1"`, and elos are read as integers. */
  function ExtractGameMetadata(headers: map<string, string>): (r: Metadata)
    ensures r.gameId == GameIdOf(headers)
    ensures "Variant" !in headers ==> r.variant == "Standard"
    ensures "Variant" in headers ==> r.variant == headers["Variant"]
    ensures r.startingFen.Some? <==> "SetUp" in headers && headers["SetUp"] == "1" && "FEN" in headers
    ensures r.startingFen.Some? ==> r.startingFen.value == headers["FEN"]
    ensures "WhiteElo" !in headers ==> r.whiteElo.None?
    ensures "WhiteElo" in headers ==> r.whiteElo == ParseInt(headers["WhiteElo"])
    ensures "BlackElo" !in headers ==> r.blackElo.None?
    ensures "BlackElo" in headers ==> r.blackElo == ParseInt(headers["BlackElo"])
    ensures FieldOrEmpty(headers, "White", r.white) && FieldOrEmpty(headers, "Black", r.black)
    ensures FieldOrEmpty(headers, "Result", r.result) && FieldOrEmpty(headers, "Date", r.date)
    ensures FieldOrEmpty(headers, "TimeControl", r.timeControl)
  {
    Metadata(
      GameIdOf(headers),
      Get(headers, "White", ""),
      Get(headers, "Black", ""),
      Get(headers, "Result", ""),
      Get(headers, "Date", ""),
      Get(headers, "TimeControl", ""),
      Get(headers, "Variant", "Standard"),
      if "SetUp" in headers && headers["SetUp"] == "1" && "FEN" in headers then Some(headers["FEN"]) else None,
      SafeInt(if "WhiteElo" in headers then Some(headers["WhiteElo"]) else None),
      SafeInt(if "BlackElo" in headers then Some(headers["BlackElo"]) else None))
  }
}
