/**
 * Player classification and game filtering (modules/analysis/grouping.py).
 *
 * A `PlayerClassifier` holds an ordered list of named rules and a `GameFilter` an ordered
 * list of filters; both grow through chained `add_*` calls that append and return the
 * object itself. The source stores Python closures; here each kind of closure it builds is
 * a constructor of `Rule` or `Filter` carrying the values the closure captured, and
 * `add_rule`'s arbitrary callable is the `Custom` rule.
 */
module Grouping {
  import opened Wrappers
  import opened Text

  /** The game facts the rules and filters look at. */
  datatype GameInfo = GameInfo(
    whitePlayer: string,
    blackPlayer: string,
    whiteElo: Option<int>,
    blackElo: Option<int>,
    timeControl: Option<string>,
    variant: string)

  /** The patterns whose presence in a lower-cased player name marks an engine. */
  const ENGINE_PATTERNS: seq<string> :=
    ["leela", "stockfish", "komodo", "houdini", "fire", "dragon", "lc0", "sf", "bot", "engine", "computer"]

  /** The largest elo present in the game, if any. */
  function MaxElo(game: GameInfo): (r: Option<int>)
    ensures r.None? <==> game.whiteElo.None? && game.blackElo.None?
    ensures r.Some? ==> (r == game.whiteElo || r == game.blackElo)
    ensures r.Some? && game.whiteElo.Some? ==> game.whiteElo.value <= r.value
    ensures r.Some? && game.blackElo.Some? ==> game.blackElo.value <= r.value
  {
    match (game.whiteElo, game.blackElo)
    case (None, None) => None
    case (Some(w), None) => Some(w)
    case (None, Some(b)) => Some(b)
    case (Some(w), Some(b)) => Some(if w >= b then w else b)
  }

  /** Some pattern is a substring of `text`. */
  function SomeOccurs(patterns: seq<string>, text: string): (r: bool)
    ensures r <==> exists k :: 0 <= k < |patterns| && Contains(text, patterns[k])
  {
    if patterns == [] then false
    else Contains(text, patterns[0]) || SomeOccurs(patterns[1..], text)
  }

  /** The set of lower-cased names, as the name rule and the variant filter build it. */
  function LowerSet(names: seq<string>): set<string> {
    set k | 0 <= k < |names| :: Lower(names[k])
  }

  // ---------------------------------------------------------------- rules

  datatype Rule =
    | Custom(test: GameInfo -> bool)
    | EngineNames(patterns: seq<string>)
    | RatingBand(minRating: int, maxRating: int)
    | PlayerNames(names: set<string>)

  /** `pattern` occurs in the lower-cased name of either player. */
  predicate InEitherName(pattern: string, game: GameInfo) {
    Contains(Lower(game.whitePlayer), pattern) || Contains(Lower(game.blackPlayer), pattern)
  }

  /** The engine test: some pattern occurs in either lower-cased player name. */
  function IsEngine(patterns: seq<string>, game: GameInfo): (r: bool)
    ensures r <==> exists k :: 0 <= k < |patterns| && InEitherName(patterns[k], game)
  {
    if patterns == [] then false
    else
      InEitherName(patterns[0], game) || IsEngine(patterns[1..], game)
  }

  /** The rating test: the larger present elo lies in `[minRating, maxRating]`. */
  function RatingMatch(minRating: int, maxRating: int, game: GameInfo): bool {
    match MaxElo(game)
    case None => false
    case Some(m) => minRating <= m <= maxRating
  }

  function Holds(rule: Rule, game: GameInfo): bool {
    match rule
    case Custom(test) => test(game)
    case EngineNames(patterns) => IsEngine(patterns, game)
    case RatingBand(lo, hi) => RatingMatch(lo, hi, game)
    case PlayerNames(names) => Lower(game.whitePlayer) in names || Lower(game.blackPlayer) in names
  }

  /** The rating rule, stated on the individual elos: some present elo reaches the minimum
      and no present elo exceeds the maximum; so with no elo it never holds. */
  lemma RatingRuleByElos(lo: int, hi: int, game: GameInfo)
    ensures Holds(RatingBand(lo, hi), game) <==>
      && ((game.whiteElo.Some? && lo <= game.whiteElo.value) || (game.blackElo.Some? && lo <= game.blackElo.value))
      && (game.whiteElo.Some? ==> game.whiteElo.value <= hi)
      && (game.blackElo.Some? ==> game.blackElo.value <= hi)
  {
  }

  /** The name rule compares case-insensitively against the names it was given. */
  lemma NameRuleMatches(playerNames: seq<string>, game: GameInfo)
    ensures Holds(PlayerNames(LowerSet(playerNames)), game) <==>
      exists k :: 0 <= k < |playerNames| &&
        (Lower(playerNames[k]) == Lower(game.whitePlayer) || Lower(playerNames[k]) == Lower(game.blackPlayer))
  {
  }

  /** Positions of the rules that hold for `game`, in increasing order. */
  function MatchingIndices(rules: seq<(string, Rule)>, game: GameInfo): (r: seq<nat>)
    ensures forall k :: 0 <= k < |r| ==> r[k] < |rules|
    ensures forall k, l :: 0 <= k < l < |r| ==> r[k] < r[l]
    ensures forall i :: 0 <= i < |rules| ==> (i in r <==> Holds(rules[i].1, game))
  {
    if rules == [] then []
    else
      var prefix := MatchingIndices(rules[..|rules| - 1], game);
      if Holds(rules[|rules| - 1].1, game) then prefix + [|rules| - 1] else prefix
  }

  /** The names of the rules that hold, in insertion order. */
  function MatchingNames(rules: seq<(string, Rule)>, game: GameInfo): seq<string> {
    if rules == [] then []
    else
      var last := rules[|rules| - 1];
      MatchingNames(rules[..|rules| - 1], game) + (if Holds(last.1, game) then [last.0] else [])
  }

  /** `classify_game` answers the names of exactly the matching rules, in the order the
      rules were added: name `k` of the answer belongs to the `k`-th matching rule. */
  lemma {:induction false} MatchingNamesInOrder(rules: seq<(string, Rule)>, game: GameInfo)
    ensures var idx := MatchingIndices(rules, game);
      var names := MatchingNames(rules, game);
      && |names| == |idx| <= |rules|
      && forall k :: 0 <= k < |idx| ==> names[k] == rules[idx[k]].0
  {
    if rules != [] {
      var front := rules[..|rules| - 1];
      MatchingNamesInOrder(front, game);
      var idx := MatchingIndices(front, game);
      assert |idx| <= |front| by {
        NoMoreIndicesThanRules(idx, |front|);
      }
    }
  }

  /** A strictly increasing sequence of indices below `n` has at most `n` entries. */
  lemma {:induction false} NoMoreIndicesThanRules(idx: seq<nat>, n: nat)
    requires forall k :: 0 <= k < |idx| ==> idx[k] < n
    requires forall k, l :: 0 <= k < l < |idx| ==> idx[k] < idx[l]
    ensures |idx| <= n
  {
    if idx != [] {
      var front := idx[..|idx| - 1];
      NoMoreIndicesThanRules(front, idx[|idx| - 1]);
    }
  }

  /** A name is in the answer exactly when some rule of that name holds. */
  lemma MatchingNamesMembership(rules: seq<(string, Rule)>, game: GameInfo, name: string)
    ensures name in MatchingNames(rules, game) <==>
      exists i :: 0 <= i < |rules| && rules[i].0 == name && Holds(rules[i].1, game)
  {
    MatchingNamesInOrder(rules, game);
    var idx := MatchingIndices(rules, game);
    var names := MatchingNames(rules, game);
    if name in names {
      var k :| 0 <= k < |names| && names[k] == name;
      assert idx[k] in idx;
    }
    if i :| 0 <= i < |rules| && rules[i].0 == name && Holds(rules[i].1, game) {
      var k :| 0 <= k < |idx| && idx[k] == i;
      assert names[k] == name;
    }
  }

  class PlayerClassifier {
    var rules: seq<(string, Rule)>
    const enginePatterns: seq<string>

    constructor()
      ensures rules == [] && enginePatterns == ENGINE_PATTERNS
    {
      rules := [];
      enginePatterns := ENGINE_PATTERNS;
    }

    /** Appends one named rule and answers the classifier itself. */
    method AddRule(name: string, rule: Rule) returns (self: PlayerClassifier)
      modifies this
      ensures self == this
      ensures rules == old(rules) + [(name, rule)]
    {
      rules := rules + [(name, rule)];
      self := this;
    }

    /** Appends the engine rule over this classifier's engine patterns. */
    method AddEngineRule(name: string := "engine") returns (self: PlayerClassifier)
      modifies this
      ensures self == this
      ensures rules == old(rules) + [(name, EngineNames(enginePatterns))]
    {
      self := AddRule(name, EngineNames(enginePatterns));
    }

    /** Appends a rating rule for `[minRating, maxRating]`. */
    method AddRatingRule(name: string, minRating: int, maxRating: int := 9999) returns (self: PlayerClassifier)
      modifies this
      ensures self == this
      ensures rules == old(rules) + [(name, RatingBand(minRating, maxRating))]
    {
      self := AddRule(name, RatingBand(minRating, maxRating));
    }

    /** Appends a rule matching the given player names, compared lower-cased. */
    method AddPlayerNameRule(name: string, playerNames: seq<string>) returns (self: PlayerClassifier)
      modifies this
      ensures self == this
      ensures rules == old(rules) + [(name, PlayerNames(LowerSet(playerNames)))]
    {
      self := AddRule(name, PlayerNames(LowerSet(playerNames)));
    }

    /** The names of the rules that hold for `game`, in insertion order. */
    method ClassifyGame(game: GameInfo) returns (matches: seq<string>)
      ensures matches == MatchingNames(rules, game)
    {
      matches := [];
      for i := 0 to |rules|
        invariant matches == MatchingNames(rules[..i], game)
      {
        var (name, rule) := rules[i];
        if Holds(rule, game) {
          matches := matches + [name];
        }
        assert rules[..i + 1][..i] == rules[..i];
      }
      assert rules[..|rules|] == rules;
    }
  }

  // ---------------------------------------------------------------- filters

  datatype Filter =
    | VariantIn(variants: set<string>)
    | TimeControlLike(patterns: seq<string>)
    | RatingWithin(minRating: Option<int>, maxRating: Option<int>)

  function Admits(filter: Filter, game: GameInfo): bool {
    match filter
    case VariantIn(variants) => Lower(game.variant) in variants
    case TimeControlLike(patterns) =>
      (match game.timeControl
       case None => false
       case Some(tc) => SomeOccurs(patterns, tc))
    case RatingWithin(lo, hi) =>
      match MaxElo(game)
      case None => lo.None?
      case Some(m) =>
        if lo.Some? && m < lo.value then false
        else if hi.Some? && m > hi.value then false
        else true
  }

  /** Every filter admits the game. */
  function AllAdmit(filters: seq<Filter>, game: GameInfo): (r: bool)
    ensures r <==> forall i :: 0 <= i < |filters| ==> Admits(filters[i], game)
  {
    if filters == [] then true
    else Admits(filters[0], game) && AllAdmit(filters[1..], game)
  }

  /** The variant filter is case-insensitive membership in the variants it was given. */
  lemma VariantFilterMatches(variants: seq<string>, game: GameInfo)
    ensures Admits(VariantIn(LowerSet(variants)), game) <==>
      exists k :: 0 <= k < |variants| && Lower(variants[k]) == Lower(game.variant)
  {
  }

  /** The time-control filter rejects a game without a time control and otherwise needs
      some pattern to occur in it. */
  lemma TimeControlFilterMatches(patterns: seq<string>, game: GameInfo)
    ensures Admits(TimeControlLike(patterns), game) <==>
      game.timeControl.Some? && exists k :: 0 <= k < |patterns| && Contains(game.timeControl.value, patterns[k])
  {
  }

  /** The rating filter: a game without elos passes exactly when there is no minimum; with
      both bounds it agrees with the rating rule; with neither it admits every game. */
  lemma RatingFilterMatches(lo: Option<int>, hi: Option<int>, game: GameInfo)
    ensures MaxElo(game).None? ==> (Admits(RatingWithin(lo, hi), game) <==> lo.None?)
    ensures lo.Some? && hi.Some? ==>
      Admits(RatingWithin(lo, hi), game) == Holds(RatingBand(lo.value, hi.value), game)
    ensures lo.None? && hi.None? ==> Admits(RatingWithin(lo, hi), game)
    ensures MaxElo(game).Some? ==>
      (Admits(RatingWithin(lo, hi), game) <==>
        (lo.None? || lo.value <= MaxElo(game).value) && (hi.None? || MaxElo(game).value <= hi.value))
  {
  }

  class GameFilter {
    var filters: seq<Filter>

    constructor()
      ensures filters == []
    {
      filters := [];
    }

    method AddVariantFilter(variants: seq<string>) returns (self: GameFilter)
      modifies this
      ensures self == this
      ensures filters == old(filters) + [VariantIn(LowerSet(variants))]
    {
      filters := filters + [VariantIn(LowerSet(variants))];
      self := this;
    }

    method AddTimeControlFilter(timeControls: seq<string>) returns (self: GameFilter)
      modifies this
      ensures self == this
      ensures filters == old(filters) + [TimeControlLike(timeControls)]
    {
      filters := filters + [TimeControlLike(timeControls)];
      self := this;
    }

    method AddRatingFilter(minRating: Option<int> := None, maxRating: Option<int> := None) returns (self: GameFilter)
      modifies this
      ensures self == this
      ensures filters == old(filters) + [RatingWithin(minRating, maxRating)]
    {
      filters := filters + [RatingWithin(minRating, maxRating)];
      self := this;
    }

    /** The game passes every filter; so a filter with none accepts every game. */
    function Passes(game: GameInfo): (r: bool)
      reads this
      ensures r <==> forall i :: 0 <= i < |filters| ==> Admits(filters[i], game)
      ensures filters == [] ==> r
    {
      AllAdmit(filters, game)
    }
  }

  // ---------------------------------------------------------------- predefined classifiers

  /** The rules of the Leela-versus-human classifier, in order. */
  function LeelaVsHumanRules(): seq<(string, Rule)> {
    [ ("leela_rook", PlayerNames(LowerSet(["LeelaRookOdds"]))),
      ("leela_knight", PlayerNames(LowerSet(["LeelaKnightOdds"]))),
      ("leela_queen", PlayerNames(LowerSet(["LeelaQueenOdds"]))),
      ("leela_std", PlayerNames(LowerSet(["LazyBot"]))),
      ("engine", EngineNames(ENGINE_PATTERNS)) ]
  }

  method CreateLeelaVsHumanClassifier() returns (c: PlayerClassifier)
    ensures fresh(c)
    ensures c.rules == LeelaVsHumanRules() && c.enginePatterns == ENGINE_PATTERNS
  {
    c := new PlayerClassifier();
    var _ := c.AddPlayerNameRule("leela_rook", ["LeelaRookOdds"]);
    var _ := c.AddPlayerNameRule("leela_knight", ["LeelaKnightOdds"]);
    var _ := c.AddPlayerNameRule("leela_queen", ["LeelaQueenOdds"]);
    var _ := c.AddPlayerNameRule("leela_std", ["LazyBot"]);
    var _ := c.AddEngineRule("engine");
  }

  /** The rules of the rating-bracket classifier, in order. */
  function RatingBracketRules(): seq<(string, Rule)> {
    [ ("beginner", RatingBand(0, 1200)),
      ("intermediate", RatingBand(1200, 1800)),
      ("advanced", RatingBand(1800, 2200)),
      ("expert", RatingBand(2200, 9999)) ]
  }

  method CreateRatingClassifier() returns (c: PlayerClassifier)
    ensures fresh(c)
    ensures c.rules == RatingBracketRules() && c.enginePatterns == ENGINE_PATTERNS
  {
    c := new PlayerClassifier();
    var _ := c.AddRatingRule("beginner", 0, 1200);
    var _ := c.AddRatingRule("intermediate", 1200, 1800);
    var _ := c.AddRatingRule("advanced", 1800, 2200);
    var _ := c.AddRatingRule("expert", 2200, 9999);
  }

  /** A game whose white player is "LeelaRookOdds" is grouped as `leela_rook` and `engine`. */
  lemma LeelaRookOddsGame(game: GameInfo)
    requires game.whitePlayer == "LeelaRookOdds"
    ensures "leela_rook" in MatchingNames(LeelaVsHumanRules(), game)
    ensures "engine" in MatchingNames(LeelaVsHumanRules(), game)
  {
    var rules := LeelaVsHumanRules();
    var names := ["LeelaRookOdds"];
    assert Lower(names[0]) in LowerSet(names);
    assert Holds(rules[0].1, game);
    MatchingNamesMembership(rules, game, "leela_rook");
    assert OccursAt(Lower(game.whitePlayer), ENGINE_PATTERNS[0], 0);
    assert Holds(rules[4].1, game);
    MatchingNamesMembership(rules, game, "engine");
  }

  /** The four Leela accounts the classifier names, in rule order. */
  const LEELA_ACCOUNTS: seq<string> := ["LeelaRookOdds", "LeelaKnightOdds", "LeelaQueenOdds", "LazyBot"]

  /** `player` is one of the Leela accounts, ignoring case. */
  predicate LeelaAccount(player: string) {
    exists k :: 0 <= k < |LEELA_ACCOUNTS| && Lower(LEELA_ACCOUNTS[k]) == Lower(player)
  }

  /** The Leela-versus-human classifier reports a `leela_` group exactly when one of the
      players is a Leela account; the `engine` group is the only other one it has. */
  lemma LeelaGroupsExactly(game: GameInfo)
    ensures (exists g :: g in MatchingNames(LeelaVsHumanRules(), game) && StartsWith(g, "leela_")) <==>
      LeelaAccount(game.whitePlayer) || LeelaAccount(game.blackPlayer)
  {
    var rules := LeelaVsHumanRules();
    forall i | 0 <= i < 4
      ensures StartsWith(rules[i].0, "leela_")
      ensures Holds(rules[i].1, game) <==>
        Lower(LEELA_ACCOUNTS[i]) == Lower(game.whitePlayer) || Lower(LEELA_ACCOUNTS[i]) == Lower(game.blackPlayer)
    {
      var names := [LEELA_ACCOUNTS[i]];
      assert rules[i].1 == PlayerNames(LowerSet(names));
      assert LowerSet(names) == {Lower(LEELA_ACCOUNTS[i])} by {
        assert Lower(names[0]) in LowerSet(names);
      }
    }
    assert !StartsWith(rules[4].0, "leela_") by {
      assert rules[4].0[0] != "leela_"[0];
    }
    if g :| g in MatchingNames(rules, game) && StartsWith(g, "leela_") {
      MatchingNamesMembership(rules, game, g);
      var i :| 0 <= i < |rules| && rules[i].0 == g && Holds(rules[i].1, game);
      assert i < 4;
    }
    if LeelaAccount(game.whitePlayer) || LeelaAccount(game.blackPlayer) {
      var k :| 0 <= k < |LEELA_ACCOUNTS|
        && (Lower(LEELA_ACCOUNTS[k]) == Lower(game.whitePlayer) || Lower(LEELA_ACCOUNTS[k]) == Lower(game.blackPlayer));
      MatchingNamesMembership(rules, game, rules[k].0);
      assert rules[k].0 in MatchingNames(rules, game);
    }
  }

  /** A name no lower-cased entry of `names` can equal, having another length. */
  lemma {:induction false} UnlistedByLength(player: string, names: seq<string>)
    requires forall k :: 0 <= k < |names| ==> |names[k]| != |player|
    ensures Lower(player) !in LowerSet(names)
  {
    forall k | 0 <= k < |names| ensures Lower(names[k]) != Lower(player) {
      assert |Lower(names[k])| == |names[k]|;
    }
  }

  /** Not the length of any of the four Leela account names. */
  predicate UnlikeLeelaAccount(player: string) {
    |player| != 7 && |player| != 13 && |player| != 14 && |player| != 15
  }

  /** Two players whose names differ in length from the four Leela accounts' (as "Alice"
      and "Bob" do) get no `leela_` group. */
  lemma NoLeelaGroupForOthers(game: GameInfo)
    requires UnlikeLeelaAccount(game.whitePlayer) && UnlikeLeelaAccount(game.blackPlayer)
    ensures forall g :: g in MatchingNames(LeelaVsHumanRules(), game) ==> !StartsWith(g, "leela_")
  {
    UnlistedByLength(game.whitePlayer, LEELA_ACCOUNTS);
    UnlistedByLength(game.blackPlayer, LEELA_ACCOUNTS);
    LeelaGroupsExactly(game);
  }

  /** A game whose larger elo is 1200 falls in both the `beginner` and `intermediate`
      brackets, and in no other. */
  lemma RatingBoundaryShared(game: GameInfo)
    requires MaxElo(game) == Some(1200)
    ensures MatchingNames(RatingBracketRules(), game) == ["beginner", "intermediate"]
  {
    var rules := RatingBracketRules();
    assert rules[..1][..0] == [];
    assert MatchingNames(rules[..1], game) == ["beginner"];
    assert rules[..2][..1] == rules[..1];
    assert MatchingNames(rules[..2], game) == ["beginner", "intermediate"];
    assert rules[..3][..2] == rules[..2];
    assert MatchingNames(rules[..3], game) == ["beginner", "intermediate"];
    assert rules[..3] == rules[..|rules| - 1];
  }
}
