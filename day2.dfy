/** Day 2 of 2023, "Cube Conundrum": each line records a game, "Game N: a colour, b colour; ...",
    as rounds separated by "; " and entries separated by ", ". Part one adds the ids of the games
    whose every round stays within 12 red, 14 blue and 13 green cubes; part two adds, per game,
    the product of the largest non-zero count seen for each colour. */
module CubeGame {
  import opened Text

  // ---------------------------------------------------------------------------------------
  // Parsing

  /** `get_game_number`: the second space-separated word of the text before ": ". A missing
      word (an index panic) or a word that is not a `u64` (`process::exit`) aborts the program;
      the model returns None. */
  function GetGameNumber(prefix: string): (r: Option<nat>)
    ensures r.Some? ==> r.value <= U64_MAX
  {
    var numberDetails := Split(prefix, " ");
    if |numberDetails| < 2 then None else ParseU64(numberDetails[1])
  }

  /** `parse_colour_details`: an entry "<count> <colour> ..." gives (colour, count); a missing or
      empty first or second word, or a count that is not a `u64`, gives None. */
  function ParseColourDetails(entry: string): (r: Option<(string, nat)>)
    ensures r.Some? ==> r.value.0 != "" && NoSpace(r.value.0) && r.value.1 <= U64_MAX
  {
    var details := Split(entry, " ");
    SplitPiecesAvoidSep(entry, " ");
    NoSpacePieces(details);
    var number := details[0];
    var colour := if |details| >= 2 then details[1] else "";
    if number == "" || colour == "" then None
    else
      match ParseU64(number)
      case Some(value) => Some((colour, value))
      case None => None
  }

  /** No space anywhere in s. */
  predicate NoSpace(s: string) {
    forall k :: 0 <= k < |s| ==> s[k] != ' '
  }

  /** Pieces that never contain the separator " " have no space. */
  lemma NoSpacePieces(pieces: seq<string>)
    requires forall p, k: nat :: p in pieces ==> !OccursAt(p, " ", k)
    ensures forall p :: p in pieces ==> NoSpace(p)
  {
    forall p, k | p in pieces && 0 <= k < |p|
      ensures p[k] != ' '
    {
      OccursAtChar(p, ' ', k);
    }
  }

  lemma NoSpaceSplit(s: string)
    requires NoSpace(s)
    ensures Split(s, " ") == [s]
  {
    forall k: nat ensures !OccursAt(s, " ", k) {
      OccursAtChar(s, ' ', k);
    }
    SplitWithoutSep(s, " ");
  }

  /** Splitting on " " at the first space: the word before it, then the rest split. */
  lemma SplitWord(w: string, rest: string)
    requires NoSpace(w)
    ensures Split(w + " " + rest, " ") == [w] + Split(rest, " ")
  {
    forall k: nat | k < |w| ensures !OccursAt(w + " " + rest, " ", k) {
      OccursAtChar(w + " " + rest, ' ', k);
      assert (w + " " + rest)[k] == w[k];
    }
    SplitAtFirst(w, " ", rest);
  }

  lemma DecimalNoSpace(n: nat)
    ensures NoSpace(Decimal(n))
  {
    var d := Decimal(n);
    forall k | 0 <= k < |d| ensures d[k] != ' ' {
      assert IsDigit(d[k]);
    }
  }

  /** "Game N" (any first word, then the decimal N) has game number N. */
  lemma GameNumberOfPrefix(word: string, n: nat)
    requires NoSpace(word) && n <= U64_MAX
    ensures GetGameNumber(word + " " + Decimal(n)) == Some(n)
  {
    DecimalNoSpace(n);
    SplitWord(word, Decimal(n));
    NoSpaceSplit(Decimal(n));
    ParseDecimal(n);
  }

  /** A prefix without a space has no second word: the program aborts. */
  lemma GameNumberWithoutSpace(prefix: string)
    requires NoSpace(prefix)
    ensures GetGameNumber(prefix) == None
  {
    NoSpaceSplit(prefix);
  }

  /** An entry "<n> <colour>", optionally followed by a space and anything at all, parses to
      (colour, n): words after the second are ignored. */
  lemma ParseEntry(n: nat, colour: string, rest: string)
    requires n <= U64_MAX && colour != "" && NoSpace(colour)
    requires rest == "" || rest[0] == ' '
    ensures ParseColourDetails(Decimal(n) + " " + colour + rest) == Some((colour, n))
  {
    DecimalNoSpace(n);
    assert Decimal(n) + " " + colour + rest == Decimal(n) + " " + (colour + rest);
    SplitWord(Decimal(n), colour + rest);
    if rest == "" {
      assert colour + rest == colour;
      NoSpaceSplit(colour);
    } else {
      assert colour + rest == colour + " " + rest[1..];
      SplitWord(colour, rest[1..]);
    }
    ParseDecimal(n);
  }

  /** An entry whose first word is not a `u64` (a colour first, or a leading space leaving the
      first word empty) does not parse. */
  lemma ParseEntryBadCount(word: string, rest: string)
    requires NoSpace(word) && ParseU64(word).None?
    ensures ParseColourDetails(word + " " + rest) == None
  {
    SplitWord(word, rest);
  }

  /** An entry of one word has no colour and does not parse. */
  lemma ParseEntryOneWord(entry: string)
    requires NoSpace(entry)
    ensures ParseColourDetails(entry) == None
  {
    NoSpaceSplit(entry);
  }

  // ---------------------------------------------------------------------------------------
  // Colour maps

  /** `get_colour_map`. */
  function ColourMap(red: nat, blue: nat, green: nat): map<string, nat> {
    map["red" := red, "blue" := blue, "green" := green]
  }

  /** `map.get(colour).unwrap_or(&0)`. */
  function Lookup(m: map<string, nat>, colour: string): nat {
    if colour in m then m[colour] else 0
  }

  lemma ColourMapLookup(red: nat, blue: nat, green: nat, colour: string)
    ensures ColourMap(red, blue, green).Keys == {"red", "blue", "green"}
    ensures Lookup(ColourMap(red, blue, green), colour) ==
      if colour == "red" then red else if colour == "blue" then blue else if colour == "green" then green else 0
  {
  }

  /** The entries of a round and the rounds of a game. */
  function Entries(round: string): seq<string> {
    Split(round, ", ")
  }

  function Rounds(gameData: string): seq<string> {
    Split(gameData, "; ")
  }

  /** The count an entry adds to `colour`. */
  function EntryCount(entry: string, colour: string): nat {
    match ParseColourDetails(entry)
    case Some((c, value)) => if c == colour then value else 0
    case None => 0
  }

  // ---------------------------------------------------------------------------------------
  // Part one

  /** The cubes of one colour shown in a round: the counts of its entries of that colour, added. */
  function Tally(entries: seq<string>, colour: string): nat {
    if entries == [] then 0 else Tally(entries[..|entries| - 1], colour) + EntryCount(entries[|entries| - 1], colour)
  }

  /** The `round.split(", ").for_each(...)` of `solution_part1`: `round_map` starts at zero for
      red, blue and green and adds each parsed entry's count to its colour. */
  method TallyRound(round: string) returns (roundMap: map<string, nat>)
    ensures forall colour :: Lookup(roundMap, colour) == Tally(Entries(round), colour)
  {
    roundMap := ColourMap(0, 0, 0);
    var values := Split(round, ", ");
    var n := 0;
    while n < |values|
      invariant n <= |values|
      invariant forall colour :: Lookup(roundMap, colour) == Tally(values[..n], colour)
    {
      match ParseColourDetails(values[n]) {
        case Some((colour, total)) =>
          roundMap := roundMap[colour := Lookup(roundMap, colour) + total];
        case None =>
      }
      assert values[..n + 1][..n] == values[..n];
      n := n + 1;
    }
    assert values[..n] == values;
  }

  /** `max_configurations.iter().all(...)`: every limited colour is within its limit. */
  predicate WithinLimits(roundMap: map<string, nat>, limits: map<string, nat>) {
    forall key :: key in limits ==> Lookup(roundMap, key) <= limits[key]
  }

  /** The limits of part one are 12 red, 14 blue and 13 green; other colours are not limited. */
  lemma PartOneLimits(roundMap: map<string, nat>)
    ensures WithinLimits(roundMap, ColourMap(12, 14, 13)) <==>
      Lookup(roundMap, "red") <= 12 && Lookup(roundMap, "blue") <= 14 && Lookup(roundMap, "green") <= 13
  {
    ColourMapLookup(12, 14, 13, "red");
  }

  /** A round is possible when its red, blue and green totals are within the limits. */
  predicate RoundPossible(entries: seq<string>) {
    Tally(entries, "red") <= 12 && Tally(entries, "blue") <= 14 && Tally(entries, "green") <= 13
  }

  /** A game is possible when every one of its rounds is. */
  predicate GamePossible(gameData: string) {
    RoundsPossible(Rounds(gameData), |Rounds(gameData)|)
  }

  /** The `game_data.split("; ").all(...)` of `solution_part1`, stopping at the first round
      that goes over a limit. */
  method CheckGame(gameData: string) returns (success: bool)
    ensures success == GamePossible(gameData)
  {
    var maxConfigurations := ColourMap(12, 14, 13);
    var rounds := Split(gameData, "; ");
    success := true;
    var n := 0;
    while n < |rounds| && success
      invariant n <= |rounds|
      invariant success == RoundsPossible(rounds, n)
    {
      var roundMap := TallyRound(rounds[n]);
      success := WithinLimits(roundMap, maxConfigurations);
      RoundCheck(rounds[n], roundMap);
      RoundsPossibleStep(rounds, n);
      n := n + 1;
    }
    if !success {
      RoundsPossibleMonotone(rounds, n);
    }
  }

  /** The first n rounds are possible. */
  predicate RoundsPossible(rounds: seq<string>, n: nat) {
    forall k :: 0 <= k < n && k < |rounds| ==> RoundPossible(Entries(rounds[k]))
  }

  lemma RoundsPossibleStep(rounds: seq<string>, n: nat)
    requires n < |rounds|
    ensures RoundsPossible(rounds, n + 1) == (RoundsPossible(rounds, n) && RoundPossible(Entries(rounds[n])))
  {
  }

  /** A round that is not possible makes the game impossible. */
  lemma RoundsPossibleMonotone(rounds: seq<string>, n: nat)
    requires n <= |rounds| && !RoundsPossible(rounds, n)
    ensures !RoundsPossible(rounds, |rounds|)
  {
  }

  /** The check of the tallied round map against the limits decides whether the round is possible. */
  lemma RoundCheck(round: string, roundMap: map<string, nat>)
    requires forall colour :: Lookup(roundMap, colour) == Tally(Entries(round), colour)
    ensures WithinLimits(roundMap, ColourMap(12, 14, 13)) == RoundPossible(Entries(round))
  {
    PartOneLimits(roundMap);
  }

  /** One line's contribution to part one: None when the game number aborts the program, the id
      when the game is possible, and 0 otherwise (also when there is no ": "). */
  function GameScore(line: string): Option<nat> {
    var lineSplit := Split(line, ": ");
    match GetGameNumber(lineSplit[0])
    case None => None
    case Some(gameNumber) => Some(if |lineSplit| >= 2 && GamePossible(lineSplit[1]) then gameNumber else 0)
  }

  /** Adding to an answer that may have aborted. */
  function AddScore(a: Option<nat>, b: Option<nat>): Option<nat> {
    if a.Some? && b.Some? then Some(a.value + b.value) else None
  }

  /** The `fold` of part one over line scores: None once some line has aborted. */
  function Total(scores: seq<Option<nat>>): Option<nat> {
    if scores == [] then Some(0) else AddScore(Total(scores[..|scores| - 1]), scores[|scores| - 1])
  }

  lemma {:induction false} TotalSplit(a: seq<Option<nat>>, b: seq<Option<nat>>)
    ensures Total(a + b) == AddScore(Total(a), Total(b))
    decreases |b|
  {
    if b == [] {
      assert a + b == a;
    } else {
      var b' := b[..|b| - 1];
      TotalSplit(a, b');
      assert (a + b)[..|a + b| - 1] == a + b';
      assert (a + b)[|a + b| - 1] == b[|b| - 1];
    }
  }

  /** The score of every line, in order. */
  function LineScores(lines: seq<string>): seq<Option<nat>> {
    seq(|lines|, i requires 0 <= i < |lines| => GameScore(lines[i]))
  }

  /** Part one's answer: the line scores added up, None when some line aborts. */
  function PartOne(lines: seq<string>): Option<nat> {
    Total(LineScores(lines))
  }

  /** Part one adds up over a split of the lines (and aborts when either part does). */
  lemma PartOneSplit(a: seq<string>, b: seq<string>)
    ensures PartOne(a + b) == AddScore(PartOne(a), PartOne(b))
  {
    assert LineScores(a + b) == LineScores(a) + LineScores(b);
    TotalSplit(LineScores(a), LineScores(b));
  }

  /** Part one's scan of one line: the game number first (aborting when it fails), then the
      `all` check of the game data when there is some. */
  method LineScore(line: string) returns (score: Option<nat>)
    ensures score == GameScore(line)
  {
    var lineSplit := Split(line, ": ");
    var gameNumber := GetGameNumber(lineSplit[0]);
    if gameNumber.None? {
      return None;
    }
    score := Some(0);
    if |lineSplit| >= 2 {
      var success := CheckGame(lineSplit[1]);
      if success {
        score := Some(gameNumber.value);
      }
    }
  }

  /** `solution_part1`: the fold of the line scores, stopping at a line that aborts. */
  method SolutionPart1(lines: seq<string>) returns (res: Option<nat>)
    ensures res == PartOne(lines)
  {
    var total := 0;
    var i := 0;
    while i < |lines|
      invariant i <= |lines|
      invariant PartOne(lines[..i]) == Some(total)
    {
      var score := LineScore(lines[i]);
      if score.None? {
        PartOneAborts(lines, i);
        return None;
      }
      PartOneAdd(lines, i, total, score.value);
      total := total + score.value;
      i := i + 1;
    }
    assert lines[..i] == lines;
    res := Some(total);
  }

  /** One more line adds its score to part one's answer. */
  lemma PartOneStep(lines: seq<string>, i: nat)
    requires i < |lines|
    ensures PartOne(lines[..i + 1]) == AddScore(PartOne(lines[..i]), GameScore(lines[i]))
  {
    assert lines[..i + 1] == lines[..i] + [lines[i]];
    PartOneSplit(lines[..i], [lines[i]]);
    var g := GameScore(lines[i]);
    assert LineScores([lines[i]]) == [g];
    assert [g][..0] == [];
    assert Total([g]) == AddScore(Some(0), g);
  }

  lemma PartOneAdd(lines: seq<string>, i: nat, total: nat, score: nat)
    requires i < |lines| && PartOne(lines[..i]) == Some(total) && GameScore(lines[i]) == Some(score)
    ensures PartOne(lines[..i + 1]) == Some(total + score)
  {
    PartOneStep(lines, i);
  }

  /** A line that aborts makes the whole answer abort. */
  lemma PartOneAborts(lines: seq<string>, i: nat)
    requires i < |lines| && GameScore(lines[i]).None?
    ensures PartOne(lines) == None
  {
    PartOneStep(lines, i);
    PartOneSplit(lines[..i + 1], lines[i + 1..]);
    assert lines[..i + 1] + lines[i + 1..] == lines;
  }

  // ---------------------------------------------------------------------------------------
  // Part two

  /** The entries of all rounds of a game, in order. */
  function AllEntries(rounds: seq<string>): seq<string> {
    if rounds == [] then [] else AllEntries(rounds[..|rounds| - 1]) + Entries(rounds[|rounds| - 1])
  }

  function Larger(a: nat, b: nat): nat {
    if a < b then b else a
  }

  /** The largest single count of `colour` among the entries (0 when there is none). */
  function MaxEntry(entries: seq<string>, colour: string): nat {
    if entries == [] then 0
    else Larger(MaxEntry(entries[..|entries| - 1], colour), EntryCount(entries[|entries| - 1], colour))
  }

  /** MaxEntry is the largest single count of the colour, not a sum: every entry's count is at
      most MaxEntry, and a positive MaxEntry is the count of one entry. */
  lemma {:induction false} MaxEntryIsMax(entries: seq<string>, colour: string)
    ensures forall k :: 0 <= k < |entries| ==> EntryCount(entries[k], colour) <= MaxEntry(entries, colour)
    ensures MaxEntry(entries, colour) == 0 ||
      exists k :: 0 <= k < |entries| && EntryCount(entries[k], colour) == MaxEntry(entries, colour)
    decreases |entries|
  {
    if entries != [] {
      var front := entries[..|entries| - 1];
      MaxEntryIsMax(front, colour);
      assert forall k :: 0 <= k < |front| ==> entries[k] == front[k];
      if MaxEntry(entries, colour) != EntryCount(entries[|entries| - 1], colour) {
        assert MaxEntry(entries, colour) == MaxEntry(front, colour);
        if MaxEntry(front, colour) != 0 {
          var k :| 0 <= k < |front| && EntryCount(front[k], colour) == MaxEntry(front, colour);
          assert EntryCount(entries[k], colour) == MaxEntry(entries, colour);
        }
      }
    }
  }

  /** The colours with a positive count among the entries. */
  function PositiveColours(entries: seq<string>): set<string> {
    if entries == [] then {}
    else
      PositiveColours(entries[..|entries| - 1])
      + match ParseColourDetails(entries[|entries| - 1]) {
          case Some((c, value)) => if value > 0 then {c} else {}
          case None => {}
        }
  }

  /** A colour has a positive count exactly when its maximum is positive. */
  lemma {:induction false} PositiveColoursMax(entries: seq<string>, colour: string)
    ensures colour in PositiveColours(entries) <==> MaxEntry(entries, colour) > 0
    decreases |entries|
  {
    if entries != [] {
      PositiveColoursMax(entries[..|entries| - 1], colour);
    }
  }

  /** `max_configurations` after part two's scan: red, blue and green, and every colour with a
      positive count, each mapped to its largest single count. */
  function MaxConfig(entries: seq<string>): map<string, nat> {
    map colour | colour in {"red", "blue", "green"} + PositiveColours(entries) :: MaxEntry(entries, colour)
  }

  /** The inner `for_each` of `solution_part2` on one entry: a larger count replaces the stored
      one. */
  method NoteEntry(maxConfigurations: map<string, nat>, value: string) returns (maxConfigurations': map<string, nat>)
    ensures forall c :: Lookup(maxConfigurations', c) == Larger(Lookup(maxConfigurations, c), EntryCount(value, c))
    ensures forall c :: c in maxConfigurations' <==> c in maxConfigurations || EntryCount(value, c) > 0
  {
    maxConfigurations' := maxConfigurations;
    match ParseColourDetails(value) {
      case Some((colour, total)) =>
        if Lookup(maxConfigurations, colour) < total {
          maxConfigurations' := maxConfigurations[colour := total];
        }
      case None =>
    }
  }

  /** What the part-two scan knows after some entries: red, blue and green are stored, a colour
      is stored only once it had a positive count, and each stored count is that colour's maximum. */
  ghost predicate MaxState(m: map<string, nat>, seen: seq<string>) {
    && (forall c :: Lookup(m, c) == MaxEntry(seen, c))
    && (forall c :: c in m <==> c in {"red", "blue", "green"} || MaxEntry(seen, c) > 0)
  }

  lemma MaxStateStep(m: map<string, nat>, seen: seq<string>, value: string, m': map<string, nat>)
    requires MaxState(m, seen)
    requires forall c :: Lookup(m', c) == Larger(Lookup(m, c), EntryCount(value, c))
    requires forall c :: c in m' <==> c in m || EntryCount(value, c) > 0
    ensures MaxState(m', seen + [value])
  {
    assert (seen + [value])[..|seen|] == seen;
  }

  lemma MaxStateIsMaxConfig(m: map<string, nat>, seen: seq<string>)
    requires MaxState(m, seen)
    ensures m == MaxConfig(seen)
  {
    forall c ensures c in MaxConfig(seen) <==> c in m {
      PositiveColoursMax(seen, c);
    }
    assert m.Keys == MaxConfig(seen).Keys;
    forall c | c in m ensures m[c] == MaxConfig(seen)[c] {
      assert Lookup(m, c) == MaxEntry(seen, c);
    }
  }

  lemma AllEntriesSnoc(rounds: seq<string>, n: nat)
    requires n < |rounds|
    ensures AllEntries(rounds[..n + 1]) == AllEntries(rounds[..n]) + Entries(rounds[n])
  {
    assert rounds[..n + 1][..n] == rounds[..n];
  }

  /** The nested `for_each` of `solution_part2`: the largest single count of each colour over
      all rounds of the game. */
  method MaxConfigurations(gameData: string) returns (maxConfigurations: map<string, nat>)
    ensures maxConfigurations == MaxConfig(AllEntries(Rounds(gameData)))
  {
    maxConfigurations := ColourMap(0, 0, 0);
    var rounds := Split(gameData, "; ");
    ghost var seen: seq<string> := [];
    var n := 0;
    while n < |rounds|
      invariant n <= |rounds|
      invariant seen == AllEntries(rounds[..n])
      invariant MaxState(maxConfigurations, seen)
    {
      maxConfigurations := NoteRound(maxConfigurations, seen, rounds[n]);
      AllEntriesSnoc(rounds, n);
      seen := seen + Entries(rounds[n]);
      n := n + 1;
    }
    assert rounds[..n] == rounds;
    MaxStateIsMaxConfig(maxConfigurations, seen);
  }

  /** The `round.split(", ").for_each(...)` of `solution_part2`: one round's entries noted. */
  method NoteRound(maxConfigurations: map<string, nat>, ghost seen: seq<string>, round: string)
    returns (maxConfigurations': map<string, nat>)
    requires MaxState(maxConfigurations, seen)
    ensures MaxState(maxConfigurations', seen + Entries(round))
  {
    maxConfigurations' := maxConfigurations;
    var values := Split(round, ", ");
    var m := 0;
    assert seen + values[..m] == seen;
    while m < |values|
      invariant m <= |values|
      invariant MaxState(maxConfigurations', seen + values[..m])
    {
      var updated := NoteEntry(maxConfigurations', values[m]);
      MaxStateStep(maxConfigurations', seen + values[..m], values[m], updated);
      assert seen + values[..m] + [values[m]] == seen + values[..m + 1];
      maxConfigurations' := updated;
      m := m + 1;
    }
    assert values[..m] == values;
  }

  /** A factor of the power: a zero count is skipped. */
  function Factor(value: nat): nat {
    if value != 0 then value else 1
  }

  /** The product of the factors of the counts stored under `keys`. */
  ghost function FactorProduct(m: map<string, nat>, keys: set<string>): nat
    requires keys <= m.Keys
    decreases keys
  {
    if keys == {} then 1
    else
      var k :| k in keys;
      Factor(m[k]) * FactorProduct(m, keys - {k})
  }

  /** The order of the fold does not matter: any key can be taken first. */
  lemma {:induction false} FactorProductRemove(m: map<string, nat>, keys: set<string>, k: string)
    requires keys <= m.Keys && k in keys
    ensures FactorProduct(m, keys) == Factor(m[k]) * FactorProduct(m, keys - {k})
    decreases keys
  {
    var x :| x in keys && FactorProduct(m, keys) == Factor(m[x]) * FactorProduct(m, keys - {x});
    if x != k {
      FactorProductRemove(m, keys - {x}, k);
      FactorProductRemove(m, keys - {k}, x);
      assert keys - {x} - {k} == keys - {k} - {x};
      MulSwap(Factor(m[x]), Factor(m[k]), FactorProduct(m, keys - {x} - {k}));
    }
  }

  lemma MulAssoc(a: nat, b: nat, c: nat)
    ensures a * b * c == a * (b * c)
  {
  }

  lemma MulSwap(a: nat, b: nat, c: nat)
    ensures a * (b * c) == b * (a * c)
  {
  }

  lemma MulPositive(a: nat, b: nat)
    requires a >= 1 && b >= 1
    ensures a * b >= 1
  {
  }

  /** The product is never 0. */
  lemma {:induction false} FactorProductPositive(m: map<string, nat>, keys: set<string>)
    requires keys <= m.Keys
    ensures FactorProduct(m, keys) >= 1
    decreases keys
  {
    if keys != {} {
      var k :| k in keys && FactorProduct(m, keys) == Factor(m[k]) * FactorProduct(m, keys - {k});
      FactorProductPositive(m, keys - {k});
      MulPositive(Factor(m[k]), FactorProduct(m, keys - {k}));
    }
  }

  /** The power of a game: the product of its non-zero maxima, or 0 when all of them are 0. */
  ghost function Power(m: map<string, nat>): nat {
    if forall c :: c in m ==> m[c] == 0 then 0 else FactorProduct(m, m.Keys)
  }

  /** The power is 0 exactly when every maximum is 0. */
  lemma PowerZero(m: map<string, nat>)
    ensures Power(m) == 0 <==> forall c :: c in m ==> m[c] == 0
  {
    FactorProductPositive(m, m.Keys);
  }

  /** The `values().fold(1, ...)` and the `all(... == 0)` check of `solution_part2`. */
  method GamePower(maxConfigurations: map<string, nat>) returns (power: nat)
    ensures power == Power(maxConfigurations)
  {
    power := 1;
    var remaining := maxConfigurations.Keys;
    while remaining != {}
      invariant remaining <= maxConfigurations.Keys
      invariant power * FactorProduct(maxConfigurations, remaining) == FactorProduct(maxConfigurations, maxConfigurations.Keys)
      decreases remaining
    {
      var key :| key in remaining;
      FactorProductRemove(maxConfigurations, remaining, key);
      var value := maxConfigurations[key];
      MulAssoc(power, Factor(value), FactorProduct(maxConfigurations, remaining - {key}));
      if value != 0 {
        power := power * value;
      }
      remaining := remaining - {key};
    }
    if forall c | c in maxConfigurations :: maxConfigurations[c] == 0 {
      power := 0;
    }
  }

  /** One line's contribution to part two: the power of its game, 0 when there is no ": ". */
  ghost function LinePower(line: string): nat {
    var lineSplit := Split(line, ": ");
    if |lineSplit| >= 2 then Power(MaxConfig(AllEntries(Rounds(lineSplit[1])))) else 0
  }

  /** Part two's answer: the sum of the line powers. */
  ghost function PartTwo(lines: seq<string>): nat {
    if lines == [] then 0 else PartTwo(lines[..|lines| - 1]) + LinePower(lines[|lines| - 1])
  }

  /** Part two adds up over a split of the lines. */
  lemma {:induction false} PartTwoSplit(a: seq<string>, b: seq<string>)
    ensures PartTwo(a + b) == PartTwo(a) + PartTwo(b)
    decreases |b|
  {
    if b == [] {
      assert a + b == a;
    } else {
      var b' := b[..|b| - 1];
      PartTwoSplit(a, b');
      assert (a + b)[..|a + b| - 1] == a + b';
      assert (a + b)[|a + b| - 1] == b[|b| - 1];
    }
  }

  /** Part two's scan of one line: the maxima of its game data and their power. */
  method GameLinePower(line: string) returns (power: nat)
    ensures power == LinePower(line)
  {
    var lineSplit := Split(line, ": ");
    power := 0;
    if |lineSplit| >= 2 {
      var maxConfigurations := MaxConfigurations(lineSplit[1]);
      power := GamePower(maxConfigurations);
    }
  }

  /** One more line adds its power to part two's answer. */
  lemma PartTwoStep(lines: seq<string>, i: nat)
    requires i < |lines|
    ensures PartTwo(lines[..i + 1]) == PartTwo(lines[..i]) + LinePower(lines[i])
  {
    assert lines[..i + 1][..i] == lines[..i];
  }

  /** `solution_part2`: the sum of the line powers. */
  method SolutionPart2(lines: seq<string>) returns (res: nat)
    ensures res == PartTwo(lines)
  {
    res := 0;
    var i := 0;
    while i < |lines|
      invariant i <= |lines|
      invariant res == PartTwo(lines[..i])
    {
      var power := GameLinePower(lines[i]);
      PartTwoStep(lines, i);
      res := res + power;
      i := i + 1;
    }
    assert lines[..i] == lines;
  }

  // ---------------------------------------------------------------------------------------
  // Properties of the answers

  /** The counts of a colour add up over a split of the entries. */
  lemma {:induction false} TallySplit(a: seq<string>, b: seq<string>, colour: string)
    ensures Tally(a + b, colour) == Tally(a, colour) + Tally(b, colour)
    decreases |b|
  {
    if b == [] {
      assert a + b == a;
    } else {
      var b' := b[..|b| - 1];
      TallySplit(a, b', colour);
      assert (a + b)[..|a + b| - 1] == a + b';
      assert (a + b)[|a + b| - 1] == b[|b| - 1];
    }
  }

  /** An entry that does not parse, or that names a colour other than red, blue and green,
      does not change whether a round is possible. */
  lemma IrrelevantEntry(a: seq<string>, e: string, b: seq<string>)
    requires ParseColourDetails(e).None? || ParseColourDetails(e).value.0 !in {"red", "blue", "green"}
    ensures RoundPossible(a + [e] + b) == RoundPossible(a + b)
  {
    forall colour | colour in {"red", "blue", "green"}
      ensures Tally(a + [e] + b, colour) == Tally(a + b, colour)
    {
      TallySplit(a + [e], b, colour);
      TallySplit(a, [e], colour);
      TallySplit(a, b, colour);
      assert [e][..0] == [];
    }
  }

  /** Repeated entries of a colour are added in part one but not in part two: the round
      "x red, y red" shows x + y red cubes, and its largest single count is the larger of the two. */
  lemma RepeatedEntries(x: nat, y: nat)
    requires x <= U64_MAX && y <= U64_MAX
    ensures Tally([RedEntry(x), RedEntry(y)], "red") == x + y
    ensures MaxEntry([RedEntry(x), RedEntry(y)], "red") == Larger(x, y)
  {
    RedEntryCount(x);
    RedEntryCount(y);
    var entries := [RedEntry(x), RedEntry(y)];
    var first := entries[..1];
    assert first == [RedEntry(x)] && first[..0] == [];
    assert Tally(first, "red") == x && MaxEntry(first, "red") == x;
    assert Tally(entries, "red") == Tally(first, "red") + EntryCount(RedEntry(y), "red");
    assert MaxEntry(entries, "red") == Larger(MaxEntry(first, "red"), EntryCount(RedEntry(y), "red"));
  }

  /** The entry "n red". */
  function RedEntry(n: nat): string {
    Decimal(n) + " red"
  }

  lemma RedEntryCount(n: nat)
    requires n <= U64_MAX
    ensures EntryCount(RedEntry(n), "red") == n
  {
    assert NoSpace("red");
    ParseEntry(n, "red", "");
    assert RedEntry(n) == Decimal(n) + " " + "red" + "";
  }

  /** A line "P: data" whose prefix P holds no ": " scores by P's game number and the rounds of
      data up to its next ": "; the line's power is the power of those same rounds. */
  lemma GameLine(prefix: string, data: string)
    requires forall k :: 0 <= k < |prefix| ==> prefix[k] != ':'
    ensures GameScore(prefix + ": " + data) ==
      match GetGameNumber(prefix)
      case None => None
      case Some(n) => Some(if GamePossible(Split(data, ": ")[0]) then n else 0)
    ensures LinePower(prefix + ": " + data) == Power(MaxConfig(AllEntries(Rounds(Split(data, ": ")[0]))))
  {
    var s := prefix + ": " + data;
    forall k: nat | k < |prefix| ensures !OccursAt(s, ": ", k) {
      assert s[k] == prefix[k];
    }
    SplitAtFirst(prefix, ": ", data);
  }

  /** A line without ": " has no game data: it scores 0 (after its game number, which can still
      abort the program) and has power 0. */
  lemma LineWithoutData(line: string)
    requires forall k: nat :: !OccursAt(line, ": ", k)
    ensures GameScore(line) == if GetGameNumber(line).Some? then Some(0) else None
    ensures LinePower(line) == 0
  {
    SplitWithoutSep(line, ": ");
  }

  /** "Game 7: ..." has game number 7. */
  lemma GameNumberExample()
    ensures GetGameNumber("Game 7") == Some(7)
  {
    assert Decimal(7) == "7";
    GameNumberOfPrefix("Game", 7);
    assert "Game 7" == "Game" + " " + Decimal(7);
  }

  /** A zero maximum is skipped in the product: 4 red, 0 blue and 2 green have power 8; with no
      cube at all the power is 0. */
  lemma PowerExamples()
    ensures Power(ColourMap(4, 0, 2)) == 8
    ensures Power(ColourMap(0, 0, 0)) == 0
  {
    var m := ColourMap(4, 0, 2);
    ColourMapLookup(4, 0, 2, "red");
    FactorProductRemove(m, m.Keys, "red");
    assert m.Keys - {"red"} == {"blue", "green"};
    FactorProductRemove(m, {"blue", "green"}, "blue");
    assert {"blue", "green"} - {"blue"} == {"green"};
    FactorProductRemove(m, {"green"}, "green");
    assert {"green"} - {"green"} == {};
    assert m["red"] != 0;
  }
}
