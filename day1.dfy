/** Day 1 of 2023, "Trebuchet?!": each line of the calibration document hides a two-digit value,
    ten times its first digit plus its last digit. Part one reads only the ASCII digits; part two
    also reads the spelled-out words "zero" .. "nine", found at every start index, so that
    overlapping words all count. The answers are the sums of the line values. */
module Calibration {
  import opened Text

  // ---------------------------------------------------------------------------------------
  // Line values

  /** The two-digit value of a line's sequence of digits: ten times the first plus the last,
      and 0 when there is none. */
  function Calibrate(ds: seq<nat>): nat {
    if ds == [] then 0 else 10 * ds[0] + ds[|ds| - 1]
  }

  predicate AllBelowTen(ds: seq<nat>) {
    forall k :: 0 <= k < |ds| ==> ds[k] <= 9
  }

  /** A line value is at most 99, and a single digit d gives 11 * d. */
  lemma CalibrateBound(ds: seq<nat>)
    requires AllBelowTen(ds)
    ensures Calibrate(ds) <= 99
    ensures |ds| == 1 ==> Calibrate(ds) == 11 * ds[0]
  {
    if ds != [] {
      assert ds[0] <= 9 && ds[|ds| - 1] <= 9;
    }
  }

  // ---------------------------------------------------------------------------------------
  // Part one

  /** The values of the ASCII digits of s, in order. */
  function Digits(s: string): (ds: seq<nat>)
    ensures AllBelowTen(ds)
  {
    if s == [] then []
    else
      var c := s[|s| - 1];
      Digits(s[..|s| - 1]) + if IsDigit(c) then [DigitValue(c)] else []
  }

  /** Part one's value of a line. */
  function LineValue1(line: string): nat {
    Calibrate(Digits(line))
  }

  /** Part one's answer: the sum of the line values. */
  function PartOne(lines: seq<string>): nat {
    if lines == [] then 0 else PartOne(lines[..|lines| - 1]) + LineValue1(lines[|lines| - 1])
  }

  /** The digits of a concatenation are the digits of its parts. */
  lemma {:induction false} DigitsSplit(a: string, b: string)
    ensures Digits(a + b) == Digits(a) + Digits(b)
    decreases |b|
  {
    if b == [] {
      assert a + b == a;
    } else {
      var b' := b[..|b| - 1];
      DigitsSplit(a, b');
      assert (a + b)[..|a + b| - 1] == a + b';
      assert (a + b)[|a + b| - 1] == b[|b| - 1];
    }
  }

  /** A character that is not a digit changes nothing in part one. */
  lemma NonDigitIgnored(a: string, c: char, b: string)
    requires !IsDigit(c)
    ensures LineValue1(a + [c] + b) == LineValue1(a + b)
  {
    DigitsSplit(a + [c], b);
    DigitsSplit(a, [c]);
    DigitsSplit(a, b);
    assert [c][..0] == [];
  }

  /** A line with no digit gives 0, one with exactly one digit d gives 11 * d, and every line
      gives at most 99. */
  lemma LineValue1Facts(line: string)
    ensures Digits(line) == [] ==> LineValue1(line) == 0
    ensures |Digits(line)| == 1 ==> LineValue1(line) == 11 * Digits(line)[0]
    ensures LineValue1(line) <= 99
  {
    CalibrateBound(Digits(line));
  }

  /** The sentinel `MAX_DIGIT_OVERFLOW`: a value no digit has, standing for "no digit yet". */
  const NO_DIGIT: nat := 10

  /** What the character scan of part one knows after the first j characters: `first` and
      `second` hold the first digit and, once there are two, the last one (else the sentinel),
      and ten times the first digit has already been added to the answer. */
  predicate ScanState1(line: string, j: nat, base: nat, res: nat, first: nat, second: nat)
    requires j <= |line|
  {
    var ds := Digits(line[..j]);
    && first == (if ds == [] then NO_DIGIT else ds[0])
    && second == (if |ds| <= 1 then NO_DIGIT else ds[|ds| - 1])
    && res == base + (if ds == [] then 0 else 10 * ds[0])
  }

  lemma ScanStep1(line: string, j: nat)
    requires j < |line|
    ensures Digits(line[..j + 1]) == Digits(line[..j]) + if IsDigit(line[j]) then [DigitValue(line[j])] else []
  {
    assert line[..j + 1][..j] == line[..j];
  }

  /** One character of the scan: a non-digit changes nothing, the first digit is recorded and
      its tenfold added, and a later digit becomes the last one. */
  lemma ScanState1Step(line: string, j: nat, base: nat, res: nat, first: nat, second: nat)
    requires j < |line| && ScanState1(line, j, base, res, first, second)
    ensures !IsDigit(line[j]) ==> ScanState1(line, j + 1, base, res, first, second)
    ensures IsDigit(line[j]) && first == NO_DIGIT ==>
      ScanState1(line, j + 1, base, res + DigitValue(line[j]) * 10, DigitValue(line[j]), second)
    ensures IsDigit(line[j]) && first != NO_DIGIT ==>
      ScanState1(line, j + 1, base, res, first, DigitValue(line[j]))
  {
    ScanStep1(line, j);
  }

  /** The character loop of part one's `fold` body. */
  method ScanDigits(res: nat, line: string) returns (res': nat, first: nat, second: nat)
    ensures ScanState1(line, |line|, res, res', first, second)
  {
    res' := res;
    first, second := NO_DIGIT, NO_DIGIT;
    for j := 0 to |line|
      invariant ScanState1(line, j, res, res', first, second)
    {
      ScanState1Step(line, j, res, res', first, second);
      var c := line[j];
      if IsDigit(c) {
        var number := DigitValue(c);
        if first == 10 {
          res' := res' + number * 10;
          first := number;
        } else {
          second := number;
        }
      }
    }
  }

  /** The body of part one's `fold` on one line: the character loop, then the sentinel checks
      that turn a single digit into both digits and skip a line without digits. */
  method ScanLine1(res: nat, line: string) returns (res': nat)
    ensures res' == res + LineValue1(line)
  {
    var first, second;
    res', first, second := ScanDigits(res, line);
    assert line[..|line|] == line;
    if second == NO_DIGIT && first != NO_DIGIT {
      second := first;
    }
    if second != NO_DIGIT {
      res' := res' + second;
    }
  }

  /** `solution_part1`. */
  method SolutionPart1(lines: seq<string>) returns (res: nat)
    ensures res == PartOne(lines)
  {
    res := 0;
    var i := 0;
    while i < |lines|
      invariant i <= |lines|
      invariant res == PartOne(lines[..i])
    {
      res := ScanLine1(res, lines[i]);
      assert lines[..i + 1][..i] == lines[..i];
      i := i + 1;
    }
    assert lines[..i] == lines;
  }

  // ---------------------------------------------------------------------------------------
  // Part two

  /** The `word_index` built from `WORD_PAIR`: the digits and the number words with their values. */
  const WordIndex: map<string, nat> := map[
    "0" := 0, "1" := 1, "2" := 2, "3" := 3, "4" := 4,
    "5" := 5, "6" := 6, "7" := 7, "8" := 8, "9" := 9,
    "zero" := 0, "one" := 1, "two" := 2, "three" := 3, "four" := 4,
    "five" := 5, "six" := 6, "seven" := 7, "eight" := 8, "nine" := 9]

  /** Does `w` occur in `line` starting at index i? */
  predicate WordAt(line: string, i: nat, w: string) {
    i + |w| <= |line| && line[i..i + |w|] == w
  }

  /** The inner `for j in 1..6` loop: the first length j (from the given one up to 5) at which
      the text starting at index i is a table word. */
  function FirstMatchFrom(line: string, i: nat, j: nat): (r: Option<string>)
    requires 1 <= j
    ensures r.Some? ==> r.value in WordIndex && WordAt(line, i, r.value) && j <= |r.value| <= 5
    decreases 6 - j
  {
    if j >= 6 then None
    else if i + j <= |line| && line[i..i + j] in WordIndex then Some(line[i..i + j])
    else FirstMatchFrom(line, i, j + 1)
  }

  /** The word matched at index i, if any. */
  function MatchWord(line: string, i: nat): (r: Option<string>)
    ensures r.Some? ==> r.value in WordIndex && WordAt(line, i, r.value)
  {
    FirstMatchFrom(line, i, 1)
  }

  /** The table lists every value once as a digit and once as a word. */
  lemma WordIndexKeys()
    ensures WordIndex.Keys == {
      "0", "1", "2", "3", "4", "5", "6", "7", "8", "9",
      "zero", "one", "two", "three", "four", "five", "six", "seven", "eight", "nine"}
  {
  }

  /** What tells the table words apart: a digit alone; "one", "two", "six" of three letters;
      "zero", "four", "five", "nine" of four; "three", "seven", "eight" of five. Where two words
      share a first letter, their second letters differ. */
  predicate Signature(w: string) {
    || (|w| == 1 && IsDigit(w[0]))
    || (|w| == 3 && w[0] in {'o', 't', 's'} && (w[0] == 't' ==> w[1] == 'w') && (w[0] == 's' ==> w[1] == 'i'))
    || (|w| == 4 && w[0] in {'z', 'f', 'n'})
    || (|w| == 5 && w[0] in {'t', 's', 'e'} && (w[0] == 't' ==> w[1] == 'h') && (w[0] == 's' ==> w[1] == 'e'))
  }

  lemma WordSignature(w: string)
    requires w in WordIndex
    ensures Signature(w)
  {
    if |w| == 1 {
      DigitKeys(w);
    } else {
      NumberWordKeys(w);
    }
  }

  lemma DigitKeys(w: string)
    requires w in WordIndex && |w| == 1
    ensures w in {"0", "1", "2", "3", "4", "5", "6", "7", "8", "9"}
  {
  }

  lemma NumberWordKeys(w: string)
    requires w in WordIndex && |w| != 1
    ensures w in {"one", "two", "six", "zero", "four", "five", "nine", "three", "seven", "eight"}
  {
  }

  /** No table word is a proper prefix of another, so at most one of them occurs at any index. */
  lemma NoWordIsPrefix(w: string, w': string)
    requires w in WordIndex && w' in WordIndex
    requires |w| <= |w'| && w'[..|w|] == w
    ensures w == w'
  {
    WordSignature(w);
    WordSignature(w');
    assert w'[0] == w[0];
    if |w| >= 2 {
      assert w'[1] == w[1];
    }
    assert |w| == |w'|;
  }

  /** Two table words occurring at the same index are the same word. */
  lemma WordsAtSameIndex(line: string, i: nat, w: string, w': string)
    requires w in WordIndex && w' in WordIndex && WordAt(line, i, w) && WordAt(line, i, w')
    ensures w == w'
  {
    if |w| <= |w'| {
      assert w'[..|w|] == line[i..i + |w|];
      NoWordIsPrefix(w, w');
    } else {
      assert w[..|w'|] == line[i..i + |w'|];
      NoWordIsPrefix(w', w);
    }
  }

  lemma WordLengths(w: string)
    requires w in WordIndex
    ensures 1 <= |w| <= 5
  {
    WordSignature(w);
  }

  /** The scan from length j finds a table word that occurs at i and is at least j long: shorter
      candidates are not table words, because they would be prefixes of it. */
  lemma {:induction false} FirstMatchFromFinds(line: string, i: nat, j: nat, w: string)
    requires 1 <= j <= |w| && w in WordIndex && WordAt(line, i, w)
    ensures FirstMatchFrom(line, i, j) == Some(w)
    decreases 6 - j
  {
    WordLengths(w);
    assert i + j <= |line|;
    var candidate := line[i..i + j];
    if candidate in WordIndex {
      assert w[..j] == candidate;
      NoWordIsPrefix(candidate, w);
    } else {
      assert j != |w|;
      FirstMatchFromFinds(line, i, j + 1, w);
    }
  }

  /** The `break` does not matter: what is matched at index i is exactly the table word that
      occurs there, and nothing is matched when none does. */
  lemma MatchWordIff(line: string, i: nat, w: string)
    ensures MatchWord(line, i) == Some(w) <==> w in WordIndex && WordAt(line, i, w)
  {
    if w in WordIndex && WordAt(line, i, w) {
      WordLengths(w);
      FirstMatchFromFinds(line, i, 1, w);
    }
  }

  /** The values of the words matched at indices 0 .. n - 1, in order. */
  function MatchValues(line: string, n: nat): (vs: seq<nat>)
    requires n <= |line|
    ensures AllBelowTen(vs)
  {
    if n == 0 then []
    else
      MatchValues(line, n - 1)
      + match MatchWord(line, n - 1) {
          case Some(w) => [WordIndex[w]]
          case None => []
        }
  }

  /** Part two's value of a line: ten times the value of the first match plus the value of the
      last, 0 when nothing matches. */
  function LineValue2(line: string): nat {
    Calibrate(MatchValues(line, |line|))
  }

  /** Part two's answer: the sum of the line values. */
  function PartTwo(lines: seq<string>): nat {
    if lines == [] then 0 else PartTwo(lines[..|lines| - 1]) + LineValue2(lines[|lines| - 1])
  }

  /** Part two's line value is at most 99 too. */
  lemma LineValue2Bound(line: string)
    ensures LineValue2(line) <= 99
  {
    CalibrateBound(MatchValues(line, |line|));
  }

  /** The inner loop of `solution_part2` with its `break`: the first length from 1 to 5 at
      which the text from index i is a table word. */
  method MatchAt(line: string, i: nat) returns (matched: Option<string>)
    requires i < |line|
    ensures matched == MatchWord(line, i)
  {
    matched := None;
    for j := 1 to 6
      invariant FirstMatchFrom(line, i, 1) == FirstMatchFrom(line, i, j)
    {
      if i + j <= |line| && line[i..i + j] in WordIndex {
        matched := Some(line[i..i + j]);
        break;
      }
    }
  }

  /** What the index scan of part two knows after indices 0 .. i - 1: `first` is the first
      matched word and `second` the last one, both None while nothing has matched. */
  predicate ScanState2(line: string, i: nat, first: Option<string>, second: Option<string>)
    requires i <= |line|
  {
    var vs := MatchValues(line, i);
    && (first.None? <==> vs == []) && (second.None? <==> vs == [])
    && (first.Some? ==> first.value in WordIndex && WordIndex[first.value] == vs[0])
    && (second.Some? ==> second.value in WordIndex && WordIndex[second.value] == vs[|vs| - 1])
  }

  /** The body of part two's `fold` on one line. */
  method ScanLine2(res: nat, line: string) returns (res': nat)
    ensures res' == res + LineValue2(line)
  {
    res' := res;
    var first: Option<string> := None;
    var second: Option<string> := None;
    for i := 0 to |line|
      invariant ScanState2(line, i, first, second)
    {
      var matchedWordFromCurrent := MatchAt(line, i);
      if matchedWordFromCurrent.Some? {
        var word := matchedWordFromCurrent.value;
        if first.None? {
          first := Some(word);
        }
        second := Some(word);
      }
    }
    if first.Some? {
      res' := res' + WordIndex[first.value] * 10;
    }
    if second.Some? {
      res' := res' + WordIndex[second.value];
    }
  }

  /** `solution_part2`. */
  method SolutionPart2(lines: seq<string>) returns (res: nat)
    ensures res == PartTwo(lines)
  {
    res := 0;
    var i := 0;
    while i < |lines|
      invariant i <= |lines|
      invariant res == PartTwo(lines[..i])
    {
      res := ScanLine2(res, lines[i]);
      assert lines[..i + 1][..i] == lines[..i];
      i := i + 1;
    }
    assert lines[..i] == lines;
  }

  // ---------------------------------------------------------------------------------------
  // Properties of part two

  /** The letters with which a number word begins. */
  predicate WordInitial(c: char) {
    c in {'z', 'o', 't', 'f', 's', 'e', 'n'}
  }

  lemma WordStarts(w: string)
    requires w in WordIndex
    ensures |w| >= 1 && (IsDigit(w[0]) || WordInitial(w[0]))
  {
    WordSignature(w);
  }

  /** Every digit is a table word with its own value. */
  lemma DigitWord(c: char)
    requires IsDigit(c)
    ensures [c] in WordIndex && WordIndex[[c]] == DigitValue(c)
  {
    if c == '0' { assert [c] == "0"; }
    else if c == '1' { assert [c] == "1"; }
    else if c == '2' { assert [c] == "2"; }
    else if c == '3' { assert [c] == "3"; }
    else if c == '4' { assert [c] == "4"; }
    else if c == '5' { assert [c] == "5"; }
    else if c == '6' { assert [c] == "6"; }
    else if c == '7' { assert [c] == "7"; }
    else if c == '8' { assert [c] == "8"; }
    else { assert [c] == "9"; }
  }

  /** A digit is the only table word that can occur at the index of a digit. */
  lemma DigitMatch(line: string, i: nat)
    requires i < |line| && IsDigit(line[i])
    ensures MatchWord(line, i) == Some([line[i]]) && WordIndex[[line[i]]] == DigitValue(line[i])
  {
    DigitWord(line[i]);
    assert line[i..i + 1] == [line[i]];
    MatchWordIff(line, i, [line[i]]);
  }

  /** Nothing matches at a character that is neither a digit nor the first letter of a number word. */
  lemma NoMatch(line: string, i: nat)
    requires i < |line| && !IsDigit(line[i]) && !WordInitial(line[i])
    ensures MatchWord(line, i) == None
  {
    match MatchWord(line, i)
    case None =>
    case Some(w) =>
      assert w[0] == line[i];
      WordStarts(w);
  }

  /** On a line where no number word begins, part two matches exactly the digits. */
  lemma {:induction false} MatchValuesAreDigits(line: string, n: nat)
    requires n <= |line|
    requires forall k :: 0 <= k < |line| ==> !WordInitial(line[k])
    ensures MatchValues(line, n) == Digits(line[..n])
  {
    if n > 0 {
      MatchValuesAreDigits(line, n - 1);
      ScanStep1(line, n - 1);
      if IsDigit(line[n - 1]) {
        DigitMatch(line, n - 1);
      } else {
        NoMatch(line, n - 1);
      }
    }
  }

  /** On such a line both parts give the same value. */
  lemma PartsAgree(line: string)
    requires forall k :: 0 <= k < |line| ==> !WordInitial(line[k])
    ensures LineValue2(line) == LineValue1(line)
  {
    MatchValuesAreDigits(line, |line|);
    assert line[..|line|] == line;
  }

  /** Overlapping words all count: in "twone" the first match is "two" and the last is "one". */
  lemma TwoneExample()
    ensures LineValue2("twone") == 21
  {
    var line := "twone";
    assert "two" in WordIndex && "one" in WordIndex;
    assert line[0..3] == "two" && line[2..5] == "one";
    MatchWordIff(line, 0, "two");
    MatchWordIff(line, 2, "one");
    NoMatch(line, 1);
    NoLongMatch(line, 3);
    NoLongMatch(line, 4);
    assert MatchValues(line, 1) == [2];
    assert MatchValues(line, 3) == [2, 1];
  }

  /** Near the end of a line only a word short enough can match: at index i of "twone" with
      'n' or 'e' there, the words beginning so ("nine", "eight") do not fit. */
  lemma NoLongMatch(line: string, i: nat)
    requires i < |line| && |line| <= i + 3 && line[i] in {'n', 'e'}
    ensures MatchWord(line, i) == None
  {
    match MatchWord(line, i)
    case None =>
    case Some(w) =>
      assert w[0] == line[i];
      WordSignature(w);
  }
}
