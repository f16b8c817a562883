# Advent of Code 2023, days 1 to 3, in Dafny

This project models three puzzle solvers of the `aoc-rust` repository and proves what their
answers mean.

- **Day 1, "Trebuchet?!"** (`day1.dfy`, module `Calibration`). Every line of a calibration
  document gives a value: ten times its first digit plus its last digit.
  - Part one reads only the ASCII digits.
  - Part two also reads the number words `zero` .. `nine`. It tries every start index, so
    overlapping words such as `twone` both count.
  - Each answer is the sum of the line values.
- **Day 2, "Cube Conundrum"** (`day2.dfy`, module `CubeGame`). Every line is a game,
  `Game N: 3 blue, 4 red; 1 red, 2 green; ...`, made of rounds (split on `"; "`) of entries
  (split on `", "`).
  - Part one adds the ids of the games in which no round shows more than 12 red, 14 blue or
    13 green cubes. Repeated entries of one colour within a round are added together.
  - Part two adds, per game, the product of the non-zero maxima of single entries.
- **Day 3, "Gear Ratios"** (`day3.dfy`, module `Schematic`). An engine schematic is a list of
  text rows. A number is a maximal run of digits in a row. It is a part number when one of its
  digits has a symbol (anything but a digit or `.`) among its eight neighbours.
  - Part one adds the part numbers.
  - Part two records, for every symbol cell, the numbers touching it, and adds the products of
    the cells touched by exactly two.
- **`text.dfy`** (module `Text`) holds the pieces of Rust's text handling the solvers use, on
  ASCII text: `to_digit(10)`, `parse::<u64>()` (an optional `+`, one or more digits, a value
  that fits in 64 bits) and `str::split`.

The `for`, `while` and `for_each` loops of the Rust code, and the `all` over the rounds of a
game, are Dafny methods with loops, in the same places. The other two `all` calls are
quantifiers (see "Left out"). Each method is proved against a specification function:
`ensures res == PartOne(lines)` and the like. The properties of the answers are lemmas about
those functions. The `HashMap`s and the `HashSet` are Dafny `map`s and `set`s. The final folds
over their values are ghost functions over the key set, with lemmas proving that the order of
the fold does not matter.

`Schematic.IsSymbol` is `is_symbol` (`src/bin/2023-day3.rs:15-17`) word for word: neither a
digit nor `.`. The lemmas about the probe and the scans are stated in terms of it.

## Model

| member | source | states |
|---|---|---|
| Text.ParseU64 | src/bin/2023-day2.rs:14 | `parse::<u64>()`: a result is at most 2^64 - 1 and comes from a non-empty string |
| Text.ParseDecimal | src/bin/2023-day2.rs:14 | parsing the decimal rendering of any u64 gives it back |
| Text.FindFromOccurs | src/bin/2023-day2.rs:13 | what the separator search finds is an occurrence of the separator |
| Text.FindFromFirst | src/bin/2023-day2.rs:13 | the search finds the first occurrence, and None means there is none |
| Text.Split | src/bin/2023-day2.rs:13 | `split` always yields at least one piece |
| Text.SplitJoin | src/bin/2023-day2.rs:13 | joining the pieces of a split with the separator gives the string back |
| Text.SplitPiecesAvoidSep | src/bin/2023-day2.rs:13 | no piece of a split contains the separator |
| Text.SplitWithoutSep | src/bin/2023-day2.rs:45 | a string without the separator splits into itself |
| Text.SplitAtFirst | src/bin/2023-day2.rs:45 | the first piece ends at the first occurrence of the separator |
| Text.OccursAtChar | src/bin/2023-day2.rs:25 | a one-character separator occurs exactly where that character stands |
| Calibration.CalibrateBound | src/bin/2023-day1.rs:36-42 | a value built from digits is at most 99, and a single digit d gives 11·d |
| Calibration.Digits | src/bin/2023-day1.rs:23-25 | every digit value is at most 9 |
| Calibration.DigitsSplit | src/bin/2023-day1.rs:23-25 | the digits of a concatenation are the digits of its parts |
| Calibration.NonDigitIgnored | src/bin/2023-day1.rs:23-25 | inserting a non-digit character anywhere leaves part one's line value unchanged |
| Calibration.LineValue1Facts | src/bin/2023-day1.rs:22-42 | no digit gives 0, exactly one digit d gives 11·d, any line gives at most 99 |
| Calibration.ScanState1Step | src/bin/2023-day1.rs:23-34 | one character of the scan: the first digit is kept and ten times it is added to `res` at once; a later digit becomes the last one; a non-digit changes nothing |
| Calibration.ScanDigits | src/bin/2023-day1.rs:22-34 | after the character loop, `first`/`second` hold the first digit and, when there are two or more, the last (the sentinel 10 otherwise), and `res` has grown by ten times the first digit |
| Calibration.ScanLine1 | src/bin/2023-day1.rs:22-43 | one line adds ten times its first digit plus its last digit to `res`, 0 without digits |
| Calibration.SolutionPart1 | src/bin/2023-day1.rs:19-45 | part one is the sum of the lines' values |
| Calibration.FirstMatchFrom | src/bin/2023-day1.rs:77-84 | a match is a table word that occurs at the index and is 1 to 5 characters long |
| Calibration.MatchWord | src/bin/2023-day1.rs:76-84 | what is matched at an index is a table word occurring there |
| Calibration.WordIndexKeys | src/bin/2023-day1.rs:48-70 | `word_index`, the constant `WordIndex`: its keys are exactly the ten digits and the ten number words (their values are stated by `DigitKeys` and `NumberWordKeys`) |
| Calibration.WordSignature | src/bin/2023-day1.rs:48-69 | each table word is a digit, or a word of 3, 4 or 5 letters; words sharing a first letter differ in the second |
| Calibration.NoWordIsPrefix | src/bin/2023-day1.rs:48-69 | no table word is a prefix of a different one |
| Calibration.WordsAtSameIndex | src/bin/2023-day1.rs:77-83 | two table words occurring at the same index are the same word |
| Calibration.WordLengths | src/bin/2023-day1.rs:77 | every table word is 1 to 5 characters long, so `1..6` tries them all |
| Calibration.FirstMatchFromFinds | src/bin/2023-day1.rs:77-83 | a table word occurring at the index is what the length loop finds |
| Calibration.MatchWordIff | src/bin/2023-day1.rs:76-84 | the `break` does not matter: the match at an index is exactly the table word occurring there, and nothing matches when none does |
| Calibration.MatchValues | src/bin/2023-day1.rs:75-92 | every matched value is at most 9 |
| Calibration.LineValue2Bound | src/bin/2023-day1.rs:94-101 | part two's line value is at most 99 |
| Calibration.MatchAt | src/bin/2023-day1.rs:76-84 | the inner loop with its `break` returns the match at the index |
| Calibration.ScanLine2 | src/bin/2023-day1.rs:73-103 | one line adds ten times the value of its first match plus the value of its last match to `res`, 0 when nothing matches; the loop keeps `second` set exactly when `first` is |
| Calibration.SolutionPart2 | src/bin/2023-day1.rs:47-105 | part two is the sum of the lines' values |
| Calibration.WordStarts | src/bin/2023-day1.rs:48-69 | every table word begins with a digit or with one of z, o, t, f, s, e, n |
| Calibration.DigitWord | src/bin/2023-day1.rs:49-58 | every digit is a table word whose value is its digit value |
| Calibration.DigitMatch | src/bin/2023-day1.rs:77-83 | at a digit, the match is that digit with its value |
| Calibration.NoMatch | src/bin/2023-day1.rs:77-83 | nothing matches at a character that is neither a digit nor the first letter of a number word |
| Calibration.MatchValuesAreDigits | src/bin/2023-day1.rs:75-92 | on a line where no number word begins, part two matches exactly the line's digits |
| Calibration.PartsAgree | src/bin/2023-day1.rs:19-105 | on such a line both parts give the same line value |
| Calibration.TwoneExample | src/bin/2023-day1.rs:75-101 | `twone` gives 21: overlapping words both count |
| Calibration.NoLongMatch | src/bin/2023-day1.rs:78 | at an `n` or `e` with at most three characters left, nothing matches: `nine` and `eight` do not fit |
| CubeGame.GetGameNumber | src/bin/2023-day2.rs:12-22 | a game number, when there is one, fits in a u64; None stands for the abort on a missing second word or a bad number |
| CubeGame.GameNumberOfPrefix | src/bin/2023-day2.rs:12-16 | `W N` (a word, a space, the decimal N) gives N |
| CubeGame.GameNumberWithoutSpace | src/bin/2023-day2.rs:13-14 | a prefix without a space has no second word, and the program aborts |
| CubeGame.NoSpaceSplit | src/bin/2023-day2.rs:13 | a string without a space splits on " " into itself |
| CubeGame.SplitWord | src/bin/2023-day2.rs:25 | splitting on " " yields the first word, then the rest split |
| CubeGame.DecimalNoSpace | src/bin/2023-day2.rs:25 | a decimal rendering contains no space |
| CubeGame.ParseColourDetails | src/bin/2023-day2.rs:24-35 | a parsed entry has a non-empty colour word without spaces and a count that fits in a u64 |
| CubeGame.ParseEntry | src/bin/2023-day2.rs:24-35 | `n colour`, followed by nothing or by a space and anything, gives (colour, n): further words are ignored |
| CubeGame.ParseEntryBadCount | src/bin/2023-day2.rs:32-34 | a first word that is not a u64 gives None (a leading space makes it empty) |
| CubeGame.ParseEntryOneWord | src/bin/2023-day2.rs:26-30 | an entry without a second word gives None |
| CubeGame.ColourMap | src/bin/2023-day2.rs:37-39 | defined as the map from red, blue and green to the three given counts |
| CubeGame.ColourMapLookup | src/bin/2023-day2.rs:37-39 | the colour map has exactly the keys red, blue and green with the given counts; other colours read as 0 |
| CubeGame.TallyRound | src/bin/2023-day2.rs:61-67 | the round map holds, for every colour, the sum of that colour's parsed entries |
| CubeGame.WithinLimits | src/bin/2023-day2.rs:65-67 | defined as: every colour of the limits map reads, with default 0, at most its limit in the round's map |
| CubeGame.PartOneLimits | src/bin/2023-day2.rs:68-70 | the limits check holds exactly when red ≤ 12, blue ≤ 14 and green ≤ 13 |
| CubeGame.RoundCheck | src/bin/2023-day2.rs:57-70 | the check of the tallied round map decides whether the round is possible |
| CubeGame.RoundsPossibleStep | src/bin/2023-day2.rs:57 | one more possible round extends the possible prefix |
| CubeGame.RoundsPossibleMonotone | src/bin/2023-day2.rs:57 | one impossible round makes the game impossible |
| CubeGame.CheckGame | src/bin/2023-day2.rs:57-71 | `all` over the rounds is true exactly when every round is possible |
| CubeGame.TotalSplit | src/bin/2023-day2.rs:44 | the fold of scores splits over concatenation, aborting when either half aborts |
| CubeGame.PartOneSplit | src/bin/2023-day2.rs:44 | part one over two lists of lines is the sum of the parts (None if either aborts) |
| CubeGame.LineScore | src/bin/2023-day2.rs:45-73 | one line scores its game number when the game is possible, 0 otherwise or without game data, None when the number aborts |
| CubeGame.SolutionPart1 | src/bin/2023-day2.rs:41-75 | part one is the sum of the line scores, None once a line aborts |
| CubeGame.PartOneStep | src/bin/2023-day2.rs:44 | one more line adds its score |
| CubeGame.PartOneAdd | src/bin/2023-day2.rs:44-55 | the `res + ...` of the fold with a line that does not abort |
| CubeGame.PartOneAborts | src/bin/2023-day2.rs:17-20 | a line whose number aborts makes the whole answer None |
| CubeGame.MaxEntryIsMax | src/bin/2023-day2.rs:86-90 | the maximum of a colour bounds every single entry, and a positive maximum is one entry's count, not a sum |
| CubeGame.PositiveColoursMax | src/bin/2023-day2.rs:86-90 | a colour enters the map beyond red, blue and green exactly when its maximum is positive |
| CubeGame.NoteEntry | src/bin/2023-day2.rs:86-90 | an entry replaces the stored count of its colour only when it is larger; it adds a key only for a positive count |
| CubeGame.MaxStateStep | src/bin/2023-day2.rs:85-91 | noting an entry keeps every stored count the maximum over the entries seen |
| CubeGame.MaxStateIsMaxConfig | src/bin/2023-day2.rs:83-92 | the state after all entries is the map of maxima |
| CubeGame.AllEntriesSnoc | src/bin/2023-day2.rs:84-85 | the entries of one more round come after those of the earlier rounds |
| CubeGame.MaxConfigurations | src/bin/2023-day2.rs:83-92 | `max_configurations` maps red, blue, green and every colour with a positive count to its largest single count |
| CubeGame.NoteRound | src/bin/2023-day2.rs:85-91 | one round's entries are noted in order |
| CubeGame.FactorProductRemove | src/bin/2023-day2.rs:93-98 | the product of the values does not depend on the order of the fold |
| CubeGame.FactorProductPositive | src/bin/2023-day2.rs:93-98 | the product of the non-zero values is at least 1 |
| CubeGame.PowerZero | src/bin/2023-day2.rs:93-103 | the power is 0 exactly when every maximum is 0 |
| CubeGame.GamePower | src/bin/2023-day2.rs:93-103 | the fold multiplies the non-zero values of every key, other colours included, and the power is 0 when all values are 0 |
| CubeGame.GameLinePower | src/bin/2023-day2.rs:79-106 | one line's power, 0 without game data |
| CubeGame.PartTwoSplit | src/bin/2023-day2.rs:78 | part two over two lists of lines is the sum of the parts |
| CubeGame.PartTwoStep | src/bin/2023-day2.rs:78-81 | one more line adds its power |
| CubeGame.SolutionPart2 | src/bin/2023-day2.rs:77-108 | part two is the sum of the line powers |
| CubeGame.TallySplit | src/bin/2023-day2.rs:60-67 | the count of a colour over a round splits over concatenation of entries |
| CubeGame.IrrelevantEntry | src/bin/2023-day2.rs:60-70 | an unparseable entry, or one of another colour, does not change whether a round is possible |
| CubeGame.RepeatedEntries | src/bin/2023-day2.rs:61-90 | `x red, y red` counts x + y red cubes in part one and max(x, y) in part two |
| CubeGame.RedEntryCount | src/bin/2023-day2.rs:24-35 | the entry `n red` counts n red cubes |
| CubeGame.GameLine | src/bin/2023-day2.rs:45-79 | on `P: data` with no `:` in P, the score is decided by P's game number and the rounds of data up to its next `": "`, and so is the power |
| CubeGame.LineWithoutData | src/bin/2023-day2.rs:72-105 | a line without `": "` scores 0 (its game number can still abort) and has power 0 |
| CubeGame.GameNumberExample | src/bin/2023-day2.rs:12-16 | `Game 7` has game number 7 |
| CubeGame.PowerExamples | src/bin/2023-day2.rs:93-103 | 4 red, 0 blue, 2 green have power 8 (the 0 is skipped); no cubes give power 0 |
| Schematic.RowProbeCells | src/bin/2023-day3.rs:41-72 | probing a row reports each symbol of columns j-1 .. j+1 once, and nothing outside the row |
| Schematic.CellProbeCells | src/bin/2023-day3.rs:44-50 | probing a column reports that cell exactly when it exists and holds a symbol |
| Schematic.RowProbeOfBlock | src/bin/2023-day3.rs:37-73 | probing row r of the block reports exactly the block's symbol cells in row r |
| Schematic.AboveProbeCells | src/bin/2023-day3.rs:29-31 | the probe of row i-1 (none for row 0) reports the block's symbol cells in that row |
| Schematic.AboveRowCells | src/bin/2023-day3.rs:29-31 | the same for a row i > 0 |
| Schematic.BelowProbeCells | src/bin/2023-day3.rs:33-35 | the probe of row i+1 (none for the last row) reports the block's symbol cells in that row |
| Schematic.NeighbourProbeCells | src/bin/2023-day3.rs:27-73 | the probe reports exactly the symbol cells of the 3x3 block around (i, j), each once |
| Schematic.BlockCells | src/bin/2023-day3.rs:37-73 | three row reports, one per row of the block, together report the block without repeats |
| Schematic.NeighbourProbeFlag | src/bin/2023-day3.rs:37-75 | the probe reports something exactly when the cell has an adjacent symbol |
| Schematic.NeighbourSymbolsNonEmpty | src/bin/2023-day3.rs:37-75 | a cell has an adjacent symbol exactly when its block's symbol set is non-empty |
| Schematic.NoteCell | src/bin/2023-day3.rs:45-50 | one probed character raises the flag and is reported exactly when it is a symbol |
| Schematic.ProbeRow | src/bin/2023-day3.rs:38-72 | one pass of the row loop appends the row's probe and raises the flag when it reports something |
| Schematic.ProbeRowsUpToThree | src/bin/2023-day3.rs:37 | probing one to three rows reports their probes one after another |
| Schematic.ProbeNeighbourRows | src/bin/2023-day3.rs:27-37 | probing the rows of `itervec` is the probe of rows i, i-1, i+1 |
| Schematic.IsSymbol | src/bin/2023-day3.rs:15-17 | defined as: neither an ASCII digit nor `.` |
| Schematic.CheckAdjacentSymbol | src/bin/2023-day3.rs:19-76 | the flag is true iff the list is non-empty iff some neighbour of (i, j) holds a symbol; the list holds exactly those neighbours, each once, so every entry is within one row and one column and holds a symbol |
| Schematic.ProbeRowList | src/bin/2023-day3.rs:37-73 | the loop over `itervec` reports the rows' probes in order, and the flag is up iff something was reported |
| Schematic.ProbeRowsSnoc | src/bin/2023-day3.rs:37 | one more row appends its probe |
| Schematic.NeighbourProbeFacts | src/bin/2023-day3.rs:27-75 | what the probe of `itervec` reports: the block's symbol cells, each once, non-empty iff there is an adjacent symbol |
| Schematic.RunStart | src/bin/2023-day3.rs:89-98 | the open run before column j starts after the last non-digit and is all digits |
| Schematic.ClosedRuns | src/bin/2023-day3.rs:93-99 | the runs closed before column j end before j and are non-empty |
| Schematic.RunStartOfRun | src/bin/2023-day3.rs:89-98 | a run's start is fixed by its end |
| Schematic.ClosedRunsAreMaximal | src/bin/2023-day3.rs:85-101 | the runs closed before column j are exactly the maximal digit runs ending before j |
| Schematic.ClosedRunsOrdered | src/bin/2023-day3.rs:85-101 | the runs closed before column j are in increasing order of position and end before the run open at j begins |
| Schematic.RunsAreMaximal | src/bin/2023-day3.rs:85-105 | the runs of a row are exactly its maximal digit runs, the one ending the row included, each once and in increasing order of position, so the sums over them count every number once |
| Schematic.ParseOrZero | src/bin/2023-day3.rs:95 | `parse::<u64>().unwrap_or(0)` (also at lines 104, 136 and 152): a digit string gives its decimal value when that fits in 64 bits and 0 otherwise; the empty string and other non-numbers give 0 |
| Schematic.RunValueDecimal | src/bin/2023-day3.rs:95 | a run whose value fits in 64 bits counts its decimal value |
| Schematic.SpanFlaggedWitness | src/bin/2023-day3.rs:90-91 | a run is flagged exactly when one of its digits has an adjacent symbol |
| Schematic.SumSnoc | src/bin/2023-day3.rs:107 | one more row adds its total |
| Schematic.SumZero | src/bin/2023-day3.rs:107 | rows that all contribute 0 sum to 0 |
| Schematic.ScanDigit | src/bin/2023-day3.rs:88-92 | a digit extends the open run: nothing closes and the digit joins the open number |
| Schematic.ScanNonDigit | src/bin/2023-day3.rs:93-99 | a non-digit closes the open run, adding its value only when it was flagged |
| Schematic.ScanEnd | src/bin/2023-day3.rs:103-105 | at the end of the row the open run is the last run, and it counts when flagged |
| Schematic.FlaggedSumSnoc | src/bin/2023-day3.rs:94-95 | a closed run adds its value exactly when it is flagged |
| Schematic.ScanColumn | src/bin/2023-day3.rs:85-101 | one column of the scan keeps the row scan state: the open number, its flag and the total of the closed flagged runs |
| Schematic.ScanDigitState | src/bin/2023-day3.rs:88-92 | after a digit the open number grows by it and is flagged once any digit of it is adjacent to a symbol |
| Schematic.ScanNonDigitState | src/bin/2023-day3.rs:93-99 | after a non-digit the number is added when flagged, and the number and the flag are reset |
| Schematic.RowTotal | src/bin/2023-day3.rs:81-105 | a row's total is the sum of its part numbers, a run ending the row included |
| Schematic.SolutionPart1 | src/bin/2023-day3.rs:78-110 | part one is the sum of all part numbers of the schematic |
| Schematic.NeighbourSymbolsCells | src/bin/2023-day3.rs:37-75 | the block's symbol set, spelled out |
| Schematic.TouchSetFlagged | src/bin/2023-day3.rs:128-132 | the cells `curr_found` gathers for a run are non-empty exactly when the run is flagged |
| Schematic.TouchSetCells | src/bin/2023-day3.rs:125-130 | a cell is gathered for a run exactly when it is a symbol next to one of the run's digits |
| Schematic.RecordEntries | src/bin/2023-day3.rs:137-142 | recording pushes the value once onto exactly the lists of the gathered cells, creating missing ones |
| Schematic.RecordNothing | src/bin/2023-day3.rs:137 | recording against no cell leaves the table unchanged |
| Schematic.RecordOneMore | src/bin/2023-day3.rs:137-142 | recording against one more cell pushes onto that cell's list |
| Schematic.RecordSingle | src/bin/2023-day3.rs:138-141 | `entry(k).or_default().push(v)` |
| Schematic.RecordNumber | src/bin/2023-day3.rs:137-142 | the loop over `curr_found` pushes the value onto every gathered cell's list |
| Schematic.ElementsSnoc | src/bin/2023-day3.rs:128-130 | one more pair adds its cell to the set |
| Schematic.InsertAll | src/bin/2023-day3.rs:128-130 | `curr_found` gains exactly the reported cells |
| Schematic.RecordRunsSnoc | src/bin/2023-day3.rs:134-147 | one more closed run records its value against its cells when it is flagged |
| Schematic.GearTableStep | src/bin/2023-day3.rs:115-161 | one more row records its flagged runs |
| Schematic.ScanDigitGears | src/bin/2023-day3.rs:123-133 | a digit adds its block's symbols to the open run's gathered cells |
| Schematic.ScanNonDigitGears | src/bin/2023-day3.rs:134-147 | a non-digit records the open run when flagged; an unflagged run has no gathered cells |
| Schematic.ScanEndGears | src/bin/2023-day3.rs:151-160 | at the end of the row the open run is recorded when flagged |
| Schematic.FoundSet | src/bin/2023-day3.rs:125-130 | the reported cells, as a set, are the block's symbol cells |
| Schematic.ScanColumnGears | src/bin/2023-day3.rs:120-149 | one column of part two's scan keeps its state: the table of closed runs, the open number, its flag and its gathered cells |
| Schematic.RowGears | src/bin/2023-day3.rs:116-160 | a row records every flagged run against the cells it touches |
| Schematic.GearSumOverRemove | src/bin/2023-day3.rs:163-169 | the sum over the table does not depend on the order of the fold |
| Schematic.SumGearRatios | src/bin/2023-day3.rs:163-169 | the final fold is the sum, over all cells, of their gear ratios |
| Schematic.SolutionPart2 | src/bin/2023-day3.rs:112-170 | part two is the sum of the gear ratios of the table of the whole schematic |
| Schematic.BuildGearTable | src/bin/2023-day3.rs:113-161 | the row loop builds the table of all rows |
| Schematic.GearScanFlag | src/bin/2023-day3.rs:118-144 | during a row scan the flag is up exactly when `curr_found` is non-empty |
| Schematic.RecordRunsEntries | src/bin/2023-day3.rs:134-147 | recording a row's runs appends to each cell's list exactly the values of the runs touching it, each run once |
| Schematic.RecordRunsNonEmpty | src/bin/2023-day3.rs:138-141 | every list in the table is non-empty after recording |
| Schematic.GearTableEntries | src/bin/2023-day3.rs:113-161 | the table maps each cell to the values of the runs touching it, each run once, in scan order |
| Schematic.TableRowEntries | src/bin/2023-day3.rs:115-161 | one more row appends the values of its runs touching the cell |
| Schematic.GearTableNonEmpty | src/bin/2023-day3.rs:138-141 | no list in the table is empty |
| Schematic.TableRowNonEmpty | src/bin/2023-day3.rs:138-141 | one more row keeps every list non-empty |
| Schematic.GearTableHasKey | src/bin/2023-day3.rs:137-142 | a cell is a key exactly when some run touches it |
| Schematic.RunsTouchingWitness | src/bin/2023-day3.rs:134-142 | a row's runs add to a cell's list only when one of them touches it |
| Schematic.TouchingValuesSymbol | src/bin/2023-day3.rs:137-142 | a cell touched by some run is a symbol cell, touched by a run of some row |
| Schematic.GearTableKeys | src/bin/2023-day3.rs:137-158 | every key of the table is a symbol cell touched by some digit run |
| Schematic.NoSymbolsNoFlag | src/bin/2023-day3.rs:90-91 | without symbols no run is flagged |
| Schematic.NoSymbolsRowParts | src/bin/2023-day3.rs:94-95 | without symbols no closed run adds anything |
| Schematic.NoSymbolsRowGears | src/bin/2023-day3.rs:135-142 | without symbols recording a row leaves the table unchanged |
| Schematic.NoSymbolsRowSum | src/bin/2023-day3.rs:81-105 | without symbols every row total is 0 |
| Schematic.NoSymbolsGearsUpTo | src/bin/2023-day3.rs:113-161 | without symbols the table stays empty |
| Schematic.NoSymbolsTableRow | src/bin/2023-day3.rs:115-161 | without symbols one more row leaves the table empty |
| Schematic.NoSymbolsNoAnswer | src/bin/2023-day3.rs:78-170 | a schematic without symbols gives 0 for both parts |
| Schematic.ExampleRuns | src/bin/2023-day3.rs:85-105 | `12*34` has the runs [0, 2) and [3, 5), the second ending the row |
| Schematic.ExampleFirstRun | src/bin/2023-day3.rs:93-99 | the `*` of `12*34` closes the run `12` |
| Schematic.ExampleValues | src/bin/2023-day3.rs:95-104 | the runs of `12*34` have the values 12 and 34 |
| Schematic.ExamplePartOne | src/bin/2023-day3.rs:78-110 | part one of `12*34` is 46 |
| Schematic.ExampleTouches | src/bin/2023-day3.rs:125-130 | each number of `12*34` gathers exactly the cell of the `*` |
| Schematic.ExampleRecords | src/bin/2023-day3.rs:137-142 | recording 12 and then 34 against the `*` gives the list [12, 34] |
| Schematic.ExampleTable | src/bin/2023-day3.rs:113-161 | the table of `12*34` maps the `*` to [12, 34] |
| Schematic.ExamplePartTwo | src/bin/2023-day3.rs:112-170 | part two of `12*34` is 12·34 = 408 |

## Left out

- `main`, `get_input_file_path_from_args` and `read_lines_as_vec` in all three files: argument
  handling, file reading and printing. The solvers take the lines as a `seq<string>`.
- Text is ASCII. `char::is_numeric` (day 3's `is_symbol`) and `to_digit(10)` are both digits
  `0`..`9`, and a byte index is a character index. So day 1's `line.get(i..i + j)` fails only
  past the end of the line, never at a character boundary.
- Integers are unbounded: the `u64` and `u128` accumulators are `nat`, with no wrap-around or
  overflow panic. `parse::<u64>()` is modelled exactly, including its overflow error. Day 3's
  `unwrap_or(0)` maps that error to 0, and day 2 maps it to None or to the abort.
- `process::exit(1)` in `get_game_number` and the index panic on `number_details[1]` are not
  modelled as a process exit. `GetGameNumber` returns None, and part one returns
  `Option<nat>`: None when some line aborts the program. The exit at
  `src/bin/2023-day2.rs:48-51` cannot happen, because a split always yields a first piece.
- On a line without `": "`, the code still calls `get_game_number` on the whole line. The
  model keeps this: such a line scores 0 only when its text parses as a game number; otherwise
  the program aborts (`CubeGame.LineWithoutData`).
- The iteration order of `HashMap` and `HashSet`. Recording against the cells of `curr_found`
  pushes once per cell whatever the order. The folds over `values()` that compute day 2's power
  and day 3's part two are ghost functions over the key set, taken in an arbitrary order, and
  lemmas prove the result is the same for every order.
- Short circuits of `all` are reproduced for the rounds of a game. Two other `all` calls are
  quantifiers, not loops, because their order does not change their value: the limits check
  over the three colours in part one (`CubeGame.WithinLimits`, `src/bin/2023-day2.rs:65-67`)
  and the all-zero check on `max_configurations` in part two (`CubeGame.Power`,
  `src/bin/2023-day2.rs:100`).
- `check_adjacent_symbol` receives the current row twice, as `current_line` and as
  `lines[current_line_idx]`. Every caller passes the same row, so the model reads
  `lines[i]` only.
- `Schematic.RunValue`: the value of a span that does not lie within its row is 0. No run of
  the scan is such a span.
