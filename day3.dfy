/** Day 3 of 2023, "Gear Ratios": an engine schematic is a list of rows of text. A number is a
    maximal run of digits within one row; it is a part number when a symbol (neither a digit nor
    '.') touches one of its digits, diagonals included. Part one sums the part numbers; part two
    records, for every symbol cell, the part numbers touching it and sums the products of the
    cells touched by exactly two. */
module Schematic {
  import opened Text

  /** A cell of the schematic: (row, column). */
  type Coord = (nat, nat)

  /** `is_symbol`: anything that is neither a digit nor '.'. */
  predicate IsSymbol(c: char) {
    !(IsDigit(c) || c == '.')
  }

  /** Cell (r, c) exists, holds a symbol, and is (i, j) or one of its eight neighbours. */
  predicate IsNeighbourSymbol(lines: seq<string>, i: nat, j: nat, p: Coord) {
    && p.0 < |lines| && p.1 < |lines[p.0]|
    && i <= p.0 + 1 <= i + 2 && j <= p.1 + 1 <= j + 2
    && IsSymbol(lines[p.0][p.1])
  }

  /** Cell p is one of the symbol cells around (i, j), and it lies in row r. */
  predicate IsNeighbourSymbolInRow(lines: seq<string>, i: nat, j: nat, r: int, p: Coord) {
    p.0 == r && IsNeighbourSymbol(lines, i, j, p)
  }

  predicate NoDuplicates(s: seq<Coord>) {
    forall a, b :: 0 <= a < b < |s| ==> s[a] != s[b]
  }

  /** The cells one pass of the probe loop reports for row r (text `line`), in the order it
      reports them: left of, under, and right of column j. */
  function RowProbe(line: string, r: nat, j: nat): seq<Coord> {
    (if j != 0 then CellProbe(line, r, j - 1) else []) + CellProbe(line, r, j) + CellProbe(line, r, j + 1)
  }

  /** Cell (r, c) when column c exists and holds a symbol. */
  function CellProbe(line: string, r: nat, c: nat): seq<Coord> {
    if c < |line| && IsSymbol(line[c]) then [(r, c)] else []
  }

  /** Cell p lies in row r (text `line`), in one of columns j-1..j+1, and holds a symbol. */
  predicate IsProbedCell(line: string, r: nat, j: nat, p: Coord) {
    p.0 == r && p.1 < |line| && j <= p.1 + 1 <= j + 2 && IsSymbol(line[p.1])
  }

  /** A row probe reports each symbol cell of columns j-1..j+1 exactly once, and nothing else. */
  lemma RowProbeCells(line: string, r: nat, j: nat)
    ensures NoDuplicates(RowProbe(line, r, j))
    ensures forall p: Coord :: p in RowProbe(line, r, j) <==> IsProbedCell(line, r, j, p)
  {
    var left := if j != 0 then CellProbe(line, r, j - 1) else [];
    if j != 0 {
      CellProbeCells(line, r, j - 1);
    }
    CellProbeCells(line, r, j);
    CellProbeCells(line, r, j + 1);
    NoDuplicatesConcat(left, CellProbe(line, r, j));
    NoDuplicatesConcat(left + CellProbe(line, r, j), CellProbe(line, r, j + 1));
  }

  /** A cell probe reports its cell, once, exactly when the cell holds a symbol. */
  lemma CellProbeCells(line: string, r: nat, c: nat)
    ensures NoDuplicates(CellProbe(line, r, c))
    ensures forall p: Coord :: p in CellProbe(line, r, c) <==> p == (r, c) && c < |line| && IsSymbol(line[c])
  {
  }

  /** What `check_adjacent_symbol` reports, in its order: row i, then row i-1, then row i+1. */
  function NeighbourProbe(lines: seq<string>, i: nat, j: nat): seq<Coord>
    requires i < |lines|
  {
    RowProbe(lines[i], i, j) + AboveProbe(lines, i, j) + BelowProbe(lines, i, j)
  }

  /** The probe of row i-1, when there is one. */
  function AboveProbe(lines: seq<string>, i: nat, j: nat): seq<Coord>
    requires i < |lines|
  {
    if i != 0 then RowProbe(lines[i - 1], i - 1, j) else []
  }

  /** The probe of row i+1, when there is one. */
  function BelowProbe(lines: seq<string>, i: nat, j: nat): seq<Coord>
    requires i < |lines|
  {
    if i != |lines| - 1 then RowProbe(lines[i + 1], i + 1, j) else []
  }

  /** Probing row r, one of rows i-1..i+1, reports exactly the block's symbol cells in row r. */
  lemma RowProbeOfBlock(lines: seq<string>, i: nat, j: nat, r: nat)
    requires r < |lines| && i <= r + 1 <= i + 2
    ensures NoDuplicates(RowProbe(lines[r], r, j))
    ensures forall p: Coord :: p in RowProbe(lines[r], r, j) <==> IsNeighbourSymbolInRow(lines, i, j, r, p)
  {
    RowProbeCells(lines[r], r, j);
  }

  /** The probe of row i-1 (none for row 0) reports the block's symbol cells in that row. */
  lemma AboveProbeCells(lines: seq<string>, i: nat, j: nat)
    requires i < |lines|
    ensures NoDuplicates(AboveProbe(lines, i, j))
    ensures forall p: Coord :: p in AboveProbe(lines, i, j) <==> IsNeighbourSymbolInRow(lines, i, j, i - 1, p)
  {
    if i != 0 {
      AboveRowCells(lines, i, j);
    }
  }

  /** The row above exists: its probe is a row probe of the block. */
  lemma AboveRowCells(lines: seq<string>, i: nat, j: nat)
    requires 0 < i < |lines|
    ensures NoDuplicates(AboveProbe(lines, i, j))
    ensures forall p: Coord :: p in AboveProbe(lines, i, j) <==> IsNeighbourSymbolInRow(lines, i, j, i - 1, p)
  {
    var r: nat := i - 1;
    var above := RowProbe(lines[r], r, j);
    assert AboveProbe(lines, i, j) == above;
    RowProbeOfBlock(lines, i, j, r);
    assert NoDuplicates(above);
    assert forall p: Coord :: p in above <==> IsNeighbourSymbolInRow(lines, i, j, r, p);
  }

  /** The probe of row i+1 (none for the last row) reports the block's symbol cells in that row. */
  lemma BelowProbeCells(lines: seq<string>, i: nat, j: nat)
    requires i < |lines|
    ensures NoDuplicates(BelowProbe(lines, i, j))
    ensures forall p: Coord :: p in BelowProbe(lines, i, j) <==> IsNeighbourSymbolInRow(lines, i, j, i + 1, p)
  {
    if i != |lines| - 1 {
      RowProbeOfBlock(lines, i, j, i + 1);
    }
  }

  /** The probe reports exactly the symbol cells of the 3x3 block around (i, j), each once. */
  lemma NeighbourProbeCells(lines: seq<string>, i: nat, j: nat)
    requires i < |lines|
    ensures NoDuplicates(NeighbourProbe(lines, i, j))
    ensures forall p: Coord :: p in NeighbourProbe(lines, i, j) <==> IsNeighbourSymbol(lines, i, j, p)
  {
    RowProbeOfBlock(lines, i, j, i);
    AboveProbeCells(lines, i, j);
    BelowProbeCells(lines, i, j);
    BlockCells(lines, i, j, RowProbe(lines[i], i, j), AboveProbe(lines, i, j), BelowProbe(lines, i, j));
  }

  /** Three row reports, one per row of the block, together report the block. */
  lemma BlockCells(lines: seq<string>, i: nat, j: nat, a: seq<Coord>, b: seq<Coord>, c: seq<Coord>)
    requires NoDuplicates(a) && NoDuplicates(b) && NoDuplicates(c)
    requires forall p: Coord :: p in a <==> IsNeighbourSymbolInRow(lines, i, j, i, p)
    requires forall p: Coord :: p in b <==> IsNeighbourSymbolInRow(lines, i, j, i - 1, p)
    requires forall p: Coord :: p in c <==> IsNeighbourSymbolInRow(lines, i, j, i + 1, p)
    ensures NoDuplicates(a + b + c)
    ensures forall p: Coord :: p in a + b + c <==> IsNeighbourSymbol(lines, i, j, p)
  {
    NoDuplicatesConcat(a, b);
    NoDuplicatesConcat(a + b, c);
  }

  lemma NoDuplicatesConcat(a: seq<Coord>, b: seq<Coord>)
    requires NoDuplicates(a) && NoDuplicates(b)
    requires forall p :: p in a ==> p !in b
    ensures NoDuplicates(a + b)
  {
    forall x, y | 0 <= x < y < |a + b| ensures (a + b)[x] != (a + b)[y] {
      if x < |a| <= y {
        assert (a + b)[x] in a && (a + b)[y] in b;
      }
    }
  }

  /** The probe reports something exactly when the cell has an adjacent symbol. */
  lemma NeighbourProbeFlag(lines: seq<string>, i: nat, j: nat)
    requires i < |lines|
    ensures NeighbourProbe(lines, i, j) != [] <==> HasAdjacentSymbol(lines, i, j)
  {
    var probe := NeighbourProbe(lines, i, j);
    NeighbourProbeCells(lines, i, j);
    if probe != [] {
      assert IsNeighbourSymbol(lines, i, j, probe[0]);
    }
    if HasAdjacentSymbol(lines, i, j) {
      var r: nat, c: nat :| r < |lines| && c < |lines[r]| && IsNeighbourSymbol(lines, i, j, (r, c));
      assert (r, c) in probe;
    }
  }

  /** The symbol cells in the 3x3 block centred on (i, j): rows i-1..i+1 and columns j-1..j+1,
      as far as they exist. */
  function NeighbourSymbols(lines: seq<string>, i: nat, j: nat): set<Coord> {
    set r: nat, c: nat | r < |lines| && c < |lines[r]| && IsNeighbourSymbol(lines, i, j, (r, c)) :: (r, c)
  }

  /** The digit at (i, j) has an adjacent symbol. */
  predicate HasAdjacentSymbol(lines: seq<string>, i: nat, j: nat) {
    exists r: nat, c: nat :: r < |lines| && c < |lines[r]| && IsNeighbourSymbol(lines, i, j, (r, c))
  }

  lemma NeighbourSymbolsNonEmpty(lines: seq<string>, i: nat, j: nat)
    ensures HasAdjacentSymbol(lines, i, j) <==> NeighbourSymbols(lines, i, j) != {}
  {
    if HasAdjacentSymbol(lines, i, j) {
      var r: nat, c: nat :| r < |lines| && c < |lines[r]| && IsNeighbourSymbol(lines, i, j, (r, c));
      assert (r, c) in NeighbourSymbols(lines, i, j);
    }
    if NeighbourSymbols(lines, i, j) != {} {
      var p :| p in NeighbourSymbols(lines, i, j);
      assert IsNeighbourSymbol(lines, i, j, p);
    }
  }

  /** `is_symbol` on one probed cell: raise the flag and report the cell when it is a symbol. */
  method NoteCell(value: char, cell: Coord, has: bool, found: seq<Coord>) returns (has': bool, found': seq<Coord>)
    ensures has' == (has || IsSymbol(value))
    ensures found' == found + (if IsSymbol(value) then [cell] else [])
  {
    var isThisSymbol := IsSymbol(value);
    has' := has || isThisSymbol;
    found' := found;
    if isThisSymbol {
      found' := found' + [cell];
    }
  }

  lemma ConcatAssoc(a: seq<Coord>, l: seq<Coord>, m: seq<Coord>, r: seq<Coord>)
    ensures a + l + m + r == a + (l + m + r)
  {
  }

  /** One pass of the loop in `check_adjacent_symbol`: probe columns j-1, j and j+1 of one row
      through its `chars()` iterator, skipping the row when it is empty. */
  method ProbeRow(lineIdx: nat, line: string, j: nat, has: bool, found: seq<Coord>)
    returns (has': bool, found': seq<Coord>)
    ensures found' == found + RowProbe(line, lineIdx, j)
    ensures has' == (has || RowProbe(line, lineIdx, j) != [])
  {
    has', found' := has, found;
    if |line| == 0 {
      assert RowProbe(line, lineIdx, j) == [];
      return;
    }
    // `pos` is how far the row's `chars()` iterator has advanced.
    var pos := 0;
    ghost var left: seq<Coord> := [];
    if j != 0 {
      left := CellProbe(line, lineIdx, j - 1);
      // chars.nth(j - 1): the cell to the left
      if j - 1 < |line| {
        has', found' := NoteCell(line[j - 1], (lineIdx, j - 1), has', found');
        pos := j;
      } else {
        pos := |line|;
      }
    }
    assert found' == found + left && has' == (has || left != []);
    assert pos == j || (pos == |line| && |line| < j);
    ghost var afterLeft := found';
    // chars.next(): the cell under the digit
    if pos < |line| {
      has', found' := NoteCell(line[pos], (lineIdx, j), has', found');
      pos := pos + 1;
    }
    assert found' == afterLeft + CellProbe(line, lineIdx, j);
    assert has' == (has || left != [] || CellProbe(line, lineIdx, j) != []);
    assert pos == j + 1 || (pos == |line| && |line| <= j);
    ghost var afterMid := found';
    // chars.next(): the cell to the right
    if pos < |line| {
      has', found' := NoteCell(line[pos], (lineIdx, j + 1), has', found');
      pos := pos + 1;
    }
    assert found' == afterMid + CellProbe(line, lineIdx, j + 1);
    assert has' == (has || left != [] || CellProbe(line, lineIdx, j) != [] || CellProbe(line, lineIdx, j + 1) != []);
    ConcatAssoc(found, left, CellProbe(line, lineIdx, j), CellProbe(line, lineIdx, j + 1));
  }

  /** The (index, text) rows `check_adjacent_symbol` visits: row i, then i-1 and i+1 when
      they exist. */
  function NeighbourRows(lines: seq<string>, i: nat): seq<(nat, string)>
    requires i < |lines|
  {
    [(i, lines[i])]
    + (if i != 0 then [(i - 1, lines[i - 1])] else [])
    + (if i != |lines| - 1 then [(i + 1, lines[i + 1])] else [])
  }

  /** The cells reported by probing the listed rows in order. */
  function ProbeRows(rows: seq<(nat, string)>, j: nat): seq<Coord> {
    if rows == [] then []
    else ProbeRows(rows[..|rows| - 1], j) + RowProbe(rows[|rows| - 1].1, rows[|rows| - 1].0, j)
  }

  /** Probing one, two or three listed rows reports their row probes one after another. */
  lemma ProbeRowsUpToThree(rows: seq<(nat, string)>, j: nat)
    requires 1 <= |rows| <= 3
    ensures |rows| == 1 ==> ProbeRows(rows, j) == RowProbe(rows[0].1, rows[0].0, j)
    ensures |rows| == 2 ==> ProbeRows(rows, j) == RowProbe(rows[0].1, rows[0].0, j) + RowProbe(rows[1].1, rows[1].0, j)
    ensures |rows| == 3 ==>
      ProbeRows(rows, j) == RowProbe(rows[0].1, rows[0].0, j) + RowProbe(rows[1].1, rows[1].0, j) + RowProbe(rows[2].1, rows[2].0, j)
  {
    assert rows[..1][..0] == [];
    if |rows| >= 2 {
      assert rows[..2][..1] == rows[..1];
    }
    if |rows| == 3 {
      assert rows[..2] == rows[..|rows| - 1];
    } else if |rows| == 2 {
      assert rows[..1] == rows[..|rows| - 1];
    }
  }

  lemma ProbeNeighbourRows(lines: seq<string>, i: nat, j: nat)
    requires i < |lines|
    ensures ProbeRows(NeighbourRows(lines, i), j) == NeighbourProbe(lines, i, j)
  {
    var rows := NeighbourRows(lines, i);
    ProbeRowsUpToThree(rows, j);
    if i != 0 {
      assert rows[1] == (i - 1, lines[i - 1]);
    }
    if i != |lines| - 1 {
      assert rows[|rows| - 1] == (i + 1, lines[i + 1]);
    }
  }

  /** `check_adjacent_symbol`: probes rows i, i-1 and i+1 (those that exist, in that order), and
      returns whether a symbol was seen and the symbol cells seen, each once. */
  method CheckAdjacentSymbol(lines: seq<string>, i: nat, j: nat) returns (hasAdjacentSymbol: bool, found: seq<Coord>)
    requires i < |lines|
    ensures hasAdjacentSymbol <==> found != []
    ensures hasAdjacentSymbol == HasAdjacentSymbol(lines, i, j)
    ensures forall p :: p in found <==> IsNeighbourSymbol(lines, i, j, p)
    ensures NoDuplicates(found)
  {
    var itervec: seq<(nat, string)> := [(i, lines[i])];
    if i != 0 {
      itervec := itervec + [(i - 1, lines[i - 1])];
    }
    if i != |lines| - 1 {
      itervec := itervec + [(i + 1, lines[i + 1])];
    }
    assert itervec == NeighbourRows(lines, i);
    hasAdjacentSymbol, found := ProbeRowList(itervec, j);
    NeighbourProbeFacts(lines, i, j);
  }

  /** The `for (line_idx, line) in itervec` loop of `check_adjacent_symbol`: one row probe per
      listed row, in order, raising the flag whenever a symbol is reported. */
  method ProbeRowList(itervec: seq<(nat, string)>, j: nat) returns (hasAdjacentSymbol: bool, found: seq<Coord>)
    ensures found == ProbeRows(itervec, j)
    ensures hasAdjacentSymbol <==> found != []
  {
    hasAdjacentSymbol := false;
    found := [];
    var n := 0;
    while n < |itervec|
      invariant n <= |itervec|
      invariant hasAdjacentSymbol <==> found != []
      invariant found == ProbeRows(itervec[..n], j)
    {
      var (lineIdx, line) := itervec[n];
      hasAdjacentSymbol, found := ProbeRow(lineIdx, line, j, hasAdjacentSymbol, found);
      ProbeRowsSnoc(itervec, n, j);
      n := n + 1;
    }
    assert itervec[..n] == itervec;
  }

  /** One more listed row appends its probe. */
  lemma ProbeRowsSnoc(rows: seq<(nat, string)>, n: nat, j: nat)
    requires n < |rows|
    ensures ProbeRows(rows[..n + 1], j) == ProbeRows(rows[..n], j) + RowProbe(rows[n].1, rows[n].0, j)
  {
    assert rows[..n + 1][..n] == rows[..n];
  }

  /** What probing the rows of `NeighbourRows` reports: the block's symbol cells, each once, and
      something exactly when there is an adjacent symbol. */
  lemma NeighbourProbeFacts(lines: seq<string>, i: nat, j: nat)
    requires i < |lines|
    ensures ProbeRows(NeighbourRows(lines, i), j) == NeighbourProbe(lines, i, j)
    ensures NoDuplicates(NeighbourProbe(lines, i, j))
    ensures forall p :: p in NeighbourProbe(lines, i, j) <==> IsNeighbourSymbol(lines, i, j, p)
    ensures NeighbourProbe(lines, i, j) != [] <==> HasAdjacentSymbol(lines, i, j)
  {
    ProbeNeighbourRows(lines, i, j);
    NeighbourProbeCells(lines, i, j);
    NeighbourProbeFlag(lines, i, j);
  }

  // ---------------------------------------------------------------------------------------
  // Digit runs

  /** Columns [start, end) of one row. */
  datatype Span = Span(start: nat, end: nat)

  /** A maximal run of digits: non-empty, all digits, and bounded by the row's ends or by
      non-digits on both sides. */
  predicate IsMaximalRun(row: string, s: Span) {
    && s.start < s.end <= |row|
    && (forall k :: s.start <= k < s.end ==> IsDigit(row[k]))
    && (s.start == 0 || !IsDigit(row[s.start - 1]))
    && (s.end == |row| || !IsDigit(row[s.end]))
  }

  /** Where the run of digits that ends just before column j begins (j itself when row[j-1] is
      not a digit). */
  function RunStart(row: string, j: nat): (k: nat)
    requires j <= |row|
    ensures k <= j
    ensures forall m :: k <= m < j ==> IsDigit(row[m])
    ensures k == 0 || !IsDigit(row[k - 1])
  {
    if j == 0 || !IsDigit(row[j - 1]) then j else RunStart(row, j - 1)
  }

  /** The maximal runs of row that a scan of columns [0, j) has seen close, left to right: each
      one is followed by a non-digit before column j. */
  function ClosedRuns(row: string, j: nat): (runs: seq<Span>)
    requires j <= |row|
    ensures forall m :: 0 <= m < |runs| ==> runs[m].start < runs[m].end < j
  {
    if j == 0 then []
    else if IsDigit(row[j - 1]) then ClosedRuns(row, j - 1)
    else ClosedRuns(row, j - 1) + ClosingRun(row, j - 1)
  }

  /** All maximal runs of a row, left to right; a run that reaches the end of the row is the
      last one. */
  function Runs(row: string): (runs: seq<Span>)
  {
    ClosedRuns(row, |row|) + (if RunStart(row, |row|) < |row| then [Span(RunStart(row, |row|), |row|)] else [])
  }

  /** A run's start is fixed by its end. */
  lemma {:induction false} RunStartOfRun(row: string, k: nat, j: nat)
    requires k <= j <= |row|
    requires forall m :: k <= m < j ==> IsDigit(row[m])
    requires k == 0 || !IsDigit(row[k - 1])
    ensures RunStart(row, j) == k
    decreases j
  {
    if j > k {
      RunStartOfRun(row, k, j - 1);
    }
  }

  /** ClosedRuns holds exactly the maximal runs that end before column j. */
  lemma {:induction false} ClosedRunsAreMaximal(row: string, j: nat)
    requires j <= |row|
    ensures forall s :: s in ClosedRuns(row, j) <==> IsMaximalRun(row, s) && s.end < j
  {
    if j > 0 {
      ClosedRunsAreMaximal(row, j - 1);
      forall s | IsMaximalRun(row, s) && s.end == j - 1
        ensures !IsDigit(row[j - 1]) && s == Span(RunStart(row, j - 1), j - 1)
      {
        RunStartOfRun(row, s.start, s.end);
      }
    }
  }

  /** The runs closed before column j are in increasing order of position, and all of them end
      before the run still open at j begins. */
  lemma {:induction false} ClosedRunsOrdered(row: string, j: nat)
    requires j <= |row|
    ensures forall m :: 0 <= m < |ClosedRuns(row, j)| ==> ClosedRuns(row, j)[m].end < RunStart(row, j)
    ensures forall a, b :: 0 <= a < b < |ClosedRuns(row, j)| ==> ClosedRuns(row, j)[a].end < ClosedRuns(row, j)[b].start
  {
    if j > 0 {
      ClosedRunsOrdered(row, j - 1);
    }
  }

  /** Runs holds exactly the maximal digit runs of the row, including one that ends the row,
      each once and in increasing order of position. */
  lemma RunsAreMaximal(row: string)
    ensures forall s :: s in Runs(row) <==> IsMaximalRun(row, s)
    ensures forall a, b :: 0 <= a < b < |Runs(row)| ==> Runs(row)[a].end < Runs(row)[b].start
  {
    ClosedRunsOrdered(row, |row|);
    ClosedRunsAreMaximal(row, |row|);
    forall s | IsMaximalRun(row, s) && s.end == |row|
      ensures s == Span(RunStart(row, |row|), |row|)
    {
      RunStartOfRun(row, s.start, s.end);
    }
  }

  /** `current_number.parse::<u64>().unwrap_or(0)` applied to the run's digits (a span that
      does not fit in the row, which no run is, counts as 0). */
  function RunValue(row: string, s: Span): nat {
    if s.start <= s.end <= |row| then ParseOrZero(row[s.start..s.end]) else 0
  }

  /** A run whose value fits in 64 bits counts with its decimal value. */
  lemma RunValueDecimal(row: string, s: Span)
    requires IsMaximalRun(row, s)
    requires DecimalValue(row[s.start..s.end]) <= U64_MAX
    ensures RunValue(row, s) == DecimalValue(row[s.start..s.end])
  {
    assert IsDigit(row[s.start..s.end][0]);
  }

  // ---------------------------------------------------------------------------------------
  // Part one

  /** Some digit in columns [s, e) of row i has a symbol among its neighbours. */
  predicate SpanFlagged(lines: seq<string>, i: nat, s: nat, e: nat)
    decreases e
  {
    s < e && (SpanFlagged(lines, i, s, e - 1) || HasAdjacentSymbol(lines, i, e - 1))
  }

  /** A span is flagged exactly when one of its columns has an adjacent symbol. */
  lemma {:induction false} SpanFlaggedWitness(lines: seq<string>, i: nat, s: nat, e: nat)
    ensures SpanFlagged(lines, i, s, e) <==> exists c :: s <= c < e && HasAdjacentSymbol(lines, i, c)
    decreases e
  {
    if s < e {
      SpanFlaggedWitness(lines, i, s, e - 1);
    }
  }

  /** The sum of the values of the flagged runs among `runs` of row i. */
  function FlaggedSum(lines: seq<string>, i: nat, runs: seq<Span>): nat
    requires i < |lines|
  {
    if runs == [] then 0
    else
      var s := runs[|runs| - 1];
      FlaggedSum(lines, i, runs[..|runs| - 1])
      + (if SpanFlagged(lines, i, s.start, s.end) then RunValue(lines[i], s) else 0)
  }

  /** Part one's contribution of row i: its part numbers added up. */
  function RowPartSum(lines: seq<string>, i: nat): nat
    requires i < |lines|
  {
    FlaggedSum(lines, i, Runs(lines[i]))
  }

  /** The row contributions of part one, one per row. */
  function RowPartSums(lines: seq<string>): seq<nat> {
    seq(|lines|, i requires 0 <= i < |lines| => RowPartSum(lines, i))
  }

  function Sum(xs: seq<nat>): nat {
    if xs == [] then 0 else Sum(xs[..|xs| - 1]) + xs[|xs| - 1]
  }

  lemma SumSnoc(xs: seq<nat>, n: nat)
    requires n < |xs|
    ensures Sum(xs[..n + 1]) == Sum(xs[..n]) + xs[n]
  {
    assert xs[..n + 1][..n] == xs[..n];
  }

  /** A sum of zeros is zero. */
  lemma {:induction false} SumZero(xs: seq<nat>)
    requires forall k :: 0 <= k < |xs| ==> xs[k] == 0
    ensures Sum(xs) == 0
    decreases |xs|
  {
    if xs != [] {
      SumZero(xs[..|xs| - 1]);
    }
  }

  /** Part one's answer: the sum of all part numbers of the schematic. */
  function PartNumberSum(lines: seq<string>): nat {
    Sum(RowPartSums(lines))
  }

  /** Passing a digit at column j extends the open run: it stays open, nothing closes, and the
      run is flagged once column j has an adjacent symbol. */
  lemma ScanDigit(lines: seq<string>, i: nat, j: nat)
    requires i < |lines| && j < |lines[i]| && IsDigit(lines[i][j])
    ensures RunStart(lines[i], j + 1) == RunStart(lines[i], j)
    ensures ClosedRuns(lines[i], j + 1) == ClosedRuns(lines[i], j)
    ensures SpanFlagged(lines, i, RunStart(lines[i], j), j + 1)
      == (SpanFlagged(lines, i, RunStart(lines[i], j), j) || HasAdjacentSymbol(lines, i, j))
    ensures lines[i][RunStart(lines[i], j)..j + 1] == lines[i][RunStart(lines[i], j)..j] + [lines[i][j]]
  {
  }

  /** Passing a non-digit at column j closes the open run (if there is one), adding its value
      when it was flagged, and opens an empty run after column j. */
  lemma ScanNonDigit(lines: seq<string>, i: nat, j: nat)
    requires i < |lines| && j < |lines[i]| && !IsDigit(lines[i][j])
    ensures RunStart(lines[i], j + 1) == j + 1
    ensures ClosedRuns(lines[i], j + 1) == ClosedRuns(lines[i], j) + ClosingRun(lines[i], j)
    ensures FlaggedSum(lines, i, ClosedRuns(lines[i], j) + ClosingRun(lines[i], j))
      == FlaggedSum(lines, i, ClosedRuns(lines[i], j))
      + (if SpanFlagged(lines, i, RunStart(lines[i], j), j)
         then ParseOrZero(lines[i][RunStart(lines[i], j)..j]) else 0)
  {
    var line := lines[i];
    var start := RunStart(line, j);
    assert ClosedRuns(line, j + 1) == ClosedRuns(line, j) + ClosingRun(line, j);
    if start < j {
      FlaggedSumSnoc(lines, i, ClosedRuns(line, j), Span(start, j));
    } else {
      assert ClosedRuns(line, j) + [] == ClosedRuns(line, j);
    }
  }

  /** At the end of the row the open run (if there is one) is the last run. */
  lemma ScanEnd(lines: seq<string>, i: nat)
    requires i < |lines|
    ensures RowPartSum(lines, i)
      == FlaggedSum(lines, i, ClosedRuns(lines[i], |lines[i]|))
      + (if SpanFlagged(lines, i, RunStart(lines[i], |lines[i]|), |lines[i]|)
         then ParseOrZero(lines[i][RunStart(lines[i], |lines[i]|)..|lines[i]|]) else 0)
  {
    var line := lines[i];
    var start := RunStart(line, |line|);
    if start < |line| {
      FlaggedSumSnoc(lines, i, ClosedRuns(line, |line|), Span(start, |line|));
    } else {
      assert ClosedRuns(line, |line|) + [] == ClosedRuns(line, |line|);
    }
  }

  /** The run that a non-digit at column `end` closes, if the digits before it form one. */
  function ClosingRun(row: string, end: nat): seq<Span>
    requires end <= |row|
  {
    if RunStart(row, end) < end then [Span(RunStart(row, end), end)] else []
  }

  lemma FlaggedSumSnoc(lines: seq<string>, i: nat, runs: seq<Span>, s: Span)
    requires i < |lines|
    ensures FlaggedSum(lines, i, runs + [s]) == FlaggedSum(lines, i, runs)
      + (if SpanFlagged(lines, i, s.start, s.end) then RunValue(lines[i], s) else 0)
  {
    assert (runs + [s])[..|runs|] == runs;
  }

  /** What part one's scan of row i knows after columns [0, j): the digits of the open run,
      whether one of them has an adjacent symbol, and the part numbers among the closed runs. */
  predicate RowScanState(lines: seq<string>, i: nat, j: nat, total: nat, currentNumber: string, hasAdjacentSymbol: bool)
    requires i < |lines| && j <= |lines[i]|
  {
    && currentNumber == lines[i][RunStart(lines[i], j)..j]
    && hasAdjacentSymbol == SpanFlagged(lines, i, RunStart(lines[i], j), j)
    && total == FlaggedSum(lines, i, ClosedRuns(lines[i], j))
  }

  /** The `for_each` closure of `solution_part1` on column j: a digit extends the open number and
      probes its neighbours; anything else closes the number, adding it when it was flagged. */
  method ScanColumn(lines: seq<string>, i: nat, j: nat, total: nat, currentNumber: string, hasAdjacentSymbol: bool)
    returns (total': nat, currentNumber': string, hasAdjacentSymbol': bool)
    requires i < |lines| && j < |lines[i]|
    requires RowScanState(lines, i, j, total, currentNumber, hasAdjacentSymbol)
    ensures RowScanState(lines, i, j + 1, total', currentNumber', hasAdjacentSymbol')
  {
    total', currentNumber', hasAdjacentSymbol' := total, currentNumber, hasAdjacentSymbol;
    var ch := lines[i][j];
    if IsDigit(ch) {
      currentNumber' := currentNumber' + [ch];
      var currHasAdjacent, _ := CheckAdjacentSymbol(lines, i, j);
      hasAdjacentSymbol' := hasAdjacentSymbol' || currHasAdjacent;
      ScanDigitState(lines, i, j, total, currentNumber, hasAdjacentSymbol, currHasAdjacent);
    } else {
      if hasAdjacentSymbol' {
        total' := total' + ParseOrZero(currentNumber');
        hasAdjacentSymbol' := false;
      }
      currentNumber' := "";
      ScanNonDigitState(lines, i, j, total, currentNumber, hasAdjacentSymbol);
    }
  }

  /** The scan state after a digit: the open number grows by the digit, and it is flagged once
      the digit has an adjacent symbol. */
  lemma ScanDigitState(lines: seq<string>, i: nat, j: nat, total: nat, currentNumber: string, hasAdjacentSymbol: bool,
                       adjacent: bool)
    requires i < |lines| && j < |lines[i]| && IsDigit(lines[i][j])
    requires RowScanState(lines, i, j, total, currentNumber, hasAdjacentSymbol)
    requires adjacent == HasAdjacentSymbol(lines, i, j)
    ensures RowScanState(lines, i, j + 1, total, currentNumber + [lines[i][j]], hasAdjacentSymbol || adjacent)
  {
    ScanDigit(lines, i, j);
  }

  /** The scan state after a non-digit: the open number is added when flagged, and both the
      number and the flag start afresh. */
  lemma ScanNonDigitState(lines: seq<string>, i: nat, j: nat, total: nat, currentNumber: string, hasAdjacentSymbol: bool)
    requires i < |lines| && j < |lines[i]| && !IsDigit(lines[i][j])
    requires RowScanState(lines, i, j, total, currentNumber, hasAdjacentSymbol)
    ensures RowScanState(lines, i, j + 1, if hasAdjacentSymbol then total + ParseOrZero(currentNumber) else total, "", false)
  {
    ScanNonDigit(lines, i, j);
  }

  /** The scan of one row in `solution_part1` and the check after it: the sum of the row's
      part numbers. */
  method RowTotal(lines: seq<string>, i: nat) returns (total: nat)
    requires i < |lines|
    ensures total == RowPartSum(lines, i)
  {
    var line := lines[i];
    total := 0;
    var currentNumber: string := "";
    var hasAdjacentSymbol := false;
    var j := 0;
    while j < |line|
      invariant j <= |line|
      invariant RowScanState(lines, i, j, total, currentNumber, hasAdjacentSymbol)
    {
      total, currentNumber, hasAdjacentSymbol := ScanColumn(lines, i, j, total, currentNumber, hasAdjacentSymbol);
      j := j + 1;
    }
    ScanEnd(lines, i);
    if hasAdjacentSymbol {
      total := total + ParseOrZero(currentNumber);
    }
  }

  /** `.parse::<u64>().unwrap_or(0)` */
  function ParseOrZero(s: string): (v: nat)
    ensures v <= U64_MAX
    ensures s != [] && AllDigits(s) ==> v == if DecimalValue(s) <= U64_MAX then DecimalValue(s) else 0
    ensures (s == [] || s[0] != '+') && !AllDigits(s) ==> v == 0
    ensures s == [] ==> v == 0
  {
    match ParseU64(s)
    case Some(v) => v
    case None => 0
  }

  /** `solution_part1`: the sum of all part numbers. */
  method SolutionPart1(lines: seq<string>) returns (res: nat)
    ensures res == PartNumberSum(lines)
  {
    res := 0;
    var i := 0;
    while i < |lines|
      invariant i <= |lines|
      invariant res == Sum(RowPartSums(lines)[..i])
    {
      SumSnoc(RowPartSums(lines), i);
      var total := RowTotal(lines, i);
      res := res + total;
      i := i + 1;
    }
    assert RowPartSums(lines)[..i] == RowPartSums(lines);
  }

  // ---------------------------------------------------------------------------------------
  // Part two

  /** Membership in NeighbourSymbols, spelled out. */
  lemma NeighbourSymbolsCells(lines: seq<string>, i: nat, j: nat)
    ensures forall p: Coord :: p in NeighbourSymbols(lines, i, j) <==> IsNeighbourSymbol(lines, i, j, p)
  {
    forall p: Coord | IsNeighbourSymbol(lines, i, j, p)
      ensures p in NeighbourSymbols(lines, i, j)
    {
      var (r, c) := p;
      assert r < |lines| && c < |lines[r]| && IsNeighbourSymbol(lines, i, j, (r, c));
    }
  }

  /** The symbol cells around columns [s, e) of row i: what `curr_found` gathers for a run. */
  function TouchSet(lines: seq<string>, i: nat, s: nat, e: nat): set<Coord>
    decreases e
  {
    if e <= s then {} else TouchSet(lines, i, s, e - 1) + NeighbourSymbols(lines, i, e - 1)
  }

  /** The cells gathered for a span are non-empty exactly when the span is flagged. */
  lemma {:induction false} TouchSetFlagged(lines: seq<string>, i: nat, s: nat, e: nat)
    ensures TouchSet(lines, i, s, e) != {} <==> SpanFlagged(lines, i, s, e)
    decreases e
  {
    if s < e {
      TouchSetFlagged(lines, i, s, e - 1);
      NeighbourSymbolsNonEmpty(lines, i, e - 1);
    }
  }

  /** A cell is gathered for a span exactly when it is a symbol next to one of its columns. */
  lemma {:induction false} TouchSetCells(lines: seq<string>, i: nat, s: nat, e: nat)
    ensures forall p: Coord :: p in TouchSet(lines, i, s, e) <==>
      exists c: nat :: s <= c < e && IsNeighbourSymbol(lines, i, c, p)
    decreases e
  {
    if s < e {
      TouchSetCells(lines, i, s, e - 1);
      NeighbourSymbolsCells(lines, i, e - 1);
      forall p: Coord
        ensures p in TouchSet(lines, i, s, e) <==> exists c: nat :: s <= c < e && IsNeighbourSymbol(lines, i, c, p)
      {
        if exists c: nat :: s <= c < e && IsNeighbourSymbol(lines, i, c, p) {
          var c: nat :| s <= c < e && IsNeighbourSymbol(lines, i, c, p);
          if c < e - 1 {
            assert p in TouchSet(lines, i, s, e - 1);
          }
        }
      }
    }
  }

  /** A run touches cell k when k is a symbol next to one of the run's digits. */
  predicate Touches(lines: seq<string>, i: nat, s: Span, k: Coord) {
    exists c: nat :: s.start <= c < s.end && IsNeighbourSymbol(lines, i, c, k)
  }

  /** `part_number_tracker`: for every symbol cell, the values recorded against it. */
  type Tracker = map<Coord, seq<nat>>

  /** The values recorded against k; `or_default()` supplies the empty list. */
  function Entries(t: Tracker, k: Coord): seq<nat> {
    if k in t then t[k] else []
  }

  /** Every key of the tracker has a non-empty list: a key only appears with a push. */
  predicate EntriesNonEmpty(t: Tracker) {
    forall k :: k in t ==> t[k] != []
  }

  /** `entry(k).or_default().push(v)` for every k of `keys`, each once. */
  function Record(t: Tracker, keys: set<Coord>, v: nat): Tracker {
    map k | k in t.Keys + keys :: Entries(t, k) + (if k in keys then [v] else [])
  }

  /** Recording pushes v onto exactly the lists of `keys`, creating the missing ones, and keeps
      every list non-empty. */
  lemma RecordEntries(t: Tracker, keys: set<Coord>, v: nat)
    ensures Record(t, keys, v).Keys == t.Keys + keys
    ensures forall k :: Entries(Record(t, keys, v), k) == Entries(t, k) + (if k in keys then [v] else [])
    ensures EntriesNonEmpty(t) ==> EntriesNonEmpty(Record(t, keys, v))
  {
  }

  lemma RecordNothing(t: Tracker, v: nat)
    ensures Record(t, {}, v) == t
  {
    assert forall k :: k in t.Keys + {} ==> Entries(t, k) + [] == t[k];
  }

  lemma RecordOneMore(t: Tracker, done: set<Coord>, k: Coord, v: nat)
    requires k !in done
    ensures Record(t, done + {k}, v) == Record(t, done, v)[k := Entries(Record(t, done, v), k) + [v]]
  {
    var before := Record(t, done, v);
    var after := Record(t, done + {k}, v);
    var updated := before[k := Entries(before, k) + [v]];
    assert after.Keys == updated.Keys;
    forall x | x in after
      ensures after[x] == updated[x]
    {
      if x != k {
        assert updated[x] == before[x];
      }
    }
  }

  lemma RecordSingle(t: Tracker, k: Coord, v: nat)
    ensures Record(t, {k}, v) == t[k := Entries(t, k) + [v]]
  {
    RecordNothing(t, v);
    RecordOneMore(t, {}, k, v);
    assert {} + {k} == {k};
  }

  /** The loop over `curr_found` in `solution_part2`: push v onto the list of every cell of
      `keys`, in whatever order the set yields them. */
  method RecordNumber(tracker: Tracker, keys: set<Coord>, v: nat) returns (tracker': Tracker)
    ensures tracker' == Record(tracker, keys, v)
  {
    RecordNothing(tracker, v);
    tracker' := tracker;
    var remaining := keys;
    ghost var done: set<Coord> := {};
    while remaining != {}
      invariant done + remaining == keys && done !! remaining
      invariant tracker' == Record(tracker, done, v)
      decreases remaining
    {
      var k :| k in remaining;
      RecordOneMore(tracker, done, k, v);
      tracker' := tracker'[k := Entries(tracker', k) + [v]];
      remaining := remaining - {k};
      done := done + {k};
    }
  }

  /** The set of the elements of a sequence. */
  function Elements(s: seq<Coord>): set<Coord> {
    set p | p in s
  }

  lemma ElementsSnoc(s: seq<Coord>, p: Coord)
    ensures Elements(s + [p]) == Elements(s) + {p}
  {
    assert forall q :: q in s + [p] <==> q in s || q == p;
  }

  /** `curr_found_pairs.into_iter().for_each(|pair| curr_found.insert(pair))`. */
  method InsertAll(curFound: set<Coord>, pairs: seq<Coord>) returns (curFound': set<Coord>)
    ensures curFound' == curFound + Elements(pairs)
  {
    curFound' := curFound;
    var n := 0;
    while n < |pairs|
      invariant n <= |pairs|
      invariant curFound' == curFound + Elements(pairs[..n])
    {
      assert pairs[..n + 1] == pairs[..n] + [pairs[n]];
      ElementsSnoc(pairs[..n], pairs[n]);
      curFound' := curFound' + {pairs[n]};
      n := n + 1;
    }
    assert pairs[..n] == pairs;
  }

  /** The tracker after the flagged runs among `runs` of row i have been recorded against the
      cells they touch, in order. */
  function RecordRuns(lines: seq<string>, i: nat, runs: seq<Span>, t: Tracker): Tracker
    requires i < |lines|
  {
    if runs == [] then t
    else
      var s := runs[|runs| - 1];
      var t' := RecordRuns(lines, i, runs[..|runs| - 1], t);
      if SpanFlagged(lines, i, s.start, s.end) then Record(t', TouchSet(lines, i, s.start, s.end), RunValue(lines[i], s))
      else t'
  }

  lemma RecordRunsSnoc(lines: seq<string>, i: nat, runs: seq<Span>, s: Span, t: Tracker)
    requires i < |lines|
    ensures RecordRuns(lines, i, runs + [s], t) ==
      if SpanFlagged(lines, i, s.start, s.end)
      then Record(RecordRuns(lines, i, runs, t), TouchSet(lines, i, s.start, s.end), RunValue(lines[i], s))
      else RecordRuns(lines, i, runs, t)
  {
    assert (runs + [s])[..|runs|] == runs;
  }

  /** Part two's table after rows [0, n). */
  function GearTableUpTo(lines: seq<string>, n: nat): Tracker
    requires n <= |lines|
  {
    if n == 0 then map[] else RecordRuns(lines, n - 1, Runs(lines[n - 1]), GearTableUpTo(lines, n - 1))
  }

  lemma GearTableStep(lines: seq<string>, n: nat)
    requires 0 < n <= |lines|
    ensures GearTableUpTo(lines, n) == RecordRuns(lines, n - 1, Runs(lines[n - 1]), GearTableUpTo(lines, n - 1))
  {
  }

  function GearTable(lines: seq<string>): Tracker {
    GearTableUpTo(lines, |lines|)
  }

  /** What part two's scan of row i knows after columns [0, j), on top of the table t0 it
      started the row with. */
  predicate GearScanState(lines: seq<string>, i: nat, j: nat, t0: Tracker, tracker: Tracker,
                          currentNumber: string, hasAdjacentSymbol: bool, curFound: set<Coord>)
    requires i < |lines| && j <= |lines[i]|
  {
    && currentNumber == lines[i][RunStart(lines[i], j)..j]
    && hasAdjacentSymbol == SpanFlagged(lines, i, RunStart(lines[i], j), j)
    && curFound == TouchSet(lines, i, RunStart(lines[i], j), j)
    && tracker == RecordRuns(lines, i, ClosedRuns(lines[i], j), t0)
  }

  lemma ScanDigitGears(lines: seq<string>, i: nat, j: nat)
    requires i < |lines| && j < |lines[i]| && IsDigit(lines[i][j])
    ensures TouchSet(lines, i, RunStart(lines[i], j), j + 1)
      == TouchSet(lines, i, RunStart(lines[i], j), j) + NeighbourSymbols(lines, i, j)
  {
  }

  lemma ScanNonDigitGears(lines: seq<string>, i: nat, j: nat, t0: Tracker)
    requires i < |lines| && j < |lines[i]| && !IsDigit(lines[i][j])
    ensures SpanFlagged(lines, i, RunStart(lines[i], j), j) || TouchSet(lines, i, RunStart(lines[i], j), j) == {}
    ensures RecordRuns(lines, i, ClosedRuns(lines[i], j + 1), t0) ==
      if SpanFlagged(lines, i, RunStart(lines[i], j), j)
      then Record(RecordRuns(lines, i, ClosedRuns(lines[i], j), t0),
                  TouchSet(lines, i, RunStart(lines[i], j), j),
                  ParseOrZero(lines[i][RunStart(lines[i], j)..j]))
      else RecordRuns(lines, i, ClosedRuns(lines[i], j), t0)
  {
    var line := lines[i];
    var start := RunStart(line, j);
    TouchSetFlagged(lines, i, start, j);
    assert ClosedRuns(line, j + 1) == ClosedRuns(line, j) + ClosingRun(line, j);
    if start < j {
      RecordRunsSnoc(lines, i, ClosedRuns(line, j), Span(start, j), t0);
    } else {
      assert ClosedRuns(line, j) + [] == ClosedRuns(line, j);
    }
  }

  lemma ScanEndGears(lines: seq<string>, i: nat, t0: Tracker)
    requires i < |lines|
    ensures SpanFlagged(lines, i, RunStart(lines[i], |lines[i]|), |lines[i]|)
      || TouchSet(lines, i, RunStart(lines[i], |lines[i]|), |lines[i]|) == {}
    ensures RecordRuns(lines, i, Runs(lines[i]), t0) ==
      if SpanFlagged(lines, i, RunStart(lines[i], |lines[i]|), |lines[i]|)
      then Record(RecordRuns(lines, i, ClosedRuns(lines[i], |lines[i]|), t0),
                  TouchSet(lines, i, RunStart(lines[i], |lines[i]|), |lines[i]|),
                  ParseOrZero(lines[i][RunStart(lines[i], |lines[i]|)..|lines[i]|]))
      else RecordRuns(lines, i, ClosedRuns(lines[i], |lines[i]|), t0)
  {
    var line := lines[i];
    var start := RunStart(line, |line|);
    TouchSetFlagged(lines, i, start, |line|);
    if start < |line| {
      RecordRunsSnoc(lines, i, ClosedRuns(line, |line|), Span(start, |line|), t0);
    } else {
      assert ClosedRuns(line, |line|) + [] == ClosedRuns(line, |line|);
    }
  }

  /** The cells a probe reports, gathered into a set, are the block's symbol cells. */
  lemma FoundSet(lines: seq<string>, i: nat, j: nat, found: seq<Coord>)
    requires forall p :: p in found <==> IsNeighbourSymbol(lines, i, j, p)
    ensures Elements(found) == NeighbourSymbols(lines, i, j)
  {
    NeighbourSymbolsCells(lines, i, j);
  }

  /** The `for_each` closure of `solution_part2` on column j: a digit extends the open number and
      adds its neighbouring symbol cells to `curr_found`; anything else closes the number,
      recording it against every gathered cell when it was flagged. */
  method ScanColumnGears(lines: seq<string>, i: nat, j: nat, ghost t0: Tracker, tracker: Tracker,
                         currentNumber: string, hasAdjacentSymbol: bool, curFound: set<Coord>)
    returns (tracker': Tracker, currentNumber': string, hasAdjacentSymbol': bool, curFound': set<Coord>)
    requires i < |lines| && j < |lines[i]|
    requires GearScanState(lines, i, j, t0, tracker, currentNumber, hasAdjacentSymbol, curFound)
    ensures GearScanState(lines, i, j + 1, t0, tracker', currentNumber', hasAdjacentSymbol', curFound')
  {
    tracker', currentNumber', hasAdjacentSymbol', curFound' := tracker, currentNumber, hasAdjacentSymbol, curFound;
    var ch := lines[i][j];
    if IsDigit(ch) {
      ScanDigit(lines, i, j);
      ScanDigitGears(lines, i, j);
      currentNumber' := currentNumber' + [ch];
      var currHasAdjacent, currFoundPairs := CheckAdjacentSymbol(lines, i, j);
      FoundSet(lines, i, j, currFoundPairs);
      curFound' := InsertAll(curFound', currFoundPairs);
      hasAdjacentSymbol' := hasAdjacentSymbol' || currHasAdjacent;
    } else {
      ScanNonDigit(lines, i, j);
      ScanNonDigitGears(lines, i, j, t0);
      if hasAdjacentSymbol' {
        var parsed := ParseOrZero(currentNumber');
        tracker' := RecordNumber(tracker', curFound', parsed);
        curFound' := {};
        hasAdjacentSymbol' := false;
      }
      currentNumber' := "";
    }
  }

  /** The scan of row i in `solution_part2` and the check after it: every flagged run of the
      row is recorded against each symbol cell it touches. */
  method RowGears(lines: seq<string>, i: nat, tracker: Tracker) returns (tracker': Tracker)
    requires i < |lines|
    ensures tracker' == RecordRuns(lines, i, Runs(lines[i]), tracker)
  {
    var line := lines[i];
    tracker' := tracker;
    var currentNumber: string := "";
    var hasAdjacentSymbol := false;
    var curFound: set<Coord> := {};
    var j := 0;
    while j < |line|
      invariant j <= |line|
      invariant GearScanState(lines, i, j, tracker, tracker', currentNumber, hasAdjacentSymbol, curFound)
    {
      tracker', currentNumber, hasAdjacentSymbol, curFound :=
        ScanColumnGears(lines, i, j, tracker, tracker', currentNumber, hasAdjacentSymbol, curFound);
      j := j + 1;
    }
    ScanEndGears(lines, i, tracker);
    if hasAdjacentSymbol {
      var parsed := ParseOrZero(currentNumber);
      tracker' := RecordNumber(tracker', curFound, parsed);
      curFound := {};
    }
  }

  /** The gear ratio that one list of values contributes: the product of exactly two values,
      and nothing otherwise. */
  function GearRatio(v: seq<nat>): nat {
    if |v| == 2 then v[0] * v[1] else 0
  }

  /** The sum of the gear ratios of the lists at `keys`, taken in an arbitrary order. */
  ghost function GearSumOver(t: Tracker, keys: set<Coord>): nat
    requires keys <= t.Keys
    decreases keys
  {
    if keys == {} then 0
    else
      var k :| k in keys;
      GearRatio(t[k]) + GearSumOver(t, keys - {k})
  }

  /** The order of the fold does not matter: any key can be taken first. */
  lemma {:induction false} GearSumOverRemove(t: Tracker, keys: set<Coord>, k: Coord)
    requires keys <= t.Keys && k in keys
    ensures GearSumOver(t, keys) == GearRatio(t[k]) + GearSumOver(t, keys - {k})
    decreases keys
  {
    var x :| x in keys && GearSumOver(t, keys) == GearRatio(t[x]) + GearSumOver(t, keys - {x});
    if x != k {
      GearSumOverRemove(t, keys - {x}, k);
      GearSumOverRemove(t, keys - {k}, x);
      assert keys - {x} - {k} == keys - {k} - {x};
    }
  }

  /** Part two's answer: the sum, over every recorded cell, of its gear ratio. */
  ghost function GearRatioSum(lines: seq<string>): nat {
    GearSumOver(GearTable(lines), GearTable(lines).Keys)
  }

  /** The final `values().fold(...)` of `solution_part2`. */
  method SumGearRatios(t: Tracker) returns (res: nat)
    ensures res == GearSumOver(t, t.Keys)
  {
    res := 0;
    var remaining := t.Keys;
    while remaining != {}
      invariant remaining <= t.Keys
      invariant res + GearSumOver(t, remaining) == GearSumOver(t, t.Keys)
      decreases remaining
    {
      var k :| k in remaining;
      GearSumOverRemove(t, remaining, k);
      var mul := 0;
      if |t[k]| == 2 {
        mul := t[k][0] * t[k][1];
      }
      res := res + mul;
      remaining := remaining - {k};
    }
  }

  /** `solution_part2`: the sum of the gear ratios of the schematic. */
  method SolutionPart2(lines: seq<string>) returns (res: nat)
    ensures res == GearRatioSum(lines)
  {
    var tracker := BuildGearTable(lines);
    res := SumGearRatios(tracker);
  }

  /** The row loop of `solution_part2`: every row's runs recorded into `part_number_tracker`. */
  method BuildGearTable(lines: seq<string>) returns (tracker: Tracker)
    ensures tracker == GearTable(lines)
  {
    tracker := map[];
    var i := 0;
    while i < |lines|
      invariant i <= |lines|
      invariant tracker == GearTableUpTo(lines, i)
    {
      tracker := RowGears(lines, i, tracker);
      GearTableStep(lines, i + 1);
      i := i + 1;
    }
  }

  // ---------------------------------------------------------------------------------------
  // What the part-two table holds

  /** During a row scan of part two, the flag is up exactly when `curr_found` is non-empty. */
  lemma GearScanFlag(lines: seq<string>, i: nat, j: nat, t0: Tracker, tracker: Tracker,
                     currentNumber: string, hasAdjacentSymbol: bool, curFound: set<Coord>)
    requires i < |lines| && j <= |lines[i]|
    requires GearScanState(lines, i, j, t0, tracker, currentNumber, hasAdjacentSymbol, curFound)
    ensures hasAdjacentSymbol <==> curFound != {}
  {
    TouchSetFlagged(lines, i, RunStart(lines[i], j), j);
  }

  /** The values of the runs among `runs` of row i that touch cell k, in order, each run once. */
  function RunsTouching(lines: seq<string>, i: nat, runs: seq<Span>, k: Coord): seq<nat>
    requires i < |lines|
  {
    if runs == [] then []
    else
      var s := runs[|runs| - 1];
      RunsTouching(lines, i, runs[..|runs| - 1], k) + (if Touches(lines, i, s, k) then [RunValue(lines[i], s)] else [])
  }

  /** Recording the runs of a row appends to k's list exactly the values of the runs that touch
      k, each once and in order. */
  lemma {:induction false} RecordRunsEntries(lines: seq<string>, i: nat, runs: seq<Span>, t: Tracker, k: Coord)
    requires i < |lines|
    ensures Entries(RecordRuns(lines, i, runs, t), k) == Entries(t, k) + RunsTouching(lines, i, runs, k)
    decreases |runs|
  {
    if runs != [] {
      var s := runs[|runs| - 1];
      var front := runs[..|runs| - 1];
      RecordRunsEntries(lines, i, front, t, k);
      var t' := RecordRuns(lines, i, front, t);
      TouchSetCells(lines, i, s.start, s.end);
      TouchSetFlagged(lines, i, s.start, s.end);
      assert k in TouchSet(lines, i, s.start, s.end) <==> Touches(lines, i, s, k);
      RecordEntries(t', TouchSet(lines, i, s.start, s.end), RunValue(lines[i], s));
    }
  }

  /** Recording keeps every list of the table non-empty. */
  lemma {:induction false} RecordRunsNonEmpty(lines: seq<string>, i: nat, runs: seq<Span>, t: Tracker)
    requires i < |lines| && EntriesNonEmpty(t)
    ensures EntriesNonEmpty(RecordRuns(lines, i, runs, t))
    decreases |runs|
  {
    if runs != [] {
      var s := runs[|runs| - 1];
      var front := runs[..|runs| - 1];
      RecordRunsNonEmpty(lines, i, front, t);
      RecordEntries(RecordRuns(lines, i, front, t), TouchSet(lines, i, s.start, s.end), RunValue(lines[i], s));
    }
  }

  /** The values of all runs of rows [0, n) touching cell k, in scan order. */
  function TouchingValues(lines: seq<string>, n: nat, k: Coord): seq<nat>
    requires n <= |lines|
  {
    if n == 0 then [] else TouchingValues(lines, n - 1, k) + RunsTouching(lines, n - 1, Runs(lines[n - 1]), k)
  }

  /** The table maps every cell to the values of the digit runs touching it, each run once, in
      scan order. */
  lemma GearTableEntries(lines: seq<string>, n: nat, k: Coord)
    requires n <= |lines|
    ensures Entries(GearTableUpTo(lines, n), k) == TouchingValues(lines, n, k)
  {
    if n > 0 {
      GearTableEntries(lines, n - 1, k);
      TableRowEntries(lines, n, k);
    }
  }

  /** Recording one more row appends to k's list the values of that row's runs touching k. */
  lemma TableRowEntries(lines: seq<string>, n: nat, k: Coord)
    requires 0 < n <= |lines|
    ensures Entries(GearTableUpTo(lines, n), k) == Entries(GearTableUpTo(lines, n - 1), k) + RunsTouching(lines, n - 1, Runs(lines[n - 1]), k)
  {
    RecordRunsEntries(lines, n - 1, Runs(lines[n - 1]), GearTableUpTo(lines, n - 1), k);
  }

  /** Every list in the table is non-empty. */
  lemma GearTableNonEmpty(lines: seq<string>, n: nat)
    requires n <= |lines|
    ensures EntriesNonEmpty(GearTableUpTo(lines, n))
  {
    if n > 0 {
      GearTableNonEmpty(lines, n - 1);
      TableRowNonEmpty(lines, n);
    }
  }

  lemma TableRowNonEmpty(lines: seq<string>, n: nat)
    requires 0 < n <= |lines|
    requires EntriesNonEmpty(GearTableUpTo(lines, n - 1))
    ensures EntriesNonEmpty(GearTableUpTo(lines, n))
  {
    RecordRunsNonEmpty(lines, n - 1, Runs(lines[n - 1]), GearTableUpTo(lines, n - 1));
  }

  /** A cell is a key of the table exactly when some run touches it. */
  lemma GearTableHasKey(lines: seq<string>, k: Coord)
    ensures k in GearTable(lines) <==> TouchingValues(lines, |lines|, k) != []
  {
    GearTableEntries(lines, |lines|, k);
    GearTableNonEmpty(lines, |lines|);
  }

  /** A run's value is in the list of k only if the run touches k. */
  lemma {:induction false} RunsTouchingWitness(lines: seq<string>, i: nat, runs: seq<Span>, k: Coord)
    requires i < |lines|
    ensures RunsTouching(lines, i, runs, k) != [] <==> exists m :: 0 <= m < |runs| && Touches(lines, i, runs[m], k)
    decreases |runs|
  {
    if runs != [] {
      var front := runs[..|runs| - 1];
      RunsTouchingWitness(lines, i, front, k);
      if exists m :: 0 <= m < |runs| && Touches(lines, i, runs[m], k) {
        var m :| 0 <= m < |runs| && Touches(lines, i, runs[m], k);
        if m < |front| {
          assert front[m] == runs[m];
        }
      }
      if exists m :: 0 <= m < |front| && Touches(lines, i, front[m], k) {
        var m :| 0 <= m < |front| && Touches(lines, i, front[m], k);
        assert runs[m] == front[m];
      }
    }
  }

  /** A cell touched by some run of rows [0, n) is a symbol cell of the schematic. */
  lemma {:induction false} TouchingValuesSymbol(lines: seq<string>, n: nat, k: Coord)
    requires n <= |lines|
    requires TouchingValues(lines, n, k) != []
    ensures k.0 < |lines| && k.1 < |lines[k.0]| && IsSymbol(lines[k.0][k.1])
    ensures exists r, m :: 0 <= r < n && 0 <= m < |Runs(lines[r])| && Touches(lines, r, Runs(lines[r])[m], k)
  {
    var r := n - 1;
    if RunsTouching(lines, r, Runs(lines[r]), k) != [] {
      RunsTouchingWitness(lines, r, Runs(lines[r]), k);
      var m :| 0 <= m < |Runs(lines[r])| && Touches(lines, r, Runs(lines[r])[m], k);
      var s := Runs(lines[r])[m];
      var c: nat :| s.start <= c < s.end && IsNeighbourSymbol(lines, r, c, k);
    } else {
      assert TouchingValues(lines, r, k) != [];
      TouchingValuesSymbol(lines, r, k);
    }
  }

  /** Every key of the table is a symbol cell that some digit run of the schematic touches. */
  lemma GearTableKeys(lines: seq<string>, k: Coord)
    requires k in GearTable(lines)
    ensures k.0 < |lines| && k.1 < |lines[k.0]| && IsSymbol(lines[k.0][k.1])
    ensures exists r, m :: 0 <= r < |lines| && 0 <= m < |Runs(lines[r])| && Touches(lines, r, Runs(lines[r])[m], k)
  {
    GearTableHasKey(lines, k);
    TouchingValuesSymbol(lines, |lines|, k);
  }

  // ---------------------------------------------------------------------------------------
  // Schematics without symbols

  predicate NoSymbols(lines: seq<string>) {
    forall r, c :: 0 <= r < |lines| && 0 <= c < |lines[r]| ==> !IsSymbol(lines[r][c])
  }

  lemma {:induction false} NoSymbolsNoFlag(lines: seq<string>, i: nat, s: nat, e: nat)
    requires NoSymbols(lines)
    ensures !SpanFlagged(lines, i, s, e)
    decreases e
  {
    if s < e {
      NoSymbolsNoFlag(lines, i, s, e - 1);
      assert !HasAdjacentSymbol(lines, i, e - 1);
    }
  }

  lemma {:induction false} NoSymbolsRowParts(lines: seq<string>, i: nat, runs: seq<Span>)
    requires i < |lines| && NoSymbols(lines)
    ensures FlaggedSum(lines, i, runs) == 0
    decreases |runs|
  {
    if runs != [] {
      var s := runs[|runs| - 1];
      NoSymbolsRowParts(lines, i, runs[..|runs| - 1]);
      NoSymbolsNoFlag(lines, i, s.start, s.end);
    }
  }

  lemma {:induction false} NoSymbolsRowGears(lines: seq<string>, i: nat, runs: seq<Span>, t: Tracker)
    requires i < |lines| && NoSymbols(lines)
    ensures RecordRuns(lines, i, runs, t) == t
    decreases |runs|
  {
    if runs != [] {
      var s := runs[|runs| - 1];
      NoSymbolsRowGears(lines, i, runs[..|runs| - 1], t);
      NoSymbolsNoFlag(lines, i, s.start, s.end);
    }
  }

  lemma NoSymbolsRowSum(lines: seq<string>, i: nat)
    requires i < |lines| && NoSymbols(lines)
    ensures RowPartSum(lines, i) == 0
  {
    NoSymbolsRowParts(lines, i, Runs(lines[i]));
  }

  lemma NoSymbolsGearsUpTo(lines: seq<string>, n: nat)
    requires n <= |lines| && NoSymbols(lines)
    ensures GearTableUpTo(lines, n) == map[]
  {
    if n > 0 {
      NoSymbolsGearsUpTo(lines, n - 1);
      NoSymbolsTableRow(lines, n);
    }
  }

  lemma NoSymbolsTableRow(lines: seq<string>, n: nat)
    requires 0 < n <= |lines| && NoSymbols(lines)
    requires GearTableUpTo(lines, n - 1) == map[]
    ensures GearTableUpTo(lines, n) == map[]
  {
    NoSymbolsRowGears(lines, n - 1, Runs(lines[n - 1]), map[]);
  }

  /** A schematic without symbols has no part numbers and no gears: both answers are 0. */
  lemma NoSymbolsNoAnswer(lines: seq<string>)
    requires NoSymbols(lines)
    ensures PartNumberSum(lines) == 0
    ensures GearRatioSum(lines) == 0
  {
    forall r | 0 <= r < |lines| ensures RowPartSums(lines)[r] == 0 {
      NoSymbolsRowSum(lines, r);
    }
    SumZero(RowPartSums(lines));
    NoSymbolsGearsUpTo(lines, |lines|);
  }

  // ---------------------------------------------------------------------------------------
  // A one-row example

  /** The row "12*34" has two numbers: [0, 2) closed by the '*', and [3, 5) ending the row. */
  lemma ExampleRuns()
    ensures Runs("12*34") == [Span(0, 2), Span(3, 5)]
  {
    var line := "12*34";
    ExampleFirstRun();
    assert ClosedRuns(line, 5) == [Span(0, 2)];
    assert RunStart(line, 5) == 3;
  }

  /** The '*' of "12*34" closes the run "12". */
  lemma ExampleFirstRun()
    ensures ClosedRuns("12*34", 3) == [Span(0, 2)]
  {
    var line := "12*34";
    assert RunStart(line, 2) == 0;
    assert ClosedRuns(line, 2) == [];
  }

  /** ... with the values 12 and 34. */
  lemma ExampleValues()
    ensures RunValue("12*34", Span(0, 2)) == 12 && RunValue("12*34", Span(3, 5)) == 34
  {
    var line := "12*34";
    assert line[0..2] == "12" && line[3..5] == "34";
    assert DecimalValue("1") == 1 && DecimalValue("3") == 3;
    assert ParseU64("12") == Some(12) && ParseU64("34") == Some(34);
  }

  /** Both numbers of "12*34" touch the '*', so part one adds them: 12 + 34. */
  lemma ExamplePartOne()
    ensures PartNumberSum(["12*34"]) == 46
  {
    var lines := ["12*34"];
    var line := lines[0];
    ExampleRuns();
    ExampleValues();
    assert IsNeighbourSymbol(lines, 0, 1, (0, 2));
    assert IsNeighbourSymbol(lines, 0, 3, (0, 2));
    assert SpanFlagged(lines, 0, 0, 2);
    assert SpanFlagged(lines, 0, 3, 5);
    assert [Span(0, 2), Span(3, 5)][..1] == [Span(0, 2)];
    assert FlaggedSum(lines, 0, [Span(0, 2)]) == 12;
    assert RowPartSum(lines, 0) == 46;
    assert RowPartSums(lines) == [46];
    assert [46][..0] == [];
  }

  /** In "12*34" each number touches exactly the cell (0, 2) of the '*'. */
  lemma ExampleTouches()
    ensures TouchSet(["12*34"], 0, 0, 2) == {(0, 2)}
    ensures TouchSet(["12*34"], 0, 3, 5) == {(0, 2)}
  {
    var lines := ["12*34"];
    NeighbourSymbolsCells(lines, 0, 0);
    NeighbourSymbolsCells(lines, 0, 1);
    NeighbourSymbolsCells(lines, 0, 3);
    NeighbourSymbolsCells(lines, 0, 4);
    assert NeighbourSymbols(lines, 0, 0) == {};
    assert NeighbourSymbols(lines, 0, 1) == {(0, 2)};
    assert NeighbourSymbols(lines, 0, 3) == {(0, 2)};
    assert NeighbourSymbols(lines, 0, 4) == {};
  }

  lemma ExampleRecords()
    ensures Record(map[], {(0, 2)}, 12) == map[(0, 2) := [12]]
    ensures Record(map[(0, 2) := [12]], {(0, 2)}, 34) == map[(0, 2) := [12, 34]]
  {
    var empty: Tracker := map[];
    RecordSingle(empty, (0, 2), 12);
    assert Entries(empty, (0, 2)) + [12] == [12];
    assert empty[(0, 2) := [12]] == map[(0, 2) := [12]];
    var first: Tracker := map[(0, 2) := [12]];
    RecordSingle(first, (0, 2), 34);
    assert Entries(first, (0, 2)) + [34] == [12, 34];
    assert first[(0, 2) := [12, 34]] == map[(0, 2) := [12, 34]];
  }

  /** The table of "12*34" records both numbers against the '*'. */
  lemma ExampleTable()
    ensures GearTable(["12*34"]) == map[(0, 2) := [12, 34]]
  {
    var lines := ["12*34"];
    ExampleRuns();
    ExampleValues();
    ExampleTouches();
    TouchSetFlagged(lines, 0, 0, 2);
    TouchSetFlagged(lines, 0, 3, 5);
    var runs := [Span(0, 2), Span(3, 5)];
    assert runs[..1] == [Span(0, 2)] && [Span(0, 2)][..0] == [];
    ExampleRecords();
    var first: Tracker := map[(0, 2) := [12]];
    assert RecordRuns(lines, 0, [Span(0, 2)], map[]) == first;
    assert RecordRuns(lines, 0, runs, map[]) == Record(first, {(0, 2)}, 34);
  }

  /** The '*' of "12*34" is a gear with ratio 12 * 34, and the only one. */
  lemma ExamplePartTwo()
    ensures GearRatioSum(["12*34"]) == 408
  {
    ExampleTable();
    var table: Tracker := map[(0, 2) := [12, 34]];
    assert table.Keys == {(0, 2)};
    GearSumOverRemove(table, {(0, 2)}, (0, 2));
    assert {(0, 2)} - {(0, 2)} == {};
  }
}
