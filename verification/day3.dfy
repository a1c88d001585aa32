/**
 * day_3.ts: gear ratios. A schematic is a list of lines; a part number is a
 * maximal run of digits with a symbol in the rectangle around it, and a gear
 * is a `*` next to exactly two numbers.
 */
module Day3 {
  import opened Text

  /** `new Coordinate(row, column)`: a cell of the schematic. */
  datatype Coordinate = Coordinate(row: int, column: int)

  /** The two patterns the source searches with: anything but a digit or `.` by default, and `*` for gears. */
  datatype SymbolClass = AnySymbol | Gear

  predicate IsSymbol(cls: SymbolClass, c: char) {
    match cls
    case AnySymbol => !IsDigit(c) && c != '.'
    case Gear => c == '*'
  }

  /** A match of `/[0-9]+/g`: its index in the line and the digits matched. */
  datatype NumberMatch = NumberMatch(index: nat, digits: string)

  /** `parse`: the lines of the schematic, without the trailing white space of the input. */
  function Parse(input: string): (lines: seq<string>)
    ensures |lines| >= 1
  {
    Split(TrimEnd(input), "\n")
  }

  // The neighbour search

  /** `Math.max(0, column - 1)`: the first column searched. */
  function SearchStart(column: int): nat {
    if column - 1 > 0 then column - 1 else 0
  }

  /** The end of `line.slice(start, column + length + 1)`, clamped to the line as `slice` clamps it. */
  function SearchEnd(line: string, start: nat, column: int, length: int): (e: nat)
    ensures e <= |line|
    ensures start <= |line| ==> start <= e
  {
    var e := column + length + 1;
    if e > |line| then |line| else if e < start then (if start <= |line| then start else |line|) else e
  }

  /** The symbols among columns `lo` up to `hi` of a line, left to right. */
  function SymbolsBetween(line: string, row: int, lo: nat, hi: nat, cls: SymbolClass): (cs: seq<Coordinate>)
    requires lo <= hi <= |line|
    ensures forall i :: 0 <= i < |cs| ==> cs[i].row == row && lo <= cs[i].column < hi
    decreases hi - lo
  {
    if hi == lo then []
    else SymbolsBetween(line, row, lo, hi - 1, cls) + (if IsSymbol(cls, line[hi - 1]) then [Coordinate(row, hi - 1)] else [])
  }

  /** The symbols the search finds on one row: none when the row is missing or empty (`if (!line) continue`). */
  function RowSymbols(lines: seq<string>, row: int, number: Coordinate, length: int, cls: SymbolClass): seq<Coordinate> {
    if 0 <= row < |lines| && lines[row] != [] then
      var line := lines[row];
      var start := SearchStart(number.column);
      if start <= |line| then SymbolsBetween(line, row, start, SearchEnd(line, start, number.column, length), cls) else []
    else []
  }

  /** The symbols found on the first `count` rows of the three rows around a number. */
  function RowsSymbols(lines: seq<string>, number: Coordinate, length: int, cls: SymbolClass, count: nat): seq<Coordinate> {
    if count == 0 then []
    else RowsSymbols(lines, number, length, cls, count - 1) + RowSymbols(lines, number.row - 1 + (count - 1), number, length, cls)
  }

  /** Everything `getNumberSymbolNeighbors` yields, in order. */
  function Neighbors(lines: seq<string>, number: Coordinate, length: int, cls: SymbolClass): seq<Coordinate> {
    RowsSymbols(lines, number, length, cls, 3)
  }

  /**
   * The cell `c` is in the rectangle around a number at `number` of `length`
   * digits: one of the rows above, at or below it, and a column from one left
   * of the number to one right of it; it exists in the schematic, and holds a
   * symbol of the class.
   */
  predicate SymbolNear(lines: seq<string>, number: Coordinate, length: int, cls: SymbolClass, c: Coordinate) {
    && number.row - 1 <= c.row <= number.row + 1
    && SearchStart(number.column) <= c.column <= number.column + length
    && 0 <= c.row < |lines| && 0 <= c.column < |lines[c.row]|
    && IsSymbol(cls, lines[c.row][c.column])
  }

  /** Row-major order. */
  predicate Before(a: Coordinate, b: Coordinate) {
    a.row < b.row || (a.row == b.row && a.column < b.column)
  }

  predicate StrictlyOrdered(cs: seq<Coordinate>) {
    forall i, j :: 0 <= i < j < |cs| ==> Before(cs[i], cs[j])
  }

  /** A cell is found on a row exactly when it is a symbol between the bounds. */
  lemma {:induction false} SymbolsBetweenExactly(line: string, row: int, lo: nat, hi: nat, cls: SymbolClass, c: Coordinate)
    requires lo <= hi <= |line|
    ensures c in SymbolsBetween(line, row, lo, hi, cls) <==> c.row == row && lo <= c.column < hi && IsSymbol(cls, line[c.column])
    decreases hi - lo
  {
    if hi > lo {
      SymbolsBetweenExactly(line, row, lo, hi - 1, cls, c);
    }
  }

  /** A row is found left to right. */
  lemma {:induction false} SymbolsBetweenOrdered(line: string, row: int, lo: nat, hi: nat, cls: SymbolClass)
    requires lo <= hi <= |line|
    ensures StrictlyOrdered(SymbolsBetween(line, row, lo, hi, cls))
    decreases hi - lo
  {
    if hi > lo {
      SymbolsBetweenOrdered(line, row, lo, hi - 1, cls);
    }
  }

  /** A cell is found on a row exactly when it is a symbol in the rectangle on that row. */
  lemma {:induction false} RowSymbolsExactly(lines: seq<string>, row: int, number: Coordinate, length: int, cls: SymbolClass, c: Coordinate)
    requires number.row - 1 <= row <= number.row + 1 && length >= 0
    ensures c in RowSymbols(lines, row, number, length, cls) <==> c.row == row && SymbolNear(lines, number, length, cls, c)
  {
    if 0 <= row < |lines| && lines[row] != [] {
      var line := lines[row];
      var start := SearchStart(number.column);
      if start <= |line| {
        SymbolsBetweenExactly(line, row, start, SearchEnd(line, start, number.column, length), cls, c);
      }
    }
  }

  /** The first `count` rows hold exactly the symbols of the rectangle on those rows. */
  lemma {:induction false} RowsSymbolsExactly(lines: seq<string>, number: Coordinate, length: int, cls: SymbolClass, count: nat, c: Coordinate)
    requires count <= 3 && length >= 0
    ensures c in RowsSymbols(lines, number, length, cls, count) <==> c.row < number.row - 1 + count && SymbolNear(lines, number, length, cls, c)
  {
    if count > 0 {
      var front := RowsSymbols(lines, number, length, cls, count - 1);
      var row := number.row - 1 + (count - 1);
      var last := RowSymbols(lines, row, number, length, cls);
      assert RowsSymbols(lines, number, length, cls, count) == front + last;
      RowsSymbolsExactly(lines, number, length, cls, count - 1, c);
      RowSymbolsExactly(lines, row, number, length, cls, c);
      assert c in front + last <==> c in front || c in last;
    }
  }

  /** The first `count` rows are found in row-major order. */
  lemma {:induction false} RowsSymbolsOrdered(lines: seq<string>, number: Coordinate, length: int, cls: SymbolClass, count: nat)
    ensures StrictlyOrdered(RowsSymbols(lines, number, length, cls, count))
    ensures forall i :: 0 <= i < |RowsSymbols(lines, number, length, cls, count)| ==>
      RowsSymbols(lines, number, length, cls, count)[i].row < number.row - 1 + count
  {
    if count > 0 {
      var front := RowsSymbols(lines, number, length, cls, count - 1);
      var row := number.row - 1 + (count - 1);
      var last := RowSymbols(lines, row, number, length, cls);
      RowsSymbolsOrdered(lines, number, length, cls, count - 1);
      if 0 <= row < |lines| && lines[row] != [] {
        var start := SearchStart(number.column);
        if start <= |lines[row]| {
          SymbolsBetweenOrdered(lines[row], row, start, SearchEnd(lines[row], start, number.column, length), cls);
        }
      }
      assert forall i :: 0 <= i < |last| ==> last[i].row == row;
      assert StrictlyOrdered(front + last) by {
        forall i, j | 0 <= i < j < |front + last| ensures Before((front + last)[i], (front + last)[j]) {
          if j < |front| {
            assert Before(front[i], front[j]);
          } else if i >= |front| {
            assert Before(last[i - |front|], last[j - |front|]);
          }
        }
      }
    }
  }

  /**
   * What `getNumberSymbolNeighbors` yields is exactly the symbols of the
   * class in the rectangle around the number, each once, in row-major order.
   */
  lemma {:induction false} NeighborsExactly(lines: seq<string>, number: Coordinate, length: int, cls: SymbolClass)
    requires length >= 0
    ensures forall c :: c in Neighbors(lines, number, length, cls) <==> SymbolNear(lines, number, length, cls, c)
    ensures StrictlyOrdered(Neighbors(lines, number, length, cls))
  {
    forall c ensures c in Neighbors(lines, number, length, cls) <==> SymbolNear(lines, number, length, cls, c) {
      RowsSymbolsExactly(lines, number, length, cls, 3, c);
    }
    RowsSymbolsOrdered(lines, number, length, cls, 3);
  }

  /** `getNumberSymbolNeighbors(lines, numberCoordinate, numberLength, symbolRegex)`: the row loop of the source. */
  method GetNumberSymbolNeighbors(lines: seq<string>, number: Coordinate, length: int, cls: SymbolClass)
    returns (found: seq<Coordinate>)
    ensures found == Neighbors(lines, number, length, cls)
  {
    found := [];
    var count: nat := 0;
    while count < 3
      invariant count <= 3
      invariant found == RowsSymbols(lines, number, length, cls, count)
    {
      var row := number.row - 1 + count;
      if 0 <= row < |lines| && lines[row] != [] {
        var line := lines[row];
        var start := SearchStart(number.column);
        var inRow := [];
        if start <= |line| {
          inRow := ScanRow(line, row, start, SearchEnd(line, start, number.column, length), cls);
        }
        found := found + inRow;
      }
      count := count + 1;
    }
  }

  /** `searchPart.matchAll(symbolRegex)`: the columns of the slice that hold a symbol. */
  method ScanRow(line: string, row: int, lo: nat, hi: nat, cls: SymbolClass) returns (found: seq<Coordinate>)
    requires lo <= hi <= |line|
    ensures found == SymbolsBetween(line, row, lo, hi, cls)
  {
    found := [];
    for k := lo to hi
      invariant found == SymbolsBetween(line, row, lo, k, cls)
    {
      if IsSymbol(cls, line[k]) {
        found := found + [Coordinate(row, k)];
      }
    }
  }

  /** `numberHasSymbolNeighbors`: whether the search yields anything, returning at the first cell found. */
  method NumberHasSymbolNeighbors(lines: seq<string>, number: Coordinate, length: int) returns (has: bool)
    requires length >= 0
    ensures has <==> exists c :: SymbolNear(lines, number, length, AnySymbol, c)
    ensures has <==> |Neighbors(lines, number, length, AnySymbol)| > 0
  {
    var found := GetNumberSymbolNeighbors(lines, number, length, AnySymbol);
    NeighborsExactly(lines, number, length, AnySymbol);
    if |found| > 0 {
      assert SymbolNear(lines, number, length, AnySymbol, found[0]);
      return true;
    }
    return false;
  }

  // The numbers of a line

  /** The end of the run of digits starting at `i`. */
  function RunEnd(line: string, i: nat): (e: nat)
    requires i <= |line|
    ensures i <= e <= |line| && AllDigits(line[i..e])
    ensures e == |line| || !IsDigit(line[e])
    decreases |line| - i
  {
    if i < |line| && IsDigit(line[i]) then
      var e := RunEnd(line, i + 1);
      assert line[i..e] == [line[i]] + line[i + 1..e];
      e
    else i
  }

  /** The matches of `/[0-9]+/g` from index `i` on. */
  function MatchesFrom(line: string, i: nat): (ms: seq<NumberMatch>)
    requires i <= |line|
    ensures forall k :: 0 <= k < |ms| ==> i <= ms[k].index
    decreases |line| - i
  {
    if i == |line| then []
    else if !IsDigit(line[i]) then MatchesFrom(line, i + 1)
    else
      var e := RunEnd(line, i);
      [NumberMatch(i, line[i..e])] + MatchesFrom(line, e)
  }

  /** `line.matchAll(/[0-9]+/g)`. */
  function NumberMatches(line: string): seq<NumberMatch> {
    MatchesFrom(line, 0)
  }

  /** `m` is a maximal run of digits of `line`: no digit just before it or just after it. */
  predicate MaximalRun(line: string, m: NumberMatch) {
    && |m.digits| >= 1 && AllDigits(m.digits)
    && m.index + |m.digits| <= |line| && line[m.index..m.index + |m.digits|] == m.digits
    && (m.index == 0 || !IsDigit(line[m.index - 1]))
    && (m.index + |m.digits| == |line| || !IsDigit(line[m.index + |m.digits|]))
  }

  /** Where the matches from `i` on may start: at `i` or after, and never just after a digit. */
  predicate MayStartAt(line: string, i: nat) {
    i <= |line| && (i == 0 || i == |line| || !IsDigit(line[i - 1]) || !IsDigit(line[i]))
  }

  /** The matches from `i` on are maximal runs of digits. */
  lemma {:induction false} MatchesFromMaximal(line: string, i: nat)
    requires MayStartAt(line, i)
    ensures forall k :: 0 <= k < |MatchesFrom(line, i)| ==> MaximalRun(line, MatchesFrom(line, i)[k])
    decreases |line| - i
  {
    if i < |line| {
      if !IsDigit(line[i]) {
        MatchesFromMaximal(line, i + 1);
      } else {
        var e := RunEnd(line, i);
        MatchesFromMaximal(line, e);
        var ms := MatchesFrom(line, i);
        var rest := MatchesFrom(line, e);
        assert ms == [NumberMatch(i, line[i..e])] + rest;
        assert forall k :: 1 <= k < |ms| ==> ms[k] == rest[k - 1];
      }
    }
  }

  /** The matches from `i` on come left to right with at least one non-digit between two of them. */
  lemma {:induction false} MatchesFromApart(line: string, i: nat)
    requires MayStartAt(line, i)
    ensures forall k :: 0 <= k < |MatchesFrom(line, i)| - 1 ==>
      MatchesFrom(line, i)[k].index + |MatchesFrom(line, i)[k].digits| < MatchesFrom(line, i)[k + 1].index
    decreases |line| - i
  {
    if i < |line| {
      if !IsDigit(line[i]) {
        MatchesFromApart(line, i + 1);
      } else {
        var e := RunEnd(line, i);
        MatchesFromApart(line, e);
        var ms := MatchesFrom(line, i);
        var rest := MatchesFrom(line, e);
        assert ms == [NumberMatch(i, line[i..e])] + rest;
        assert forall k :: 1 <= k < |ms| ==> ms[k] == rest[k - 1];
        if rest != [] {
          MatchesFromMaximal(line, e);
          assert MaximalRun(line, rest[0]);
          assert rest[0].index != e;
        }
      }
    }
  }

  /** Every digit from `i` on is in one of the matches from `i` on. */
  lemma {:induction false} MatchesFromCover(line: string, i: nat)
    requires MayStartAt(line, i)
    ensures forall p :: i <= p < |line| && IsDigit(line[p]) ==> Covered(MatchesFrom(line, i), p)
    decreases |line| - i
  {
    if i < |line| {
      if !IsDigit(line[i]) {
        MatchesFromCover(line, i + 1);
      } else {
        var e := RunEnd(line, i);
        MatchesFromCover(line, e);
        var ms := MatchesFrom(line, i);
        var first := NumberMatch(i, line[i..e]);
        var rest := MatchesFrom(line, e);
        assert ms == [first] + rest;
        forall p | i <= p < |line| && IsDigit(line[p]) ensures Covered(ms, p) {
          if p < e {
            assert ms[0] == first && first.index <= p < first.index + |first.digits|;
          } else {
            assert Covered(rest, p);
            var k :| 0 <= k < |rest| && rest[k].index <= p < rest[k].index + |rest[k].digits|;
            assert ms[k + 1] == rest[k];
            assert 0 <= k + 1 < |ms| && ms[k + 1].index <= p < ms[k + 1].index + |ms[k + 1].digits|;
          }
        }
      }
    }
  }

  /** Position `p` is inside one of the matches. */
  predicate Covered(ms: seq<NumberMatch>, p: int) {
    exists k :: 0 <= k < |ms| && ms[k].index <= p < ms[k].index + |ms[k].digits|
  }

  /**
   * `line.matchAll(/[0-9]+/g)` finds the maximal runs of digits, left to
   * right, apart from each other, and together they cover every digit.
   */
  lemma {:induction false} NumberMatchesAreRuns(line: string)
    ensures forall k :: 0 <= k < |NumberMatches(line)| ==> MaximalRun(line, NumberMatches(line)[k])
    ensures forall k :: 0 <= k < |NumberMatches(line)| - 1 ==>
      NumberMatches(line)[k].index + |NumberMatches(line)[k].digits| < NumberMatches(line)[k + 1].index
    ensures forall p :: 0 <= p < |line| && IsDigit(line[p]) ==> Covered(NumberMatches(line), p)
  {
    MatchesFromMaximal(line, 0);
    MatchesFromApart(line, 0);
    MatchesFromCover(line, 0);
  }

  /** `Number(numberMatch[0])`. */
  function Value(m: NumberMatch): nat {
    if AllDigits(m.digits) then DigitsValue(m.digits) else 0
  }

  // Part 1

  function Sum(xs: seq<int>): int {
    if xs == [] then 0 else Sum(xs[..|xs| - 1]) + xs[|xs| - 1]
  }

  /** The rectangle around a match of row `row` holds a symbol. */
  ghost predicate IsPartNumber(lines: seq<string>, row: nat, m: NumberMatch) {
    exists c :: SymbolNear(lines, Coordinate(row, m.index), |m.digits|, AnySymbol, c)
  }

  /** The values of the matches of a row that have a symbol around them, in order. */
  ghost function RowPartNumbers(lines: seq<string>, row: nat, ms: seq<NumberMatch>): seq<int> {
    if ms == [] then []
    else
      var m := ms[|ms| - 1];
      RowPartNumbers(lines, row, ms[..|ms| - 1]) + (if IsPartNumber(lines, row, m) then [Value(m)] else [])
  }

  /** The part numbers of the first `rows` lines, in reading order. */
  ghost function PartNumbers(lines: seq<string>, rows: nat): seq<int>
    requires rows <= |lines|
  {
    if rows == 0 then [] else PartNumbers(lines, rows - 1) + RowPartNumbers(lines, rows - 1, NumberMatches(lines[rows - 1]))
  }

  /** `part1`: the sum of the part numbers, collected row by row. */
  method Part1(input: string) returns (total: int)
    ensures total == Sum(PartNumbers(Parse(input), |Parse(input)|))
  {
    var lines := Parse(input);
    var partNumbers := [];
    for row := 0 to |lines|
      invariant partNumbers == PartNumbers(lines, row)
    {
      partNumbers := CollectPartNumbers(lines, row, partNumbers);
    }
    total := SumOf(partNumbers);
  }

  /** The loop over the numbers of one line in `part1`: push each number with a symbol around it. */
  method CollectPartNumbers(lines: seq<string>, row: nat, partNumbers: seq<int>) returns (more: seq<int>)
    requires row < |lines|
    ensures more == partNumbers + RowPartNumbers(lines, row, NumberMatches(lines[row]))
  {
    var ms := NumberMatches(lines[row]);
    more := partNumbers;
    for k := 0 to |ms|
      invariant more == partNumbers + RowPartNumbers(lines, row, ms[..k])
    {
      var m := ms[k];
      var has := NumberHasSymbolNeighbors(lines, Coordinate(row, m.index), |m.digits|);
      assert ms[..k + 1][..k] == ms[..k];
      if has {
        more := more + [Value(m)];
      }
    }
    assert ms[..|ms|] == ms;
  }

  /** `reduce((a, b) => a + b, 0)`. */
  method SumOf(xs: seq<int>) returns (total: int)
    ensures total == Sum(xs)
  {
    total := 0;
    for k := 0 to |xs|
      invariant total == Sum(xs[..k])
    {
      assert xs[..k + 1][..k] == xs[..k];
      total := total + xs[k];
    }
    assert xs[..|xs|] == xs;
  }

  // Part 2

  /**
   * `gearCoordsToNumbers`: a `Map` from gear cells to the numbers next to
   * them, with its keys in insertion order (the order `values()` follows).
   */
  datatype GearTable = GearTable(order: seq<Coordinate>, numbers: map<Coordinate, seq<int>>)

  const NoGears := GearTable([], map[])

  /** One number found next to a gear: a new gear gets an empty list first, then the number is pushed. */
  function AddNumber(t: GearTable, gear: Coordinate, value: int): GearTable {
    if gear in t.numbers then GearTable(t.order, t.numbers[gear := t.numbers[gear] + [value]])
    else GearTable(t.order + [gear], t.numbers[gear := [value]])
  }

  /** A gear cell and a number next to it. */
  type Incidence = (Coordinate, int)

  /** The table after adding a list of incidences in order. */
  function AddAll(t: GearTable, xs: seq<Incidence>): GearTable {
    if xs == [] then t else AddNumber(AddAll(t, xs[..|xs| - 1]), xs[|xs| - 1].0, xs[|xs| - 1].1)
  }

  lemma {:induction false} AddAllAppend(t: GearTable, xs: seq<Incidence>, ys: seq<Incidence>)
    ensures AddAll(t, xs + ys) == AddAll(AddAll(t, xs), ys)
    decreases |ys|
  {
    if ys == [] {
      assert xs + ys == xs;
    } else {
      assert (xs + ys)[..|xs + ys| - 1] == xs + ys[..|ys| - 1];
      AddAllAppend(t, xs, ys[..|ys| - 1]);
    }
  }

  /** The number `value` paired with each gear found next to it. */
  function Pairs(gears: seq<Coordinate>, value: int): (xs: seq<Incidence>)
    ensures |xs| == |gears| && forall i :: 0 <= i < |xs| ==> xs[i] == (gears[i], value)
  {
    seq(|gears|, i requires 0 <= i < |gears| => (gears[i], value))
  }

  /** The incidences of the matches of a row, match by match. */
  function RowIncidences(lines: seq<string>, row: nat, ms: seq<NumberMatch>): seq<Incidence> {
    if ms == [] then []
    else
      var m := ms[|ms| - 1];
      RowIncidences(lines, row, ms[..|ms| - 1]) + Pairs(Neighbors(lines, Coordinate(row, m.index), |m.digits|, Gear), Value(m))
  }

  /** The matches of every line, line by line. */
  function LineMatches(lines: seq<string>): (mss: seq<seq<NumberMatch>>)
    ensures |mss| == |lines| && forall r :: 0 <= r < |lines| ==> mss[r] == NumberMatches(lines[r])
  {
    seq(|lines|, r requires 0 <= r < |lines| => NumberMatches(lines[r]))
  }

  /** The incidences of the first lines, given the matches of each of them: row `r` has the matches `mss[r]`. */
  function Incidences(lines: seq<string>, mss: seq<seq<NumberMatch>>): seq<Incidence> {
    if mss == [] then [] else Incidences(lines, mss[..|mss| - 1]) + RowIncidences(lines, |mss| - 1, mss[|mss| - 1])
  }

  /** `gearNumbers.length === 2` and `a * b`. */
  function Ratio(numbers: seq<int>): int {
    if |numbers| == 2 then numbers[0] * numbers[1] else 0
  }

  /** The final `filter`, `map` and `reduce` over the values, in insertion order. */
  function RatioSum(t: GearTable, order: seq<Coordinate>): int
    requires forall i :: 0 <= i < |order| ==> order[i] in t.numbers
  {
    if order == [] then 0 else RatioSum(t, order[..|order| - 1]) + Ratio(t.numbers[order[|order| - 1]])
  }

  /** The values of the incidences of one gear, in order. */
  function ValuesAt(xs: seq<Incidence>, gear: Coordinate): seq<int> {
    if xs == [] then []
    else ValuesAt(xs[..|xs| - 1], gear) + (if xs[|xs| - 1].0 == gear then [xs[|xs| - 1].1] else [])
  }

  /** The keys of the table are listed once each, in `order`. */
  predicate Listed(t: GearTable) {
    && (forall i :: 0 <= i < |t.order| ==> t.order[i] in t.numbers)
    && (forall g :: g in t.numbers ==> g in t.order)
    && (forall i, j :: 0 <= i < j < |t.order| ==> t.order[i] != t.order[j])
  }

  /** Adding incidences keeps every key listed once. */
  lemma {:induction false} AddAllListed(t: GearTable, xs: seq<Incidence>)
    requires Listed(t)
    ensures Listed(AddAll(t, xs))
  {
    if xs != [] {
      AddAllListed(t, xs[..|xs| - 1]);
    }
  }

  /** Each gear of the table holds the values of its incidences, in order. */
  lemma {:induction false} AddAllValues(xs: seq<Incidence>, g: Coordinate)
    ensures g in AddAll(NoGears, xs).numbers ==> AddAll(NoGears, xs).numbers[g] == ValuesAt(xs, g)
    ensures g in AddAll(NoGears, xs).numbers <==> ValuesAt(xs, g) != []
  {
    if xs != [] {
      AddAllValues(xs[..|xs| - 1], g);
    }
  }

  /** The values of one gear in incidences appended one after the other. */
  lemma {:induction false} ValuesAtAppend(xs: seq<Incidence>, ys: seq<Incidence>, gear: Coordinate)
    ensures ValuesAt(xs + ys, gear) == ValuesAt(xs, gear) + ValuesAt(ys, gear)
    decreases |ys|
  {
    if ys == [] {
      assert xs + ys == xs;
    } else {
      assert (xs + ys)[..|xs + ys| - 1] == xs + ys[..|ys| - 1];
      ValuesAtAppend(xs, ys[..|ys| - 1], gear);
    }
  }

  /** The values at `gear` of two lists of incidences joined, as found for each. */
  lemma {:induction false} ValuesAtJoin(xs: seq<Incidence>, front: seq<Incidence>, last: seq<Incidence>, gear: Coordinate,
                                         values: seq<int>, frontValues: seq<int>, lastValues: seq<int>)
    requires xs == front + last && values == frontValues + lastValues
    requires ValuesAt(front, gear) == frontValues && ValuesAt(last, gear) == lastValues
    ensures ValuesAt(xs, gear) == values
  {
    ValuesAtAppend(front, last, gear);
  }

  /** A number next to distinct gears is listed once for each gear it is next to. */
  lemma {:induction false} PairsValuesAt(gears: seq<Coordinate>, value: int, gear: Coordinate)
    requires forall i, j :: 0 <= i < j < |gears| ==> gears[i] != gears[j]
    ensures ValuesAt(Pairs(gears, value), gear) == if gear in gears then [value] else []
  {
    if gears != [] {
      var front := gears[..|gears| - 1];
      assert Pairs(gears, value)[..|gears| - 1] == Pairs(front, value);
      PairsValuesAt(front, value, gear);
      assert gear in gears <==> gear in front || gear == gears[|gears| - 1];
    }
  }

  /** The numbers of the first matches of a row that have `gear` in their rectangle, in order. */
  function RowNumbersNear(lines: seq<string>, row: nat, ms: seq<NumberMatch>, gear: Coordinate): seq<int> {
    if ms == [] then []
    else
      var m := ms[|ms| - 1];
      RowNumbersNear(lines, row, ms[..|ms| - 1], gear)
        + (if SymbolNear(lines, Coordinate(row, m.index), |m.digits|, Gear, gear) then [Value(m)] else [])
  }

  /** The numbers of the first lines, with the matches `mss`, that have `gear` in their rectangle, in order. */
  function NumbersNear(lines: seq<string>, mss: seq<seq<NumberMatch>>, gear: Coordinate): seq<int> {
    if mss == [] then [] else NumbersNear(lines, mss[..|mss| - 1], gear) + RowNumbersNear(lines, |mss| - 1, mss[|mss| - 1], gear)
  }

  lemma {:induction false} RowIncidencesAt(lines: seq<string>, row: nat, ms: seq<NumberMatch>, gear: Coordinate)
    ensures ValuesAt(RowIncidences(lines, row, ms), gear) == RowNumbersNear(lines, row, ms, gear)
  {
    if ms != [] {
      var m := ms[|ms| - 1];
      var c := Coordinate(row, m.index);
      var front := ms[..|ms| - 1];
      var ns := Neighbors(lines, c, |m.digits|, Gear);
      RowIncidencesAt(lines, row, front, gear);
      ValuesAtAppend(RowIncidences(lines, row, front), Pairs(ns, Value(m)), gear);
      NeighborsExactly(lines, c, |m.digits|, Gear);
      assert forall i, j :: 0 <= i < j < |ns| ==> ns[i] != ns[j] by {
        forall i, j | 0 <= i < j < |ns| ensures ns[i] != ns[j] {
          assert Before(ns[i], ns[j]);
        }
      }
      PairsValuesAt(ns, Value(m), gear);
    }
  }

  /**
   * The numbers the grouping holds for a gear are exactly the numbers that
   * have that gear in their rectangle, each once, in the order they are read.
   */
  lemma {:induction false} IncidencesAt(lines: seq<string>, mss: seq<seq<NumberMatch>>, gear: Coordinate)
    ensures ValuesAt(Incidences(lines, mss), gear) == NumbersNear(lines, mss, gear)
  {
    if mss != [] {
      var r := |mss| - 1;
      IncidencesAt(lines, mss[..r], gear);
      RowIncidencesAt(lines, r, mss[r], gear);
      ValuesAtJoin(Incidences(lines, mss), Incidences(lines, mss[..r]), RowIncidences(lines, r, mss[r]), gear,
                   NumbersNear(lines, mss, gear), NumbersNear(lines, mss[..r], gear), RowNumbersNear(lines, r, mss[r], gear));
    }
  }

  /** One more line adds the incidences of its matches. */
  lemma {:induction false} IncidencesNext(lines: seq<string>, mss: seq<seq<NumberMatch>>, row: nat)
    requires row < |mss|
    ensures Incidences(lines, mss[..row + 1]) == Incidences(lines, mss[..row]) + RowIncidences(lines, row, mss[row])
  {
    assert mss[..row + 1][..row] == mss[..row];
  }

  /** The table `part2` builds from a schematic. */
  function Gears(lines: seq<string>): GearTable {
    AddAll(NoGears, Incidences(lines, LineMatches(lines)))
  }

  /**
   * Each gear cell of the table is a `*` next to some number, and the table
   * holds for it exactly the numbers next to it, in reading order.
   */
  lemma {:induction false} GearsHoldAdjacentNumbers(lines: seq<string>, gear: Coordinate)
    ensures gear in Gears(lines).numbers ==> Gears(lines).numbers[gear] == NumbersNear(lines, LineMatches(lines), gear)
    ensures gear in Gears(lines).numbers <==> NumbersNear(lines, LineMatches(lines), gear) != []
  {
    var xs := Incidences(lines, LineMatches(lines));
    AddAllValues(xs, gear);
    IncidencesAt(lines, LineMatches(lines), gear);
    ValuesAtNonEmpty(xs, gear);
  }

  /** A gear has values among incidences exactly when one of them is about it. */
  lemma {:induction false} ValuesAtNonEmpty(xs: seq<Incidence>, gear: Coordinate)
    ensures ValuesAt(xs, gear) != [] <==> exists i :: 0 <= i < |xs| && xs[i].0 == gear
  {
    if xs != [] {
      var front := xs[..|xs| - 1];
      ValuesAtNonEmpty(front, gear);
      if exists i :: 0 <= i < |front| && front[i].0 == gear {
        var i :| 0 <= i < |front| && front[i].0 == gear;
        assert xs[i] == front[i];
      }
      if exists i :: 0 <= i < |xs| && xs[i].0 == gear {
        var i :| 0 <= i < |xs| && xs[i].0 == gear;
        if i < |front| {
          assert front[i] == xs[i];
        }
      }
    }
  }

  /** The answer of part 2 on a schematic: the ratios of the gears, in insertion order. */
  function GearRatioSum(lines: seq<string>): int {
    var t := Gears(lines);
    AddAllListed(NoGears, Incidences(lines, LineMatches(lines)));
    RatioSum(t, t.order)
  }

  /** Pushes one number onto every gear found next to it. */
  method AddToGears(t: GearTable, gears: seq<Coordinate>, value: int) returns (u: GearTable)
    ensures u == AddAll(t, Pairs(gears, value))
  {
    u := t;
    for j := 0 to |gears|
      invariant u == AddAll(t, Pairs(gears[..j], value))
    {
      assert Pairs(gears[..j + 1], value) == Pairs(gears[..j], value) + [(gears[j], value)];
      u := AddNumber(u, gears[j], value);
    }
    assert gears[..|gears|] == gears;
  }

  /** The loop over the numbers of one line in `part2`. */
  method AddRowToGears(lines: seq<string>, row: nat, t: GearTable) returns (u: GearTable)
    requires row < |lines|
    ensures u == AddAll(t, RowIncidences(lines, row, NumberMatches(lines[row])))
  {
    var ms := NumberMatches(lines[row]);
    u := t;
    for k := 0 to |ms|
      invariant u == AddAll(t, RowIncidences(lines, row, ms[..k]))
    {
      var m := ms[k];
      var near := GetNumberSymbolNeighbors(lines, Coordinate(row, m.index), |m.digits|, Gear);
      assert ms[..k + 1][..k] == ms[..k];
      AddAllAppend(t, RowIncidences(lines, row, ms[..k]), Pairs(near, Value(m)));
      u := AddToGears(u, near, Value(m));
    }
    assert ms[..|ms|] == ms;
  }

  /** `part2`: group the numbers by the gears next to them, then sum the ratios of the gears with exactly two. */
  method Part2(input: string) returns (total: int)
    ensures total == GearRatioSum(Parse(input))
  {
    var lines := Parse(input);
    ghost var mss := LineMatches(lines);
    var t := NoGears;
    for row := 0 to |lines|
      invariant t == AddAll(NoGears, Incidences(lines, mss[..row]))
    {
      IncidencesNext(lines, mss, row);
      AddAllAppend(NoGears, Incidences(lines, mss[..row]), RowIncidences(lines, row, mss[row]));
      t := AddRowToGears(lines, row, t);
    }
    assert mss[..|lines|] == mss;
    AddAllListed(NoGears, Incidences(lines, mss));
    total := SumRatios(t);
  }

  /** The `filter`, `map` and `reduce` over `gearCoordsToNumbers.values()`. */
  method SumRatios(t: GearTable) returns (total: int)
    requires forall i :: 0 <= i < |t.order| ==> t.order[i] in t.numbers
    ensures total == RatioSum(t, t.order)
  {
    total := 0;
    for k := 0 to |t.order|
      invariant total == RatioSum(t, t.order[..k])
    {
      assert t.order[..k + 1][..k] == t.order[..k];
      total := total + Ratio(t.numbers[t.order[k]]);
    }
    assert t.order[..|t.order|] == t.order;
  }
}
