/**
 * day_11.ts: cosmic expansion. An image is a list of rows of `.` (empty
 * space) and `#` (galaxies); every column and every row with no galaxy is
 * doubled, and the answer is the sum of the Manhattan distances between all
 * pairs of galaxies of the expanded image.
 */
module Day11 {
  import opened Text
  import opened Coordinates

  /** `input.trimEnd().split("\n")`. */
  function Parse(input: string): (lines: seq<string>)
    ensures |lines| >= 1
  {
    Split(TrimEnd(input), "\n")
  }

  // Empty columns

  /** `world.every((row) => row[i] === ".")`: a row too short for column `i` reads `undefined` there, which is not `.`. */
  predicate EmptyColumn(world: seq<string>, i: nat) {
    forall r :: 0 <= r < |world| ==> i < |world[r]| && world[r][i] == '.'
  }

  /** The empty columns among the first `n`, as the loop of `expandEmptyColumns` pushes them. */
  function EmptyColumnsBelow(world: seq<string>, n: nat): seq<nat> {
    if n == 0 then [] else EmptyColumnsBelow(world, n - 1) + (if EmptyColumn(world, n - 1) then [n - 1] else [])
  }

  predicate Increasing(cols: seq<nat>) {
    forall a, b :: 0 <= a < b < |cols| ==> cols[a] < cols[b]
  }

  /** `columnsToExpand` lists every empty column below `n` once, in increasing order, and nothing else. */
  lemma {:induction false} EmptyColumnsBelowExactly(world: seq<string>, n: nat)
    ensures Increasing(EmptyColumnsBelow(world, n))
    ensures forall i: nat :: i in EmptyColumnsBelow(world, n) <==> i < n && EmptyColumn(world, i)
  {
    if n > 0 {
      var front := EmptyColumnsBelow(world, n - 1);
      EmptyColumnsBelowExactly(world, n - 1);
      assert forall a :: 0 <= a < |front| ==> front[a] in front;
    }
  }

  /** The loop of `expandEmptyColumns` that collects `columnsToExpand`. */
  method FindEmptyColumns(world: seq<string>) returns (columnsToExpand: seq<nat>)
    requires |world| > 0
    ensures columnsToExpand == EmptyColumnsBelow(world, |world[0]|)
  {
    columnsToExpand := [];
    for i := 0 to |world[0]|
      invariant columnsToExpand == EmptyColumnsBelow(world, i)
    {
      if EmptyColumn(world, i) {
        columnsToExpand := columnsToExpand + [i];
      }
    }
  }

  // Widening a row, as the source slices it

  /** `s.slice(a, b)` for bounds that are not negative: clamped to the string, and empty when `b <= a`. */
  function Slice(s: string, a: nat, b: nat): (r: string)
    ensures a <= b <= |s| ==> r == s[a..b]
  {
    var lo := if a < |s| then a else |s|;
    var hi := if b < |s| then b else |s|;
    if hi <= lo then "" else s[lo..hi]
  }

  /** Where the `k`-th slice starts: at 0, then just after the previous expanded column. */
  function PieceStart(cols: seq<nat>, k: nat): nat
    requires k <= |cols|
  {
    if k == 0 then 0 else cols[k - 1] + 1
  }

  /** The `flatMap` joined from the `k`-th expanded column on, after `acc`: each piece is the row up to and including that column, then an extra `.`. */
  function PiecesFrom(row: string, cols: seq<nat>, k: nat, acc: string): string
    requires k <= |cols|
    decreases |cols| - k
  {
    if k == |cols| then acc else PiecesFrom(row, cols, k + 1, acc + Slice(row, PieceStart(cols, k), cols[k] + 1) + ".")
  }

  /** One row of the `world.map(...)` in `expandEmptyColumns`: the pieces, then the rest of the row after the last expanded column. */
  function ExpandRow(row: string, cols: seq<nat>): string
    requires |cols| > 0
  {
    PiecesFrom(row, cols, 0, "") + Slice(row, cols[|cols| - 1] + 1, |row|)
  }

  /** Column `i` is one of the columns to expand. */
  predicate IsExpanded(cols: seq<nat>, i: int) {
    i in cols
  }

  /** The reference widening: the first `n` characters of a row, each column of `cols` followed by a second `.`. */
  function Widened(row: string, cols: seq<nat>, n: nat): string
    requires n <= |row|
  {
    if n == 0 then "" else Widened(row, cols, n - 1) + [row[n - 1]] + (if IsExpanded(cols, n - 1) then "." else "")
  }

  /** Columns that are none of `cols` are copied as they are. */
  lemma {:induction false} WidenedPlain(row: string, cols: seq<nat>, a: nat, b: nat)
    requires a <= b <= |row|
    requires forall i :: a <= i < b ==> i !in cols
    ensures Widened(row, cols, b) == Widened(row, cols, a) + row[a..b]
    decreases b - a
  {
    if b > a {
      WidenedPlain(row, cols, a, b - 1);
      assert row[a..b] == row[a..b - 1] + [row[b - 1]];
    }
  }

  /** Of increasing columns, those from where the `k`-th piece starts on are the `k`-th and after. */
  lemma {:induction false} ColumnsFrom(cols: seq<nat>, k: nat)
    requires Increasing(cols) && k <= |cols|
    ensures forall i :: i in cols && PieceStart(cols, k) <= i ==> k < |cols| && cols[k] <= i
  {
    assert forall m :: 0 <= m < k - 1 ==> cols[m] < cols[k - 1];
    forall i | i in cols && PieceStart(cols, k) <= i ensures k < |cols| && cols[k] <= i {
      var m :| 0 <= m < |cols| && cols[m] == i;
      if m > k {
        assert cols[k] < cols[m];
      }
    }
  }

  /** Between where the `k`-th piece starts and the `k`-th column there is no other column. */
  lemma {:induction false} GapBefore(cols: seq<nat>, k: nat)
    requires Increasing(cols) && k < |cols|
    ensures PieceStart(cols, k) <= cols[k]
    ensures forall i :: PieceStart(cols, k) <= i < cols[k] ==> i !in cols
  {
    ColumnsFrom(cols, k);
    if k > 0 {
      assert cols[k - 1] < cols[k];
    }
  }

  /** The slice up to and including column `c`. */
  lemma {:induction false} SliceStep(row: string, s: nat, c: nat)
    requires s <= c < |row|
    ensures Slice(row, s, c + 1) == row[s..c] + [row[c]]
  {
    assert row[s..c + 1] == row[s..c] + [row[c]];
  }

  /** A widened column is followed by its extra `.`. */
  lemma {:induction false} WidenedStep(row: string, cols: seq<nat>, c: nat)
    requires c < |row| && c in cols
    ensures Widened(row, cols, c + 1) == Widened(row, cols, c) + [row[c]] + "."
  {
  }

  /** How one more piece extends both the sliced row and the widened row. */
  lemma {:induction false} Assemble(widenedBefore: string, plain: string, column: string, piece: string,
                                    widenedPlain: string, widened: string)
    requires piece == plain + column
    requires widenedPlain == widenedBefore + plain && widened == widenedPlain + column + "."
    ensures widened == widenedBefore + piece + "."
  {
  }

  /** The `k`-th column lies within the row and no other column lies between it and where the `k`-th piece starts. */
  predicate PieceFits(row: string, cols: seq<nat>, k: nat)
    requires k < |cols|
  {
    PieceStart(cols, k) <= cols[k] < |row| && forall i :: PieceStart(cols, k) <= i < cols[k] ==> i !in cols
  }

  /** The `k`-th piece widens the row from where it starts up to and including the `k`-th column. */
  lemma {:induction false} PieceWidened(row: string, cols: seq<nat>, k: nat)
    requires k < |cols| && PieceFits(row, cols, k)
    ensures Widened(row, cols, cols[k] + 1) == Widened(row, cols, PieceStart(cols, k)) + Slice(row, PieceStart(cols, k), cols[k] + 1) + "."
  {
    var s := PieceStart(cols, k);
    var c := cols[k];
    assert c in cols;
    WidenedPlain(row, cols, s, c);
    SliceStep(row, s, c);
    WidenedStep(row, cols, c);
    Assemble(Widened(row, cols, s), row[s..c], [row[c]], Slice(row, s, c + 1), Widened(row, cols, c), Widened(row, cols, c + 1));
  }

  /** Joining the pieces from the `k`-th on after the row widened up to where that piece starts widens the row up to the last piece. */
  lemma {:induction false} PiecesWidened(row: string, cols: seq<nat>, k: nat)
    requires k <= |cols| && PieceStart(cols, k) <= |row|
    requires forall j :: k <= j < |cols| ==> PieceFits(row, cols, j)
    ensures PieceStart(cols, |cols|) <= |row|
    ensures PiecesFrom(row, cols, k, Widened(row, cols, PieceStart(cols, k))) == Widened(row, cols, PieceStart(cols, |cols|))
    decreases |cols| - k
  {
    if k < |cols| {
      assert PieceFits(row, cols, k);
      PieceWidened(row, cols, k);
      PiecesWidened(row, cols, k + 1);
      PiecesStep(row, cols, k, Widened(row, cols, PieceStart(cols, k)), Widened(row, cols, PieceStart(cols, k + 1)));
    }
  }

  /** Increasing columns within the row each fit. */
  lemma {:induction false} PiecesFit(row: string, cols: seq<nat>)
    requires Increasing(cols) && (forall i :: 0 <= i < |cols| ==> cols[i] < |row|)
    ensures forall k :: 0 <= k < |cols| ==> PieceFits(row, cols, k)
  {
    forall k | 0 <= k < |cols| ensures PieceFits(row, cols, k) {
      GapBefore(cols, k);
    }
  }

  /** The `k`-th piece joined after `acc`. */
  lemma {:induction false} PiecesStep(row: string, cols: seq<nat>, k: nat, acc: string, next: string)
    requires k < |cols|
    requires next == acc + Slice(row, PieceStart(cols, k), cols[k] + 1) + "."
    ensures PiecesFrom(row, cols, k, acc) == PiecesFrom(row, cols, k + 1, next)
  {
  }

  /**
   * The slicing of `expandEmptyColumns` is the reference widening, provided
   * the columns are increasing and within the row, as the empty columns of
   * any image are for each of its rows.
   */
  lemma {:induction false} ExpandRowWidened(row: string, cols: seq<nat>)
    requires |cols| > 0 && Increasing(cols) && (forall i :: 0 <= i < |cols| ==> cols[i] < |row|)
    ensures ExpandRow(row, cols) == Widened(row, cols, |row|)
  {
    PiecesFit(row, cols);
    PiecesWidened(row, cols, 0);
    assert Widened(row, cols, 0) == "";
    ColumnsFrom(cols, |cols|);
    WidenedPlain(row, cols, PieceStart(cols, |cols|), |row|);
  }

  /** The pieces from the `k`-th on add the row from where that piece starts to the last expanded column, and one `.` per piece. */
  lemma {:induction false} PiecesFromLength(row: string, cols: seq<nat>, k: nat, acc: string)
    requires Increasing(cols) && (forall i :: 0 <= i < |cols| ==> cols[i] < |row|)
    requires k <= |cols|
    ensures PieceStart(cols, k) <= PieceStart(cols, |cols|) <= |row|
    ensures |PiecesFrom(row, cols, k, acc)| == |acc| + (PieceStart(cols, |cols|) - PieceStart(cols, k)) + (|cols| - k)
    decreases |cols| - k
  {
    if k < |cols| {
      GapBefore(cols, k);
      var next := acc + Slice(row, PieceStart(cols, k), cols[k] + 1) + ".";
      PiecesStep(row, cols, k, acc, next);
      PiecesFromLength(row, cols, k + 1, next);
    }
  }

  /** A row sliced around the expanded columns is longer by one `.` per expanded column. */
  lemma {:induction false} ExpandRowLength(row: string, cols: seq<nat>)
    requires |cols| > 0 && Increasing(cols) && (forall i :: 0 <= i < |cols| ==> cols[i] < |row|)
    ensures |ExpandRow(row, cols)| == |row| + |cols|
  {
    PiecesFromLength(row, cols, 0, "");
  }

  /** Without columns to widen a row stays as it is. */
  lemma {:induction false} WidenedNone(row: string, n: nat)
    requires n <= |row|
    ensures Widened(row, [], n) == row[..n]
  {
    WidenedPlain(row, [], 0, n);
  }

  /** One cell of a widened row, and its extra `.` if any, add that cell's galaxy and no other. */
  lemma {:induction false} WidenedCellCount(front: string, c: char, extra: string)
    requires extra == "" || extra == "."
    ensures GalaxyCount(front + [c] + extra) == GalaxyCount(front) + GalaxyCount([c])
  {
    GalaxyCountAppend(front + [c], extra);
    GalaxyCountAppend(front, [c]);
    assert GalaxyCount(extra) == 0 by {
      if extra == "." {
        assert extra[..0] == [];
      }
    }
  }

  /** A widened row has one more character for each widened column, and the same galaxies. */
  lemma {:induction false} WidenedCounts(row: string, cols: seq<nat>, n: nat)
    requires n <= |row|
    ensures |Widened(row, cols, n)| == n + CountBelow(cols, n)
    ensures GalaxyCount(Widened(row, cols, n)) == GalaxyCount(row[..n])
  {
    if n > 0 {
      WidenedCounts(row, cols, n - 1);
      var extra: string := if IsExpanded(cols, n - 1) then "." else "";
      WidenedCellCount(Widened(row, cols, n - 1), row[n - 1], extra);
      assert row[..n] == row[..n - 1] + [row[n - 1]];
      GalaxyCountAppend(row[..n - 1], [row[n - 1]]);
    }
  }

  /** How many of the columns below `n` are in `cols`. */
  function CountBelow(cols: seq<nat>, n: nat): nat {
    if n == 0 then 0 else CountBelow(cols, n - 1) + (if n - 1 in cols then 1 else 0)
  }

  /** `expandEmptyColumns` as specified: every row widened at the empty columns of the image. */
  function ExpandedColumns(world: seq<string>): seq<string> {
    if |world| == 0 then world
    else
      var cols := EmptyColumnsBelow(world, |world[0]|);
      seq(|world|, r requires 0 <= r < |world| => Widened(world[r], cols, |world[r]|))
  }

  /** `expandEmptyColumns`: collect the empty columns, then slice every row around them. */
  method ExpandEmptyColumns(world: seq<string>) returns (expanded: seq<string>)
    ensures expanded == ExpandedColumns(world)
  {
    if |world| == 0 {
      return world;
    }
    var columnsToExpand := FindEmptyColumns(world);
    if |columnsToExpand| == 0 {
      forall r | 0 <= r < |world| ensures Widened(world[r], columnsToExpand, |world[r]|) == world[r] {
        WidenedNone(world[r], |world[r]|);
      }
      return world;
    }
    expanded := seq(|world|, r requires 0 <= r < |world| => ExpandRow(world[r], columnsToExpand));
    ExpandRowsWidened(world, columnsToExpand);
  }

  /** Every row of an image sliced around its empty columns is the row widened at them. */
  lemma {:induction false} ExpandRowsWidened(world: seq<string>, cols: seq<nat>)
    requires |world| > 0 && cols == EmptyColumnsBelow(world, |world[0]|) && |cols| > 0
    ensures forall r :: 0 <= r < |world| ==> ExpandRow(world[r], cols) == Widened(world[r], cols, |world[r]|)
  {
    EmptyColumnsBelowExactly(world, |world[0]|);
    forall r | 0 <= r < |world| ensures ExpandRow(world[r], cols) == Widened(world[r], cols, |world[r]|) {
      forall i | 0 <= i < |cols| ensures cols[i] < |world[r]| {
        assert cols[i] in cols;
      }
      ExpandRowWidened(world[r], cols);
    }
  }

  /**
   * `expandEmptyColumns` keeps the number of rows, lengthens every row by the
   * number of empty columns, keeps the galaxies of every row, and returns an
   * image that is empty or has no empty column as it is.
   */
  lemma {:induction false} ExpandedColumnsShape(world: seq<string>)
    ensures |ExpandedColumns(world)| == |world|
    ensures |world| > 0 ==> forall r :: 0 <= r < |world| ==>
      |ExpandedColumns(world)[r]| == |world[r]| + |EmptyColumnsBelow(world, |world[0]|)|
    ensures forall r :: 0 <= r < |world| ==> GalaxyCount(ExpandedColumns(world)[r]) == GalaxyCount(world[r])
    ensures (|world| == 0 || EmptyColumnsBelow(world, |world[0]|) == []) ==> ExpandedColumns(world) == world
  {
    if |world| > 0 {
      var cols := EmptyColumnsBelow(world, |world[0]|);
      EmptyColumnsBelowExactly(world, |world[0]|);
      forall r | 0 <= r < |world|
        ensures |ExpandedColumns(world)[r]| == |world[r]| + |cols|
        ensures GalaxyCount(ExpandedColumns(world)[r]) == GalaxyCount(world[r])
        ensures cols == [] ==> ExpandedColumns(world)[r] == world[r]
      {
        var row := world[r];
        assert ExpandedColumns(world)[r] == Widened(row, cols, |row|);
        WidenedCounts(row, cols, |row|);
        assert row[..|row|] == row;
        if cols == [] {
          WidenedNone(row, |row|);
        } else {
          forall i | 0 <= i < |cols| ensures cols[i] < |row| {
            assert cols[i] in cols;
          }
          ExpandRowWidened(row, cols);
          ExpandRowLength(row, cols);
        }
      }
    }
  }

  // Empty rows

  /** `/^\.*$/.test(row)`: the row is all `.`, the empty row included. */
  predicate AllDots(row: string) {
    forall i :: 0 <= i < |row| ==> row[i] == '.'
  }

  /** `expandEmptyRows`: every row that is all `.` is doubled. */
  function ExpandEmptyRows(world: seq<string>): seq<string> {
    if world == [] then []
    else
      var row := world[|world| - 1];
      ExpandEmptyRows(world[..|world| - 1]) + (if AllDots(row) then [row, row] else [row])
  }

  /** How many of the first `n` rows are all `.`. */
  function EmptyRowsBelow(world: seq<string>, n: nat): nat
    requires n <= |world|
  {
    if n == 0 then 0 else EmptyRowsBelow(world, n - 1) + (if AllDots(world[n - 1]) then 1 else 0)
  }

  // Galaxies

  /** The number of `#` in a string. */
  function GalaxyCount(s: string): nat {
    if s == [] then 0 else GalaxyCount(s[..|s| - 1]) + (if s[|s| - 1] == '#' then 1 else 0)
  }

  lemma {:induction false} GalaxyCountAppend(s: string, t: string)
    ensures GalaxyCount(s + t) == GalaxyCount(s) + GalaxyCount(t)
    decreases |t|
  {
    if t == [] {
      assert s + t == s;
    } else {
      assert (s + t)[..|s + t| - 1] == s + t[..|t| - 1];
      GalaxyCountAppend(s, t[..|t| - 1]);
    }
  }

  /** The galaxies among the first `n` cells of the row at height `y`, left to right. */
  function RowGalaxies(row: string, y: int, n: nat): seq<Coordinate>
    requires n <= |row|
  {
    if n == 0 then [] else RowGalaxies(row, y, n - 1) + (if row[n - 1] == '#' then [Coordinate(n - 1, y)] else [])
  }

  /** The galaxies of the first `n` rows. */
  function GalaxiesBelow(world: seq<string>, n: nat): seq<Coordinate>
    requires n <= |world|
  {
    if n == 0 then [] else GalaxiesBelow(world, n - 1) + RowGalaxies(world[n - 1], n - 1, |world[n - 1]|)
  }

  /** `worldToGalaxyCoordinates`: the cells holding `#`, as `(x, y)` with `x` the column and `y` the row. */
  function WorldToGalaxyCoordinates(world: seq<string>): seq<Coordinate> {
    GalaxiesBelow(world, |world|)
  }

  /** A cell of the image holds a galaxy. */
  predicate IsGalaxy(world: seq<string>, c: Coordinate) {
    0 <= c.y < |world| && 0 <= c.x < |world[c.y]| && world[c.y][c.x] == '#'
  }

  /** Reading order: by row, then by column. */
  predicate ReadsBefore(a: Coordinate, b: Coordinate) {
    a.y < b.y || (a.y == b.y && a.x < b.x)
  }

  lemma {:induction false} RowGalaxiesExactly(row: string, y: int, n: nat)
    requires n <= |row|
    ensures forall c :: c in RowGalaxies(row, y, n) <==> c.y == y && 0 <= c.x < n && row[c.x] == '#'
    ensures forall a, b :: 0 <= a < b < |RowGalaxies(row, y, n)| ==> RowGalaxies(row, y, n)[a].x < RowGalaxies(row, y, n)[b].x
    ensures |RowGalaxies(row, y, n)| == GalaxyCount(row[..n])
  {
    if n > 0 {
      RowGalaxiesExactly(row, y, n - 1);
      assert row[..n][..n - 1] == row[..n - 1];
    }
  }

  /** The galaxies of the first `n` rows are exactly their `#` cells. */
  lemma {:induction false} GalaxiesBelowMembers(world: seq<string>, n: nat)
    requires n <= |world|
    ensures forall c :: c in GalaxiesBelow(world, n) <==> c.y < n && IsGalaxy(world, c)
  {
    if n > 0 {
      var front := GalaxiesBelow(world, n - 1);
      var last := RowGalaxies(world[n - 1], n - 1, |world[n - 1]|);
      GalaxiesBelowMembers(world, n - 1);
      RowGalaxiesExactly(world[n - 1], n - 1, |world[n - 1]|);
      assert forall c :: c in front + last <==> c in front || c in last;
    }
  }

  /** Galaxies of the rows above `y` in reading order, followed by those of row `y` from left to right, are in reading order. */
  lemma {:induction false} ReadsBeforeJoin(front: seq<Coordinate>, last: seq<Coordinate>, y: int)
    requires forall a, b :: 0 <= a < b < |front| ==> ReadsBefore(front[a], front[b])
    requires forall c :: c in front ==> c.y < y
    requires forall a, b :: 0 <= a < b < |last| ==> last[a].x < last[b].x
    requires forall c :: c in last ==> c.y == y
    ensures forall a, b :: 0 <= a < b < |front + last| ==> ReadsBefore((front + last)[a], (front + last)[b])
  {
    forall a, b | 0 <= a < b < |front + last| ensures ReadsBefore((front + last)[a], (front + last)[b]) {
      if b < |front| {
        assert ReadsBefore(front[a], front[b]);
      } else if a >= |front| {
        assert last[a - |front|].x < last[b - |front|].x;
      } else {
        assert front[a] in front && last[b - |front|] in last;
      }
    }
  }

  /** The galaxies of the first `n` rows come in reading order, so each appears once. */
  lemma {:induction false} GalaxiesBelowOrdered(world: seq<string>, n: nat)
    requires n <= |world|
    ensures forall a, b :: 0 <= a < b < |GalaxiesBelow(world, n)| ==> ReadsBefore(GalaxiesBelow(world, n)[a], GalaxiesBelow(world, n)[b])
  {
    if n > 0 {
      var row := world[n - 1];
      GalaxiesBelowOrdered(world, n - 1);
      GalaxiesBelowMembers(world, n - 1);
      RowGalaxiesExactly(row, n - 1, |row|);
      ReadsBeforeJoin(GalaxiesBelow(world, n - 1), RowGalaxies(row, n - 1, |row|), n - 1);
    }
  }

  /** `worldToGalaxyCoordinates` lists every `#` of the image once, in reading order, and nothing else. */
  lemma {:induction false} GalaxyCoordinatesExactly(world: seq<string>)
    ensures forall c :: c in WorldToGalaxyCoordinates(world) <==> IsGalaxy(world, c)
    ensures forall a, b :: 0 <= a < b < |WorldToGalaxyCoordinates(world)| ==>
      ReadsBefore(WorldToGalaxyCoordinates(world)[a], WorldToGalaxyCoordinates(world)[b])
  {
    GalaxiesBelowMembers(world, |world|);
    GalaxiesBelowOrdered(world, |world|);
  }

  /** The number of `#` in the first `n` rows. */
  function GalaxiesIn(world: seq<string>, n: nat): nat
    requires n <= |world|
  {
    if n == 0 then 0 else GalaxiesIn(world, n - 1) + GalaxyCount(world[n - 1])
  }

  lemma {:induction false} GalaxiesBelowCount(world: seq<string>, n: nat)
    requires n <= |world|
    ensures |GalaxiesBelow(world, n)| == GalaxiesIn(world, n)
  {
    if n > 0 {
      GalaxiesBelowCount(world, n - 1);
      RowGalaxiesExactly(world[n - 1], n - 1, |world[n - 1]|);
      assert world[n - 1][..|world[n - 1]|] == world[n - 1];
    }
  }

  /** A row of `.` holds no galaxy. */
  lemma {:induction false} AllDotsNoGalaxy(row: string)
    requires AllDots(row)
    ensures GalaxyCount(row) == 0
    decreases |row|
  {
    if row != [] {
      AllDotsNoGalaxy(row[..|row| - 1]);
    }
  }

  /** Doubling the empty rows adds one row per empty row and no galaxy. */
  lemma {:induction false} ExpandEmptyRowsCounts(world: seq<string>)
    ensures |ExpandEmptyRows(world)| == |world| + EmptyRowsBelow(world, |world|)
    ensures GalaxiesIn(ExpandEmptyRows(world), |ExpandEmptyRows(world)|) == GalaxiesIn(world, |world|)
  {
    if world != [] {
      var front := world[..|world| - 1];
      var row := world[|world| - 1];
      ExpandEmptyRowsCounts(front);
      EmptyRowsAgree(front, world, |world| - 1);
      GalaxiesInAgree(front, world, |world| - 1);
      var e := ExpandEmptyRows(front);
      var added: seq<string> := if AllDots(row) then [row, row] else [row];
      GalaxiesInAppend(e, added);
      if AllDots(row) {
        AllDotsNoGalaxy(row);
        assert GalaxiesIn(added, 2) == GalaxiesIn(added, 1) + GalaxyCount(row);
      } else {
        assert GalaxiesIn(added, 1) == GalaxiesIn(added, 0) + GalaxyCount(row);
      }
    }
  }

  /** The count of empty rows below `n` depends only on the first `n` rows. */
  lemma {:induction false} EmptyRowsAgree(v: seq<string>, w: seq<string>, n: nat)
    requires n <= |v| && n <= |w| && v[..n] == w[..n]
    ensures EmptyRowsBelow(v, n) == EmptyRowsBelow(w, n)
  {
    if n > 0 {
      assert v[n - 1] == v[..n][n - 1];
      assert v[..n - 1] == v[..n][..n - 1] && w[..n - 1] == w[..n][..n - 1];
      EmptyRowsAgree(v, w, n - 1);
    }
  }

  /** The count of galaxies below `n` depends only on the first `n` rows. */
  lemma {:induction false} GalaxiesInAgree(v: seq<string>, w: seq<string>, n: nat)
    requires n <= |v| && n <= |w| && v[..n] == w[..n]
    ensures GalaxiesIn(v, n) == GalaxiesIn(w, n)
  {
    if n > 0 {
      assert v[n - 1] == v[..n][n - 1];
      assert v[..n - 1] == v[..n][..n - 1] && w[..n - 1] == w[..n][..n - 1];
      GalaxiesInAgree(v, w, n - 1);
    }
  }

  lemma {:induction false} GalaxiesInAppend(v: seq<string>, w: seq<string>)
    ensures GalaxiesIn(v + w, |v + w|) == GalaxiesIn(v, |v|) + GalaxiesIn(w, |w|)
    decreases |w|
  {
    if w == [] {
      assert v + w == v;
    } else {
      var w' := w[..|w| - 1];
      GalaxiesInAppend(v, w');
      assert (v + w)[..|v + w| - 1] == v + w';
      GalaxiesInAgree(v + w', v + w, |v + w| - 1);
      GalaxiesInAgree(w', w, |w| - 1);
    }
  }

  /** Images whose rows hold the same numbers of galaxies hold the same number of galaxies. */
  lemma {:induction false} GalaxiesInRowwise(v: seq<string>, w: seq<string>, n: nat)
    requires n <= |v| && n <= |w|
    requires forall r :: 0 <= r < n ==> GalaxyCount(v[r]) == GalaxyCount(w[r])
    ensures GalaxiesIn(v, n) == GalaxiesIn(w, n)
  {
    if n > 0 {
      GalaxiesInRowwise(v, w, n - 1);
    }
  }

  /** Expanding the image, columns then rows, neither adds nor removes a galaxy. */
  lemma {:induction false} ExpansionKeepsGalaxies(world: seq<string>)
    ensures |WorldToGalaxyCoordinates(ExpandEmptyRows(ExpandedColumns(world)))| == |WorldToGalaxyCoordinates(world)|
  {
    var wide := ExpandedColumns(world);
    var tall := ExpandEmptyRows(wide);
    ExpandedColumnsShape(world);
    GalaxiesInRowwise(wide, world, |world|);
    ExpandEmptyRowsCounts(wide);
    GalaxiesBelowCount(tall, |tall|);
    GalaxiesBelowCount(world, |world|);
  }

  // Where the galaxies go

  /** The columns `expandEmptyColumns` widens: none for an empty image. */
  function ColumnsToExpand(world: seq<string>): seq<nat> {
    if |world| == 0 then [] else EmptyColumnsBelow(world, |world[0]|)
  }

  /** How many of `cols` lie left of column `x`. */
  function ColumnsLeft(cols: seq<nat>, x: int): nat {
    if x <= 0 then 0 else CountBelow(cols, x)
  }

  /** How many of the rows of `world` above row `y` are all `.`. */
  function RowsAbove(world: seq<string>, y: int): nat {
    if y <= 0 then 0 else if y <= |world| then EmptyRowsBelow(world, y) else EmptyRowsBelow(world, |world|)
  }

  /** Each galaxy moved right by one column per column of `cols` left of it. */
  function MoveRight(gs: seq<Coordinate>, cols: seq<nat>): seq<Coordinate> {
    seq(|gs|, i requires 0 <= i < |gs| => Coordinate(gs[i].x + ColumnsLeft(cols, gs[i].x), gs[i].y))
  }

  /** Each galaxy moved down by one row per empty row of `world` above it. */
  function MoveDown(gs: seq<Coordinate>, world: seq<string>): seq<Coordinate> {
    seq(|gs|, i requires 0 <= i < |gs| => Coordinate(gs[i].x, gs[i].y + RowsAbove(world, gs[i].y)))
  }

  lemma {:induction false} MoveRightAppend(a: seq<Coordinate>, b: seq<Coordinate>, cols: seq<nat>)
    ensures MoveRight(a + b, cols) == MoveRight(a, cols) + MoveRight(b, cols)
  {
    var whole := MoveRight(a + b, cols);
    var parts := MoveRight(a, cols) + MoveRight(b, cols);
    forall i | 0 <= i < |whole| ensures whole[i] == parts[i] {
      if i < |a| {
        assert (a + b)[i] == a[i];
      } else {
        assert (a + b)[i] == b[i - |a|];
      }
    }
  }

  lemma {:induction false} MoveDownAppend(a: seq<Coordinate>, b: seq<Coordinate>, world: seq<string>)
    ensures MoveDown(a + b, world) == MoveDown(a, world) + MoveDown(b, world)
  {
    var whole := MoveDown(a + b, world);
    var parts := MoveDown(a, world) + MoveDown(b, world);
    forall i | 0 <= i < |whole| ensures whole[i] == parts[i] {
      if i < |a| {
        assert (a + b)[i] == a[i];
      } else {
        assert (a + b)[i] == b[i - |a|];
      }
    }
  }

  /** The galaxies among the first `k` cells of a row depend only on those cells. */
  lemma {:induction false} RowGalaxiesAgree(s: string, t: string, y: int, k: nat)
    requires k <= |s| && k <= |t| && s[..k] == t[..k]
    ensures RowGalaxies(s, y, k) == RowGalaxies(t, y, k)
  {
    if k > 0 {
      assert s[k - 1] == s[..k][k - 1];
      assert s[..k - 1] == s[..k][..k - 1] && t[..k - 1] == t[..k][..k - 1];
      RowGalaxiesAgree(s, t, y, k - 1);
    }
  }

  /** One more cell of a widened row, placed just after the cells already there. */
  lemma {:induction false} RowGalaxiesNext(s: string, y: int, k: nat)
    requires k < |s|
    ensures RowGalaxies(s, y, k + 1) == RowGalaxies(s, y, k) + (if s[k] == '#' then [Coordinate(k, y)] else [])
  {
  }

  /** A cell added at the end of a row adds its galaxy, if any, at the end. */
  lemma {:induction false} RowGalaxiesPush(s: string, c: char, y: int)
    ensures RowGalaxies(s + [c], y, |s| + 1) == RowGalaxies(s, y, |s|) + (if c == '#' then [Coordinate(|s|, y)] else [])
  {
    var t := s + [c];
    assert t[..|s|] == s[..|s|];
    RowGalaxiesAgree(s, t, y, |s|);
    RowGalaxiesNext(t, y, |s|);
  }

  /** One cell of a widened row: the cell, then its extra `.` when its column is widened. */
  lemma {:induction false} WidenedCellGalaxies(front: string, c: char, extra: string, cols: seq<nat>, y: int, x: nat,
                                                before: seq<Coordinate>)
    requires extra == "" || extra == "."
    requires RowGalaxies(front, y, |front|) == MoveRight(before, cols)
    requires |front| == x + ColumnsLeft(cols, x)
    ensures RowGalaxies(front + [c] + extra, y, |front| + 1 + |extra|)
      == MoveRight(before + (if c == '#' then [Coordinate(x, y)] else []), cols)
  {
    var cell: seq<Coordinate> := if c == '#' then [Coordinate(x, y)] else [];
    RowGalaxiesPush(front, c, y);
    if extra == "." {
      RowGalaxiesPush(front + [c], '.', y);
    } else {
      assert front + [c] + extra == front + [c];
    }
    assert MoveRight(cell, cols) == (if c == '#' then [Coordinate(|front|, y)] else []);
    MoveRightAppend(before, cell, cols);
  }

  /** The galaxies of a widened row are those of the row, in order, each moved right by the widened columns left of it. */
  lemma {:induction false} WidenedRowGalaxies(row: string, cols: seq<nat>, y: int, n: nat)
    requires n <= |row|
    ensures RowGalaxies(Widened(row, cols, n), y, |Widened(row, cols, n)|) == MoveRight(RowGalaxies(row, y, n), cols)
  {
    if n > 0 {
      var extra: string := if IsExpanded(cols, n - 1) then "." else "";
      WidenedRowGalaxies(row, cols, y, n - 1);
      WidenedCounts(row, cols, n - 1);
      WidenedCellGalaxies(Widened(row, cols, n - 1), row[n - 1], extra, cols, y, n - 1, RowGalaxies(row, y, n - 1));
    }
  }

  /** The galaxies of the image widened at `cols` are those of the image, in order, each moved right by the widened columns left of it. */
  lemma {:induction false} WidenedGalaxiesBelow(world: seq<string>, wide: seq<string>, cols: seq<nat>, n: nat)
    requires |wide| == |world| && n <= |world|
    requires forall r :: 0 <= r < |world| ==> wide[r] == Widened(world[r], cols, |world[r]|)
    ensures GalaxiesBelow(wide, n) == MoveRight(GalaxiesBelow(world, n), cols)
  {
    if n > 0 {
      WidenedGalaxiesBelow(world, wide, cols, n - 1);
      var row := world[n - 1];
      var before := GalaxiesBelow(world, n - 1);
      var last := RowGalaxies(row, n - 1, |row|);
      assert GalaxiesBelow(world, n) == before + last;
      assert GalaxiesBelow(wide, n) == GalaxiesBelow(wide, n - 1) + RowGalaxies(wide[n - 1], n - 1, |wide[n - 1]|);
      assert wide[n - 1] == Widened(row, cols, |row|);
      WidenedRowGalaxies(row, cols, n - 1, |row|);
      MoveRightAppend(before, last, cols);
    }
  }

  /** `expandEmptyColumns` moves every galaxy right by the empty columns left of it, and keeps their order. */
  lemma {:induction false} ExpandedColumnsGalaxies(world: seq<string>)
    ensures WorldToGalaxyCoordinates(ExpandedColumns(world)) == MoveRight(WorldToGalaxyCoordinates(world), ColumnsToExpand(world))
  {
    if |world| == 0 {
      assert MoveRight([], []) == [];
    } else {
      WidenedGalaxiesBelow(world, ExpandedColumns(world), ColumnsToExpand(world), |world|);
    }
  }

  /** The galaxies of the first `n` rows depend only on those rows. */
  lemma {:induction false} GalaxiesBelowAgree(v: seq<string>, w: seq<string>, n: nat)
    requires n <= |v| && n <= |w| && v[..n] == w[..n]
    ensures GalaxiesBelow(v, n) == GalaxiesBelow(w, n)
  {
    if n > 0 {
      assert v[n - 1] == v[..n][n - 1];
      assert v[..n - 1] == v[..n][..n - 1] && w[..n - 1] == w[..n][..n - 1];
      GalaxiesBelowAgree(v, w, n - 1);
    }
  }

  /** The galaxies of a row moved down are those of the same row read lower. */
  lemma {:induction false} RowGalaxiesDown(row: string, world: seq<string>, y: int, k: nat)
    requires k <= |row|
    ensures MoveDown(RowGalaxies(row, y, k), world) == RowGalaxies(row, y + RowsAbove(world, y), k)
  {
    if k > 0 {
      RowGalaxiesDown(row, world, y, k - 1);
      var before := RowGalaxies(row, y, k - 1);
      var cell: seq<Coordinate> := if row[k - 1] == '#' then [Coordinate(k - 1, y)] else [];
      MoveDownAppend(before, cell, world);
    }
  }

  /** A row of `.` yields no galaxy. */
  lemma {:induction false} AllDotsRowGalaxies(row: string, y: int, k: nat)
    requires AllDots(row) && k <= |row|
    ensures RowGalaxies(row, y, k) == []
  {
    if k > 0 {
      AllDotsRowGalaxies(row, y, k - 1);
    }
  }

  /** Galaxies above row `n` move down alike in an image and in its first `n` rows. */
  lemma {:induction false} MoveDownPrefix(gs: seq<Coordinate>, world: seq<string>, n: nat)
    requires n <= |world|
    requires forall c :: c in gs ==> 0 <= c.y < n
    ensures MoveDown(gs, world[..n]) == MoveDown(gs, world)
  {
    forall i | 0 <= i < |gs| ensures RowsAbove(world[..n], gs[i].y) == RowsAbove(world, gs[i].y) {
      var y := gs[i].y;
      assert gs[i] in gs;
      if y > 0 {
        assert world[..n][..y] == world[..y];
        EmptyRowsAgree(world[..n], world, y);
      }
    }
  }

  /** The rows added after an image, a row once or an empty row twice, add the galaxies of that row right below the image. */
  lemma {:induction false} GalaxiesBelowAdded(e: seq<string>, row: string)
    ensures var added: seq<string> := if AllDots(row) then [row, row] else [row];
      GalaxiesBelow(e + added, |e + added|) == GalaxiesBelow(e, |e|) + RowGalaxies(row, |e|, |row|)
  {
    var added: seq<string> := if AllDots(row) then [row, row] else [row];
    var tall := e + added;
    assert tall[..|e|] == e && e[..|e|] == e;
    GalaxiesBelowAgree(e, tall, |e|);
    if AllDots(row) {
      AllDotsRowGalaxies(row, |e|, |row|);
      AllDotsRowGalaxies(row, |e| + 1, |row|);
    }
  }

  /** The galaxies of an image, moved down: those of all rows but the last, moved within those rows, then the last row read lower. */
  lemma {:induction false} MoveDownLast(world: seq<string>)
    requires world != []
    ensures var n := |world|;
      MoveDown(GalaxiesBelow(world, n), world) ==
        MoveDown(GalaxiesBelow(world[..n - 1], n - 1), world[..n - 1]) + RowGalaxies(world[n - 1], n - 1 + RowsAbove(world, n - 1), |world[n - 1]|)
  {
    var n := |world|;
    var front := world[..n - 1];
    var row := world[n - 1];
    assert front[..n - 1] == world[..n - 1];
    GalaxiesBelowAgree(front, world, n - 1);
    var above := GalaxiesBelow(front, n - 1);
    GalaxiesBelowMembers(front, n - 1);
    MoveDownPrefix(above, world, n - 1);
    var last := RowGalaxies(row, n - 1, |row|);
    RowGalaxiesDown(row, world, n - 1, |row|);
    MoveDownAppend(above, last, world);
  }

  /** `expandEmptyRows` moves every galaxy down by the empty rows above it, and keeps their order. */
  lemma {:induction false} ExpandEmptyRowsGalaxies(world: seq<string>)
    ensures WorldToGalaxyCoordinates(ExpandEmptyRows(world)) == MoveDown(WorldToGalaxyCoordinates(world), world)
    decreases |world|
  {
    if world == [] {
      assert MoveDown([], world) == [];
    } else {
      var n := |world|;
      var front := world[..n - 1];
      var row := world[n - 1];
      var e := ExpandEmptyRows(front);
      ExpandEmptyRowsGalaxies(front);
      ExpandEmptyRowsCounts(front);
      EmptyRowsAgree(front, world, n - 1);
      GalaxiesBelowAdded(e, row);
      MoveDownLast(world);
    }
  }

  /** A widened row is all `.` exactly when the row is. */
  lemma {:induction false} WidenedAllDots(row: string, cols: seq<nat>, n: nat)
    requires n <= |row|
    ensures AllDots(Widened(row, cols, n)) <==> AllDots(row[..n])
  {
    if n > 0 {
      WidenedAllDots(row, cols, n - 1);
      var front := Widened(row, cols, n - 1);
      var w := Widened(row, cols, n);
      assert row[..n] == row[..n - 1] + [row[n - 1]];
      if AllDots(w) {
        assert forall i :: 0 <= i < |front| ==> front[i] == w[i];
        assert w[|front|] == row[n - 1];
      }
    }
  }

  /** Images whose rows are all `.` at the same places have as many empty rows above every row. */
  lemma {:induction false} EmptyRowsRowwise(v: seq<string>, w: seq<string>, n: nat)
    requires n <= |v| && n <= |w|
    requires forall r :: 0 <= r < n ==> (AllDots(v[r]) <==> AllDots(w[r]))
    ensures EmptyRowsBelow(v, n) == EmptyRowsBelow(w, n)
  {
    if n > 0 {
      EmptyRowsRowwise(v, w, n - 1);
    }
  }

  /** Widening keeps which rows are empty. */
  lemma {:induction false} ExpandedColumnsRowsAbove(world: seq<string>, y: int)
    ensures RowsAbove(ExpandedColumns(world), y) == RowsAbove(world, y)
  {
    var wide := ExpandedColumns(world);
    ExpandedColumnsShape(world);
    forall r | 0 <= r < |world| ensures AllDots(wide[r]) <==> AllDots(world[r]) {
      if |world| > 0 {
        WidenedAllDots(world[r], ColumnsToExpand(world), |world[r]|);
        assert world[r][..|world[r]|] == world[r];
      }
    }
    if 0 < y <= |world| {
      EmptyRowsRowwise(wide, world, y);
    } else if y > |world| {
      EmptyRowsRowwise(wide, world, |world|);
    }
  }

  /**
   * The galaxies of the expanded image are those of the image, in the same
   * order, each moved right by one column per empty column left of it and
   * down by one row per empty row above it.
   */
  lemma {:induction false} ExpandedGalaxies(world: seq<string>)
    ensures WorldToGalaxyCoordinates(ExpandEmptyRows(ExpandedColumns(world))) ==
      MoveDown(MoveRight(WorldToGalaxyCoordinates(world), ColumnsToExpand(world)), world)
  {
    var wide := ExpandedColumns(world);
    ExpandedColumnsGalaxies(world);
    ExpandEmptyRowsGalaxies(wide);
    var gs := MoveRight(WorldToGalaxyCoordinates(world), ColumnsToExpand(world));
    forall i | 0 <= i < |gs| ensures RowsAbove(wide, gs[i].y) == RowsAbove(world, gs[i].y) {
      ExpandedColumnsRowsAbove(world, gs[i].y);
    }
  }

  /** So the answer of part 1 is the sum of the distances between all pairs of moved galaxies of the image. */
  lemma {:induction false} ExpandedDistanceSumMoved(world: seq<string>)
    ensures var moved := MoveDown(MoveRight(WorldToGalaxyCoordinates(world), ColumnsToExpand(world)), world);
      ExpandedDistanceSum(world) == PairwiseDistance(moved, |moved|)
  {
    ExpandedGalaxies(world);
    var moved := MoveDown(MoveRight(WorldToGalaxyCoordinates(world), ColumnsToExpand(world)), world);
    DistanceSumAllPairs(moved, |moved|);
  }

  // All pairs

  /** What the inner loop of `allPairs` yields for `i`: `items[i]` paired with each item after it and before `j`. */
  function PairsWith<T>(items: seq<T>, i: nat, j: nat): seq<(T, T)>
    requires i < |items| && j <= |items|
  {
    if j <= i + 1 then [] else PairsWith(items, i, j - 1) + [(items[i], items[j - 1])]
  }

  /** What `allPairs` yields for the first `i` items of the outer loop. */
  function PairsBefore<T>(items: seq<T>, i: nat): seq<(T, T)>
    requires i <= |items|
  {
    if i == 0 then [] else PairsBefore(items, i - 1) + PairsWith(items, i - 1, |items|)
  }

  /** `Array.from(allPairs(items))`. */
  function AllPairs<T>(items: seq<T>): seq<(T, T)> {
    PairsBefore(items, |items|)
  }

  /** `allPairs`: the two nested index loops, collected. */
  method AllPairsOf<T>(items: seq<T>) returns (pairs: seq<(T, T)>)
    ensures pairs == AllPairs(items)
  {
    pairs := [];
    for i := 0 to |items|
      invariant pairs == PairsBefore(items, i)
    {
      for j := i + 1 to |items|
        invariant pairs == PairsBefore(items, i) + PairsWith(items, i, j)
      {
        pairs := pairs + [(items[i], items[j])];
      }
    }
  }

  /** How many pairs the first `i` rounds of the outer loop yield among `n` items. */
  function Offset(n: nat, i: nat): nat
    requires i <= n
  {
    if i == 0 then 0 else Offset(n, i - 1) + (n - i)
  }

  /** Where `allPairs` yields the pair of items `a` and `b`. */
  function PairIndex(n: nat, a: nat, b: nat): nat
    requires a < b < n
  {
    Offset(n, a) + (b - a - 1)
  }

  lemma {:induction false} PairsWithIndexed<T>(items: seq<T>, i: nat, j: nat)
    requires i < |items| && j <= |items|
    ensures |PairsWith(items, i, j)| == if j <= i + 1 then 0 else j - i - 1
    ensures forall k :: 0 <= k < |PairsWith(items, i, j)| ==> PairsWith(items, i, j)[k] == (items[i], items[i + 1 + k])
  {
    if j > i + 1 {
      PairsWithIndexed(items, i, j - 1);
    }
  }

  lemma {:induction false} PairsBeforeLength<T>(items: seq<T>, i: nat)
    requires i <= |items|
    ensures |PairsBefore(items, i)| == Offset(|items|, i)
  {
    if i > 0 {
      PairsBeforeLength(items, i - 1);
      PairsWithIndexed(items, i - 1, |items|);
    }
  }

  /** The round of item `i` yields one pair for each later item below `j`. */
  lemma {:induction false} PairsWithLength<T>(items: seq<T>, i: nat, j: nat)
    requires i < j <= |items|
    ensures |PairsWith(items, i, j)| == j - i - 1
  {
    if j > i + 1 {
      PairsWithLength(items, i, j - 1);
    }
  }

  /** The round of item `i` yields its pair with item `b` at position `b - i - 1`. */
  lemma {:induction false} PairsWithAt<T>(items: seq<T>, i: nat, j: nat, b: nat)
    requires i < b < j <= |items|
    ensures b - i - 1 < |PairsWith(items, i, j)| && PairsWith(items, i, j)[b - i - 1] == (items[i], items[b])
  {
    PairsWithLength(items, i, j - 1);
    if b < j - 1 {
      PairsWithAt(items, i, j - 1, b);
    }
  }

  /** The pair of items `a` and `b`, with `a` among the first `i` rounds, sits at its `PairIndex`. */
  lemma {:induction false} PairsBeforeIndexed<T>(items: seq<T>, i: nat, a: nat, b: nat)
    requires i <= |items| && a < i && a < b < |items|
    ensures PairIndex(|items|, a, b) < |PairsBefore(items, i)|
    ensures PairsBefore(items, i)[PairIndex(|items|, a, b)] == (items[a], items[b])
  {
    var front := PairsBefore(items, i - 1);
    var last := PairsWith(items, i - 1, |items|);
    var k := PairIndex(|items|, a, b);
    if a == i - 1 {
      PairsBeforeLength(items, a);
      PairsWithAt(items, a, |items|, b);
    } else {
      PairsBeforeIndexed(items, i - 1, a, b);
    }
    AppendAt(front, last, k);
  }

  /** An index into two sequences joined. */
  lemma {:induction false} AppendAt<X>(front: seq<X>, last: seq<X>, k: nat)
    requires k < |front| + |last|
    ensures k < |front + last|
    ensures (front + last)[k] == if k < |front| then front[k] else last[k - |front|]
  {
  }

  /** Twice the number of pairs of the first `i` rounds. */
  lemma {:induction false} OffsetClosed(n: nat, i: nat)
    requires i <= n
    ensures 2 * Offset(n, i) == i * (2 * n - i - 1)
  {
    if i > 0 {
      OffsetClosed(n, i - 1);
      assert (i - 1) * (2 * n - (i - 1) - 1) + 2 * (n - i) == i * (2 * n - i - 1);
    }
  }

  lemma {:induction false} OffsetGrows(n: nat, a: nat, c: nat)
    requires a < c <= n
    ensures Offset(n, a) + (n - a - 1) <= Offset(n, c)
    decreases c - a
  {
    if c > a + 1 {
      OffsetGrows(n, a, c - 1);
    }
  }

  /**
   * `allPairs` yields `n * (n - 1) / 2` pairs: the pair of items `a < b` at
   * `PairIndex(n, a, b)`, and the pairs come in lexicographic order of
   * `(a, b)`, so each pair of positions is yielded exactly once.
   */
  lemma {:induction false} AllPairsExactly<T>(items: seq<T>)
    ensures |AllPairs(items)| == |items| * (|items| - 1) / 2
    ensures forall a: nat, b: nat :: a < b < |items| ==>
      (PairIndex(|items|, a, b) < |AllPairs(items)| && AllPairs(items)[PairIndex(|items|, a, b)] == (items[a], items[b]))
  {
    PairsBeforeLength(items, |items|);
    forall a: nat, b: nat | a < b < |items|
      ensures PairIndex(|items|, a, b) < |AllPairs(items)| && AllPairs(items)[PairIndex(|items|, a, b)] == (items[a], items[b])
    {
      PairsBeforeIndexed(items, |items|, a, b);
    }
    OffsetClosed(|items|, |items|);
  }

  /** Pairs of positions in lexicographic order are yielded in that order. */
  lemma {:induction false} PairIndexOrdered(n: nat, a: nat, b: nat, c: nat, d: nat)
    requires a < b < n && c < d < n
    requires a < c || (a == c && b < d)
    ensures PairIndex(n, a, b) < PairIndex(n, c, d)
  {
    if a < c {
      OffsetGrows(n, a, c);
    }
  }

  // Part 1

  /** The sum of the Manhattan distances of the pairs, as `map` and `reduce` compute it. */
  function DistanceSum(pairs: seq<(Coordinate, Coordinate)>): int {
    if pairs == [] then 0 else DistanceSum(pairs[..|pairs| - 1]) + ManhattanDistance(pairs[|pairs| - 1].0, pairs[|pairs| - 1].1)
  }

  lemma {:induction false} DistanceSumAppend(p: seq<(Coordinate, Coordinate)>, q: seq<(Coordinate, Coordinate)>)
    ensures DistanceSum(p + q) == DistanceSum(p) + DistanceSum(q)
    decreases |q|
  {
    if q == [] {
      assert p + q == p;
    } else {
      assert (p + q)[..|p + q| - 1] == p + q[..|q| - 1];
      DistanceSumAppend(p, q[..|q| - 1]);
    }
  }

  /** The distance sum of two lists of pairs joined, as found for each. */
  lemma {:induction false} DistanceSumJoin(pairs: seq<(Coordinate, Coordinate)>, front: seq<(Coordinate, Coordinate)>,
                                           last: seq<(Coordinate, Coordinate)>, a: int, b: int)
    requires pairs == front + last && DistanceSum(front) == a && DistanceSum(last) == b
    ensures DistanceSum(pairs) == a + b
  {
    DistanceSumAppend(front, last);
  }

  /** The distances from `g[i]` to each galaxy after it and before `j`. */
  function DistancesFrom(g: seq<Coordinate>, i: nat, j: nat): int
    requires i < |g| && j <= |g|
  {
    if j <= i + 1 then 0 else DistancesFrom(g, i, j - 1) + ManhattanDistance(g[i], g[j - 1])
  }

  /** The double sum, over the first `i` galaxies, of the distances to the galaxies after each. */
  function PairwiseDistance(g: seq<Coordinate>, i: nat): int
    requires i <= |g|
  {
    if i == 0 then 0 else PairwiseDistance(g, i - 1) + DistancesFrom(g, i - 1, |g|)
  }

  lemma {:induction false} DistanceSumPairsWith(g: seq<Coordinate>, i: nat, j: nat)
    requires i < |g| && j <= |g|
    ensures DistanceSum(PairsWith(g, i, j)) == DistancesFrom(g, i, j)
  {
    if j > i + 1 {
      DistanceSumPairsWith(g, i, j - 1);
      var p := PairsWith(g, i, j - 1);
      assert (p + [(g[i], g[j - 1])])[..|p|] == p;
    }
  }

  /** Summing the distances of the pairs `allPairs` yields is the double sum over `i < j` of the distance from `g[i]` to `g[j]`. */
  lemma {:induction false} DistanceSumAllPairs(g: seq<Coordinate>, i: nat)
    requires i <= |g|
    ensures DistanceSum(PairsBefore(g, i)) == PairwiseDistance(g, i)
  {
    if i > 0 {
      DistanceSumAllPairs(g, i - 1);
      DistanceSumPairsWith(g, i - 1, |g|);
      DistanceSumJoin(PairsBefore(g, i), PairsBefore(g, i - 1), PairsWith(g, i - 1, |g|),
                      PairwiseDistance(g, i - 1), DistancesFrom(g, i - 1, |g|));
    }
  }

  /** The answer of part 1 on an image: the distances between the galaxies of the expanded image. */
  function ExpandedDistanceSum(world: seq<string>): int {
    DistanceSum(AllPairs(WorldToGalaxyCoordinates(ExpandEmptyRows(ExpandedColumns(world)))))
  }

  /** `part1`. */
  method Part1(input: string) returns (total: int)
    ensures total == ExpandedDistanceSum(Parse(input))
  {
    var world := ExpandEmptyColumns(Parse(input));
    var pairs := AllPairsOf(WorldToGalaxyCoordinates(ExpandEmptyRows(world)));
    total := 0;
    for k := 0 to |pairs|
      invariant total == DistanceSum(pairs[..k])
    {
      assert pairs[..k + 1][..k] == pairs[..k];
      total := total + ManhattanDistance(pairs[k].0, pairs[k].1);
    }
    assert pairs[..|pairs|] == pairs;
  }
}
