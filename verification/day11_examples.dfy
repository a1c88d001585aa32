/**
 * The examples of day_11.ts: the expansion of small images, the galaxies of
 * a two-row image, and the pairs of short lists.
 */
module Day11Examples {
  import opened Coordinates
  import opened Day11

  /** Two empty columns are both doubled. */
  lemma {:induction false} ExpandColumnsAllEmpty()
    ensures ExpandedColumns(["..", ".."]) == ["....", "...."]
  {
    var world := ["..", ".."];
    assert EmptyColumn(world, 0) && EmptyColumn(world, 1);
    assert EmptyColumnsBelow(world, 2) == [0, 1];
    assert Widened("..", [0, 1], 2) == "....";
  }

  /** Only the empty second column is doubled. */
  lemma {:induction false} ExpandColumnsSecond()
    ensures ExpandedColumns(["..", "#.", ".."]) == ["...", "#..", "..."]
  {
    var world := ["..", "#.", ".."];
    assert !EmptyColumn(world, 0) by {
      assert world[1][0] == '#';
    }
    assert EmptyColumn(world, 1);
    assert EmptyColumnsBelow(world, 2) == [1];
    assert Widened("..", [1], 2) == "...";
    assert Widened("#.", [1], 2) == "#..";
  }

  /** An image without empty columns is unchanged. */
  lemma {:induction false} ExpandColumnsNone()
    ensures ExpandedColumns(["#.", ".#", ".."]) == ["#.", ".#", ".."]
  {
    var world := ["#.", ".#", ".."];
    assert !EmptyColumn(world, 0) by {
      assert world[0][0] == '#';
    }
    assert !EmptyColumn(world, 1) by {
      assert world[1][1] == '#';
    }
    assert EmptyColumnsBelow(world, 2) == [];
    ExpandedColumnsShape(world);
  }

  /** Both empty rows are doubled. */
  lemma {:induction false} ExpandRowsAllEmpty()
    ensures ExpandEmptyRows(["..", ".."]) == ["..", "..", "..", ".."]
  {
    assert AllDots("..");
    assert ["..", ".."][..1] == [".."];
    assert ExpandEmptyRows([".."]) == ["..", ".."];
  }

  /** The empty rows around a galaxy are doubled, the row of the galaxy is kept once. */
  lemma {:induction false} ExpandRowsAround()
    ensures ExpandEmptyRows(["..", "#.", ".."]) == ["..", "..", "#.", "..", ".."]
  {
    assert AllDots("..");
    assert !AllDots("#.") by {
      assert "#."[0] == '#';
    }
    assert ["..", "#.", ".."][..2] == ["..", "#."];
    assert ["..", "#."][..1] == [".."];
    assert ExpandEmptyRows([".."]) == ["..", ".."];
    assert ExpandEmptyRows(["..", "#."]) == ["..", "..", "#."];
  }

  /** The galaxies of a two-row image, in reading order, as `(column, row)`. */
  lemma {:induction false} GalaxiesOfTwoRows()
    ensures WorldToGalaxyCoordinates([".#.", "#.#"]) == [Coordinate(1, 0), Coordinate(0, 1), Coordinate(2, 1)]
  {
    assert RowGalaxies(".#.", 0, 3) == [Coordinate(1, 0)];
    assert RowGalaxies("#.#", 1, 3) == [Coordinate(0, 1), Coordinate(2, 1)];
  }

  /** No item, or one, has no pair. */
  lemma {:induction false} PairsOfFew()
    ensures AllPairs<int>([]) == []
    ensures AllPairs([1]) == []
  {
    assert PairsBefore([1], 1) == PairsBefore([1], 0) + PairsWith([1], 0, 1);
  }

  /** Two items make one pair. */
  lemma {:induction false} PairsOfTwo()
    ensures AllPairs([1, 2]) == [(1, 2)]
  {
    assert PairsWith([1, 2], 0, 2) == [(1, 2)];
    assert PairsWith([1, 2], 1, 2) == [];
  }

  /** Three items make three pairs, in the order of the nested loops. */
  lemma {:induction false} PairsOfThree()
    ensures AllPairs([1, 2, 3]) == [(1, 2), (1, 3), (2, 3)]
  {
    var items := [1, 2, 3];
    assert PairsWith(items, 0, 3) == [(1, 2), (1, 3)];
    assert PairsWith(items, 1, 3) == [(2, 3)];
    assert PairsWith(items, 2, 3) == [];
  }

  // The worked example: the ten rows of the test input, whose expanded image has its galaxies 374 apart in all.

  const ExampleImage: seq<string> := ["...#......", ".......#..", "#.........", "..........", "......#...", ".#........", ".........#", "..........", ".......#..", "#...#....."]

  /** Columns 2, 5 and 8 of the example are empty. */
  lemma {:induction false} ExampleEmptyColumnsAre()
    ensures EmptyColumn(ExampleImage, 2) && EmptyColumn(ExampleImage, 5) && EmptyColumn(ExampleImage, 8)
  {
  }

  /** Every other column of the example holds a galaxy. */
  lemma {:induction false} ExampleFullColumns()
    ensures !EmptyColumn(ExampleImage, 0) && !EmptyColumn(ExampleImage, 1) && !EmptyColumn(ExampleImage, 3)
    ensures !EmptyColumn(ExampleImage, 4) && !EmptyColumn(ExampleImage, 6) && !EmptyColumn(ExampleImage, 7)
    ensures !EmptyColumn(ExampleImage, 9)
  {
    var w := ExampleImage;
    assert w[2][0] == '#' && w[5][1] == '#' && w[0][3] == '#' && w[9][4] == '#';
    assert w[4][6] == '#' && w[1][7] == '#' && w[6][9] == '#';
  }

  /** `columnsToExpand` of the example. */
  lemma {:induction false} ExampleEmptyColumns()
    ensures EmptyColumnsBelow(ExampleImage, 10) == [2, 5, 8]
  {
    ExampleEmptyColumnsAre();
    ExampleFullColumns();
    var w := ExampleImage;
    assert EmptyColumnsBelow(w, 2) == [];
    assert EmptyColumnsBelow(w, 3) == [2];
    assert EmptyColumnsBelow(w, 5) == [2];
    assert EmptyColumnsBelow(w, 6) == [2, 5];
    assert EmptyColumnsBelow(w, 8) == [2, 5];
    assert EmptyColumnsBelow(w, 9) == [2, 5, 8];
  }

  /** The galaxies of the example, in reading order. */
  const ExampleGalaxies: seq<Coordinate> := [Coordinate(3, 0), Coordinate(7, 1), Coordinate(0, 2), Coordinate(6, 4), Coordinate(1, 5), Coordinate(9, 6), Coordinate(7, 8), Coordinate(0, 9), Coordinate(4, 9)]

  /** The galaxies of the expanded example, in reading order. */
  const ExpandedExampleGalaxies: seq<Coordinate> := [Coordinate(4, 0), Coordinate(9, 1), Coordinate(0, 2), Coordinate(8, 5), Coordinate(1, 6), Coordinate(12, 7), Coordinate(9, 10), Coordinate(0, 11), Coordinate(5, 11)]

  /** Cells `a` up to `b` of a row that hold no galaxy add no galaxy. */
  lemma {:induction false} RowGalaxiesSkip(row: string, y: int, a: nat, b: nat)
    requires a <= b <= |row|
    requires forall i :: a <= i < b ==> row[i] != '#'
    ensures RowGalaxies(row, y, b) == RowGalaxies(row, y, a)
    decreases b - a
  {
    if a < b {
      RowGalaxiesSkip(row, y, a, b - 1);
    }
  }

  /** A row whose only galaxy is in column `x`. */
  lemma {:induction false} RowGalaxiesOne(row: string, y: int, x: nat)
    requires x < |row| && row[x] == '#'
    requires forall i :: 0 <= i < |row| && i != x ==> row[i] != '#'
    ensures RowGalaxies(row, y, |row|) == [Coordinate(x, y)]
  {
    RowGalaxiesSkip(row, y, 0, x);
    RowGalaxiesSkip(row, y, x + 1, |row|);
  }

  /** A row without galaxies. */
  lemma {:induction false} RowGalaxiesNone(row: string, y: int)
    requires forall i :: 0 <= i < |row| ==> row[i] != '#'
    ensures RowGalaxies(row, y, |row|) == []
  {
    RowGalaxiesSkip(row, y, 0, |row|);
  }

  lemma {:induction false} ExampleRowGalaxies0()
    ensures RowGalaxies(ExampleImage[0], 0, 10) == [Coordinate(3, 0)]
  {
    RowGalaxiesOne(ExampleImage[0], 0, 3);
  }

  lemma {:induction false} ExampleRowGalaxies1()
    ensures RowGalaxies(ExampleImage[1], 1, 10) == [Coordinate(7, 1)]
  {
    RowGalaxiesOne(ExampleImage[1], 1, 7);
  }

  lemma {:induction false} ExampleRowGalaxies2()
    ensures RowGalaxies(ExampleImage[2], 2, 10) == [Coordinate(0, 2)]
  {
    RowGalaxiesOne(ExampleImage[2], 2, 0);
  }

  lemma {:induction false} ExampleRowGalaxies3()
    ensures RowGalaxies(ExampleImage[3], 3, 10) == []
  {
    RowGalaxiesNone(ExampleImage[3], 3);
  }

  lemma {:induction false} ExampleRowGalaxies4()
    ensures RowGalaxies(ExampleImage[4], 4, 10) == [Coordinate(6, 4)]
  {
    RowGalaxiesOne(ExampleImage[4], 4, 6);
  }

  lemma {:induction false} ExampleRowGalaxies5()
    ensures RowGalaxies(ExampleImage[5], 5, 10) == [Coordinate(1, 5)]
  {
    RowGalaxiesOne(ExampleImage[5], 5, 1);
  }

  lemma {:induction false} ExampleRowGalaxies6()
    ensures RowGalaxies(ExampleImage[6], 6, 10) == [Coordinate(9, 6)]
  {
    RowGalaxiesOne(ExampleImage[6], 6, 9);
  }

  lemma {:induction false} ExampleRowGalaxies7()
    ensures RowGalaxies(ExampleImage[7], 7, 10) == []
  {
    RowGalaxiesNone(ExampleImage[7], 7);
  }

  lemma {:induction false} ExampleRowGalaxies8()
    ensures RowGalaxies(ExampleImage[8], 8, 10) == [Coordinate(7, 8)]
  {
    RowGalaxiesOne(ExampleImage[8], 8, 7);
  }

  lemma {:induction false} ExampleRowGalaxies9()
    ensures RowGalaxies(ExampleImage[9], 9, 10) == [Coordinate(0, 9), Coordinate(4, 9)]
  {
    RowGalaxiesSkip(ExampleImage[9], 9, 0, 0);
    RowGalaxiesSkip(ExampleImage[9], 9, 1, 4);
    RowGalaxiesSkip(ExampleImage[9], 9, 5, 10);
  }

  /** `worldToGalaxyCoordinates` of the example. */
  lemma {:induction false} ExampleGalaxiesAre()
    ensures WorldToGalaxyCoordinates(ExampleImage) == ExampleGalaxies
  {
    ExampleRowGalaxies0();
    ExampleRowGalaxies1();
    ExampleRowGalaxies2();
    ExampleRowGalaxies3();
    ExampleRowGalaxies4();
    ExampleRowGalaxies5();
    ExampleRowGalaxies6();
    ExampleRowGalaxies7();
    ExampleRowGalaxies8();
    ExampleRowGalaxies9();
    assert GalaxiesBelow(ExampleImage, 5) == ExampleGalaxies[..4];
  }

  /** Rows 3 and 7 of the example are empty, the others are not. */
  lemma {:induction false} ExampleEmptyRows()
    ensures RowsAbove(ExampleImage, 0) == 0 && RowsAbove(ExampleImage, 1) == 0 && RowsAbove(ExampleImage, 2) == 0
    ensures RowsAbove(ExampleImage, 4) == 1 && RowsAbove(ExampleImage, 5) == 1 && RowsAbove(ExampleImage, 6) == 1
    ensures RowsAbove(ExampleImage, 8) == 2 && RowsAbove(ExampleImage, 9) == 2
  {
    var w := ExampleImage;
    assert w[0][3] == '#' && w[1][7] == '#' && w[2][0] == '#' && w[4][6] == '#';
    assert w[5][1] == '#' && w[6][9] == '#' && w[8][7] == '#';
    assert AllDots(w[3]) && AllDots(w[7]);
  }

  /** Columns 2, 5 and 8 left of the columns of the example's galaxies. */
  lemma {:induction false} ExampleColumnsLeft()
    ensures ColumnsLeft([2, 5, 8], 0) == 0 && ColumnsLeft([2, 5, 8], 1) == 0 && ColumnsLeft([2, 5, 8], 3) == 1
    ensures ColumnsLeft([2, 5, 8], 4) == 1 && ColumnsLeft([2, 5, 8], 6) == 2 && ColumnsLeft([2, 5, 8], 7) == 2
    ensures ColumnsLeft([2, 5, 8], 9) == 3
  {
  }

  /** The galaxies of the example moved right past the empty columns. */
  lemma {:induction false} ExampleMovedRight()
    ensures MoveRight(ExampleGalaxies, [2, 5, 8]) == [Coordinate(4, 0), Coordinate(9, 1), Coordinate(0, 2), Coordinate(8, 4), Coordinate(1, 5), Coordinate(12, 6), Coordinate(9, 8), Coordinate(0, 9), Coordinate(5, 9)]
  {
    ExampleColumnsLeft();
  }

  /** The galaxies moved right, then down past rows 3 and 7. */
  lemma {:induction false} ExampleMovedDown(image: seq<string>)
    requires RowsAbove(image, 0) == 0 && RowsAbove(image, 1) == 0 && RowsAbove(image, 2) == 0
    requires RowsAbove(image, 4) == 1 && RowsAbove(image, 5) == 1 && RowsAbove(image, 6) == 1
    requires RowsAbove(image, 8) == 2 && RowsAbove(image, 9) == 2
    ensures MoveDown([Coordinate(4, 0), Coordinate(9, 1), Coordinate(0, 2), Coordinate(8, 4), Coordinate(1, 5), Coordinate(12, 6), Coordinate(9, 8), Coordinate(0, 9), Coordinate(5, 9)], image) == ExpandedExampleGalaxies
  {
  }

  /** Where the galaxies of the example land once it is expanded. */
  lemma {:induction false} ExampleMoved()
    ensures MoveDown(MoveRight(ExampleGalaxies, ColumnsToExpand(ExampleImage)), ExampleImage) == ExpandedExampleGalaxies
  {
    ExampleEmptyColumns();
    assert ColumnsToExpand(ExampleImage) == [2, 5, 8];
    ExampleMovedRight();
    ExampleEmptyRows();
    ExampleMovedDown(ExampleImage);
  }

  // The distances from each galaxy of the expanded example to the galaxies after it.

  lemma {:induction false} ExampleDistancesFrom0()
    ensures DistancesFrom(ExpandedExampleGalaxies, 0, 9) == 87
  {
  }

  lemma {:induction false} ExampleDistancesFrom1()
    ensures DistancesFrom(ExpandedExampleGalaxies, 1, 9) == 79
  {
  }

  lemma {:induction false} ExampleDistancesFrom2()
    ensures DistancesFrom(ExpandedExampleGalaxies, 2, 9) == 73
  {
  }

  lemma {:induction false} ExampleDistancesFrom3()
    ensures DistancesFrom(ExpandedExampleGalaxies, 3, 9) == 43
  {
  }

  lemma {:induction false} ExampleDistancesFrom4()
    ensures DistancesFrom(ExpandedExampleGalaxies, 4, 9) == 39
  {
  }

  lemma {:induction false} ExampleDistancesFrom5()
    ensures DistancesFrom(ExpandedExampleGalaxies, 5, 9) == 33
  {
  }

  lemma {:induction false} ExampleDistancesFrom6()
    ensures DistancesFrom(ExpandedExampleGalaxies, 6, 9) == 15
  {
  }

  lemma {:induction false} ExampleDistancesFrom7()
    ensures DistancesFrom(ExpandedExampleGalaxies, 7, 9) == 5
  {
  }

  lemma {:induction false} ExampleDistancesFrom8()
    ensures DistancesFrom(ExpandedExampleGalaxies, 8, 9) == 0
  {
  }

  /** Summing the distances from each galaxy to those after it. */
  lemma {:induction false} SumRows(g: seq<Coordinate>)
    requires |g| == 9
    requires DistancesFrom(g, 0, 9) == 87
    requires DistancesFrom(g, 1, 9) == 79
    requires DistancesFrom(g, 2, 9) == 73
    requires DistancesFrom(g, 3, 9) == 43
    requires DistancesFrom(g, 4, 9) == 39
    requires DistancesFrom(g, 5, 9) == 33
    requires DistancesFrom(g, 6, 9) == 15
    requires DistancesFrom(g, 7, 9) == 5
    requires DistancesFrom(g, 8, 9) == 0
    ensures PairwiseDistance(g, 9) == 374
  {
    assert PairwiseDistance(g, 1) == 87;
    assert PairwiseDistance(g, 2) == 166;
    assert PairwiseDistance(g, 3) == 239;
    assert PairwiseDistance(g, 4) == 282;
    assert PairwiseDistance(g, 5) == 321;
    assert PairwiseDistance(g, 6) == 354;
    assert PairwiseDistance(g, 7) == 369;
    assert PairwiseDistance(g, 8) == 374;
  }

  /** The distances between all pairs of galaxies of the expanded example. */
  lemma {:induction false} ExampleDistances()
    ensures PairwiseDistance(ExpandedExampleGalaxies, 9) == 374
  {
    ExampleDistancesFrom0();
    ExampleDistancesFrom1();
    ExampleDistancesFrom2();
    ExampleDistancesFrom3();
    ExampleDistancesFrom4();
    ExampleDistancesFrom5();
    ExampleDistancesFrom6();
    ExampleDistancesFrom7();
    ExampleDistancesFrom8();
    SumRows(ExpandedExampleGalaxies);
  }

  /** `part1` on the example is 374. */
  lemma {:induction false} ExamplePart1()
    ensures ExpandedDistanceSum(ExampleImage) == 374
  {
    ExpandedDistanceSumMoved(ExampleImage);
    ExampleGalaxiesAre();
    ExampleMoved();
    ExampleDistances();
  }
}
