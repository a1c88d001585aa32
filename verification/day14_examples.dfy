/** The example platform of day_14.ts and its tilt north, checked column by column against `TiltedFrom`. */
module Day14Examples {
  import opened Day14

  const ExampleRows: seq<seq<char>> := [
    "O....#....",
    "O.OO#....#",
    ".....##...",
    "OO.#O....O",
    ".O.....O#.",
    "O.#..O.#.#",
    "..O..#O..O",
    ".......O..",
    "#....###..",
    "#OO..#...."
  ]

  const TiltedRows: seq<seq<char>> := [
    "OOOO.#.O..",
    "OO..#....#",
    "OO..O##..O",
    "O..#.OO...",
    "........#.",
    "..#....#.#",
    "..O..#.O.O",
    "..O.......",
    "#....###..",
    "#....#...."
  ]

  /** The count of rounded rocks is their multiplicity, which the verifier evaluates on a literal. */
  lemma {:induction false} CountIsMultiplicity(s: seq<char>)
    ensures CountRocks(s) == multiset(s)[Rock]
  {
    if s != [] {
      CountIsMultiplicity(s[..|s| - 1]);
      assert s == s[..|s| - 1] + [s[|s| - 1]];
    }
  }

  lemma {:induction false} ExampleShape()
    ensures Rectangular(ExampleRows) && Rectangular(TiltedRows) && Width(ExampleRows) == Width(TiltedRows) == 10
    ensures |ExampleRows| == |TiltedRows| == 10
  {
  }

  lemma {:induction false} Column0InputNorthOf8()
    ensures RocksNorthOf("OO.O.O..##", 8) == 4
  {
    assert "OO.O.O..##"[..8] == "OO.O.O..";
    CountIsMultiplicity("OO.O.O..");
  }

  lemma {:induction false} Column0TiltedNorthOf8()
    ensures RocksNorthOf("OOOO....##", 8) == 4
  {
    assert "OOOO....##"[..8] == "OOOO....";
    CountIsMultiplicity("OOOO....");
  }

  lemma {:induction false} Column0End8()
    ensures RocksNorthOf("OO.O.O..##", 8) == RocksNorthOf("OOOO....##", 8)
  {
    Column0InputNorthOf8();
    Column0TiltedNorthOf8();
  }

  lemma {:induction false} Column0InputNorthOf9()
    ensures RocksNorthOf("OO.O.O..##", 9) == 4
  {
    assert "OO.O.O..##"[..9] == "OO.O.O..#";
    CountIsMultiplicity("OO.O.O..#");
  }

  lemma {:induction false} Column0TiltedNorthOf9()
    ensures RocksNorthOf("OOOO....##", 9) == 4
  {
    assert "OOOO....##"[..9] == "OOOO....#";
    CountIsMultiplicity("OOOO....#");
  }

  lemma {:induction false} Column0End9()
    ensures RocksNorthOf("OO.O.O..##", 9) == RocksNorthOf("OOOO....##", 9)
  {
    Column0InputNorthOf9();
    Column0TiltedNorthOf9();
  }

  lemma {:induction false} Column0InputNorthOf10()
    ensures RocksNorthOf("OO.O.O..##", 10) == 4
  {
    var u := "OO.O.O..##";
    assert u[..|u|] == u;
    CountIsMultiplicity(u);
  }

  lemma {:induction false} Column0TiltedNorthOf10()
    ensures RocksNorthOf("OOOO....##", 10) == 4
  {
    var u := "OOOO....##";
    assert u[..|u|] == u;
    CountIsMultiplicity(u);
  }

  lemma {:induction false} Column0End10()
    ensures RocksNorthOf("OO.O.O..##", 10) == RocksNorthOf("OOOO....##", 10)
  {
    Column0InputNorthOf10();
    Column0TiltedNorthOf10();
  }

  lemma {:induction false} ShapeColumn0()
    ensures SameShape("OO.O.O..##", "OOOO....##")
  {
  }

  lemma {:induction false} SettledColumn0()
    ensures Settled("OOOO....##")
  {
  }

  lemma {:induction false} CountsColumn0()
    ensures SameStretchCounts("OO.O.O..##", "OOOO....##")
  {
    var s := "OO.O.O..##";
    var t := "OOOO....##";
    forall r | 0 <= r <= |s| && StretchEnd(s, r)
      ensures RocksNorthOf(s, r) == RocksNorthOf(t, r)
    {
      assert r == 8 || r == 9 || r == 10;
      if r == 8 {
        Column0End8();
      } else if r == 9 {
        Column0End9();
      } else if r == 10 {
        Column0End10();
      }
    }
  }

  lemma {:induction false} TiltedColumn0()
    ensures TiltedFrom("OO.O.O..##", "OOOO....##")
  {
    ShapeColumn0();
    SettledColumn0();
    CountsColumn0();
  }

  /** Column 0 of the tilted example is the original column 0, tilted. */
  lemma {:induction false} ExampleColumn0()
    ensures Rectangular(ExampleRows) && Rectangular(TiltedRows) && 0 < Width(ExampleRows) == Width(TiltedRows)
    ensures TiltedFrom(ColumnOf(ExampleRows, 0), ColumnOf(TiltedRows, 0))
  {
    ExampleShape();
    assert ColumnOf(ExampleRows, 0) == "OO.O.O..##";
    assert ColumnOf(TiltedRows, 0) == "OOOO....##";
    TiltedColumn0();
  }

  lemma {:induction false} Column1InputNorthOf10()
    ensures RocksNorthOf("...OO....O", 10) == 3
  {
    var u := "...OO....O";
    assert u[..|u|] == u;
    CountIsMultiplicity(u);
  }

  lemma {:induction false} Column1TiltedNorthOf10()
    ensures RocksNorthOf("OOO.......", 10) == 3
  {
    var u := "OOO.......";
    assert u[..|u|] == u;
    CountIsMultiplicity(u);
  }

  lemma {:induction false} Column1End10()
    ensures RocksNorthOf("...OO....O", 10) == RocksNorthOf("OOO.......", 10)
  {
    Column1InputNorthOf10();
    Column1TiltedNorthOf10();
  }

  lemma {:induction false} ShapeColumn1()
    ensures SameShape("...OO....O", "OOO.......")
  {
  }

  lemma {:induction false} SettledColumn1()
    ensures Settled("OOO.......")
  {
  }

  lemma {:induction false} CountsColumn1()
    ensures SameStretchCounts("...OO....O", "OOO.......")
  {
    var s := "...OO....O";
    var t := "OOO.......";
    forall r | 0 <= r <= |s| && StretchEnd(s, r)
      ensures RocksNorthOf(s, r) == RocksNorthOf(t, r)
    {
      assert r == 10;
      Column1End10();
    }
  }

  lemma {:induction false} TiltedColumn1()
    ensures TiltedFrom("...OO....O", "OOO.......")
  {
    ShapeColumn1();
    SettledColumn1();
    CountsColumn1();
  }

  /** Column 1 of the tilted example is the original column 1, tilted. */
  lemma {:induction false} ExampleColumn1()
    ensures Rectangular(ExampleRows) && Rectangular(TiltedRows) && 1 < Width(ExampleRows) == Width(TiltedRows)
    ensures TiltedFrom(ColumnOf(ExampleRows, 1), ColumnOf(TiltedRows, 1))
  {
    ExampleShape();
    assert ColumnOf(ExampleRows, 1) == "...OO....O";
    assert ColumnOf(TiltedRows, 1) == "OOO.......";
    TiltedColumn1();
  }

  lemma {:induction false} Column2InputNorthOf5()
    ensures RocksNorthOf(".O...#O..O", 5) == 1
  {
    assert ".O...#O..O"[..5] == ".O...";
    CountIsMultiplicity(".O...");
  }

  lemma {:induction false} Column2TiltedNorthOf5()
    ensures RocksNorthOf("O....#OO..", 5) == 1
  {
    assert "O....#OO.."[..5] == "O....";
    CountIsMultiplicity("O....");
  }

  lemma {:induction false} Column2End5()
    ensures RocksNorthOf(".O...#O..O", 5) == RocksNorthOf("O....#OO..", 5)
  {
    Column2InputNorthOf5();
    Column2TiltedNorthOf5();
  }

  lemma {:induction false} Column2InputNorthOf10()
    ensures RocksNorthOf(".O...#O..O", 10) == 3
  {
    var u := ".O...#O..O";
    assert u[..|u|] == u;
    CountIsMultiplicity(u);
  }

  lemma {:induction false} Column2TiltedNorthOf10()
    ensures RocksNorthOf("O....#OO..", 10) == 3
  {
    var u := "O....#OO..";
    assert u[..|u|] == u;
    CountIsMultiplicity(u);
  }

  lemma {:induction false} Column2End10()
    ensures RocksNorthOf(".O...#O..O", 10) == RocksNorthOf("O....#OO..", 10)
  {
    Column2InputNorthOf10();
    Column2TiltedNorthOf10();
  }

  lemma {:induction false} ShapeColumn2()
    ensures SameShape(".O...#O..O", "O....#OO..")
  {
  }

  lemma {:induction false} SettledColumn2()
    ensures Settled("O....#OO..")
  {
  }

  lemma {:induction false} CountsColumn2()
    ensures SameStretchCounts(".O...#O..O", "O....#OO..")
  {
    var s := ".O...#O..O";
    var t := "O....#OO..";
    forall r | 0 <= r <= |s| && StretchEnd(s, r)
      ensures RocksNorthOf(s, r) == RocksNorthOf(t, r)
    {
      assert r == 5 || r == 10;
      if r == 5 {
        Column2End5();
      } else if r == 10 {
        Column2End10();
      }
    }
  }

  lemma {:induction false} TiltedColumn2()
    ensures TiltedFrom(".O...#O..O", "O....#OO..")
  {
    ShapeColumn2();
    SettledColumn2();
    CountsColumn2();
  }

  /** Column 2 of the tilted example is the original column 2, tilted. */
  lemma {:induction false} ExampleColumn2()
    ensures Rectangular(ExampleRows) && Rectangular(TiltedRows) && 2 < Width(ExampleRows) == Width(TiltedRows)
    ensures TiltedFrom(ColumnOf(ExampleRows, 2), ColumnOf(TiltedRows, 2))
  {
    ExampleShape();
    assert ColumnOf(ExampleRows, 2) == ".O...#O..O";
    assert ColumnOf(TiltedRows, 2) == "O....#OO..";
    TiltedColumn2();
  }

  lemma {:induction false} Column3InputNorthOf3()
    ensures RocksNorthOf(".O.#......", 3) == 1
  {
    assert ".O.#......"[..3] == ".O.";
    CountIsMultiplicity(".O.");
  }

  lemma {:induction false} Column3TiltedNorthOf3()
    ensures RocksNorthOf("O..#......", 3) == 1
  {
    assert "O..#......"[..3] == "O..";
    CountIsMultiplicity("O..");
  }

  lemma {:induction false} Column3End3()
    ensures RocksNorthOf(".O.#......", 3) == RocksNorthOf("O..#......", 3)
  {
    Column3InputNorthOf3();
    Column3TiltedNorthOf3();
  }

  lemma {:induction false} Column3InputNorthOf10()
    ensures RocksNorthOf(".O.#......", 10) == 1
  {
    var u := ".O.#......";
    assert u[..|u|] == u;
    CountIsMultiplicity(u);
  }

  lemma {:induction false} Column3TiltedNorthOf10()
    ensures RocksNorthOf("O..#......", 10) == 1
  {
    var u := "O..#......";
    assert u[..|u|] == u;
    CountIsMultiplicity(u);
  }

  lemma {:induction false} Column3End10()
    ensures RocksNorthOf(".O.#......", 10) == RocksNorthOf("O..#......", 10)
  {
    Column3InputNorthOf10();
    Column3TiltedNorthOf10();
  }

  lemma {:induction false} ShapeColumn3()
    ensures SameShape(".O.#......", "O..#......")
  {
  }

  lemma {:induction false} SettledColumn3()
    ensures Settled("O..#......")
  {
  }

  lemma {:induction false} CountsColumn3()
    ensures SameStretchCounts(".O.#......", "O..#......")
  {
    var s := ".O.#......";
    var t := "O..#......";
    forall r | 0 <= r <= |s| && StretchEnd(s, r)
      ensures RocksNorthOf(s, r) == RocksNorthOf(t, r)
    {
      assert r == 3 || r == 10;
      if r == 3 {
        Column3End3();
      } else if r == 10 {
        Column3End10();
      }
    }
  }

  lemma {:induction false} TiltedColumn3()
    ensures TiltedFrom(".O.#......", "O..#......")
  {
    ShapeColumn3();
    SettledColumn3();
    CountsColumn3();
  }

  /** Column 3 of the tilted example is the original column 3, tilted. */
  lemma {:induction false} ExampleColumn3()
    ensures Rectangular(ExampleRows) && Rectangular(TiltedRows) && 3 < Width(ExampleRows) == Width(TiltedRows)
    ensures TiltedFrom(ColumnOf(ExampleRows, 3), ColumnOf(TiltedRows, 3))
  {
    ExampleShape();
    assert ColumnOf(ExampleRows, 3) == ".O.#......";
    assert ColumnOf(TiltedRows, 3) == "O..#......";
    TiltedColumn3();
  }

  lemma {:induction false} Column4InputNorthOf1()
    ensures RocksNorthOf(".#.O......", 1) == 0
  {
    assert ".#.O......"[..1] == ".";
    CountIsMultiplicity(".");
  }

  lemma {:induction false} Column4TiltedNorthOf1()
    ensures RocksNorthOf(".#O.......", 1) == 0
  {
    assert ".#O......."[..1] == ".";
    CountIsMultiplicity(".");
  }

  lemma {:induction false} Column4End1()
    ensures RocksNorthOf(".#.O......", 1) == RocksNorthOf(".#O.......", 1)
  {
    Column4InputNorthOf1();
    Column4TiltedNorthOf1();
  }

  lemma {:induction false} Column4InputNorthOf10()
    ensures RocksNorthOf(".#.O......", 10) == 1
  {
    var u := ".#.O......";
    assert u[..|u|] == u;
    CountIsMultiplicity(u);
  }

  lemma {:induction false} Column4TiltedNorthOf10()
    ensures RocksNorthOf(".#O.......", 10) == 1
  {
    var u := ".#O.......";
    assert u[..|u|] == u;
    CountIsMultiplicity(u);
  }

  lemma {:induction false} Column4End10()
    ensures RocksNorthOf(".#.O......", 10) == RocksNorthOf(".#O.......", 10)
  {
    Column4InputNorthOf10();
    Column4TiltedNorthOf10();
  }

  lemma {:induction false} ShapeColumn4()
    ensures SameShape(".#.O......", ".#O.......")
  {
  }

  lemma {:induction false} SettledColumn4()
    ensures Settled(".#O.......")
  {
  }

  lemma {:induction false} CountsColumn4()
    ensures SameStretchCounts(".#.O......", ".#O.......")
  {
    var s := ".#.O......";
    var t := ".#O.......";
    forall r | 0 <= r <= |s| && StretchEnd(s, r)
      ensures RocksNorthOf(s, r) == RocksNorthOf(t, r)
    {
      assert r == 1 || r == 10;
      if r == 1 {
        Column4End1();
      } else if r == 10 {
        Column4End10();
      }
    }
  }

  lemma {:induction false} TiltedColumn4()
    ensures TiltedFrom(".#.O......", ".#O.......")
  {
    ShapeColumn4();
    SettledColumn4();
    CountsColumn4();
  }

  /** Column 4 of the tilted example is the original column 4, tilted. */
  lemma {:induction false} ExampleColumn4()
    ensures Rectangular(ExampleRows) && Rectangular(TiltedRows) && 4 < Width(ExampleRows) == Width(TiltedRows)
    ensures TiltedFrom(ColumnOf(ExampleRows, 4), ColumnOf(TiltedRows, 4))
  {
    ExampleShape();
    assert ColumnOf(ExampleRows, 4) == ".#.O......";
    assert ColumnOf(TiltedRows, 4) == ".#O.......";
    TiltedColumn4();
  }

  lemma {:induction false} Column5InputNorthOf2()
    ensures RocksNorthOf("#.#..O#.##", 2) == 0
  {
    assert "#.#..O#.##"[..2] == "#.";
    CountIsMultiplicity("#.");
  }

  lemma {:induction false} Column5TiltedNorthOf2()
    ensures RocksNorthOf("#.#O..#.##", 2) == 0
  {
    assert "#.#O..#.##"[..2] == "#.";
    CountIsMultiplicity("#.");
  }

  lemma {:induction false} Column5End2()
    ensures RocksNorthOf("#.#..O#.##", 2) == RocksNorthOf("#.#O..#.##", 2)
  {
    Column5InputNorthOf2();
    Column5TiltedNorthOf2();
  }

  lemma {:induction false} Column5InputNorthOf6()
    ensures RocksNorthOf("#.#..O#.##", 6) == 1
  {
    assert "#.#..O#.##"[..6] == "#.#..O";
    CountIsMultiplicity("#.#..O");
  }

  lemma {:induction false} Column5TiltedNorthOf6()
    ensures RocksNorthOf("#.#O..#.##", 6) == 1
  {
    assert "#.#O..#.##"[..6] == "#.#O..";
    CountIsMultiplicity("#.#O..");
  }

  lemma {:induction false} Column5End6()
    ensures RocksNorthOf("#.#..O#.##", 6) == RocksNorthOf("#.#O..#.##", 6)
  {
    Column5InputNorthOf6();
    Column5TiltedNorthOf6();
  }

  lemma {:induction false} Column5InputNorthOf8()
    ensures RocksNorthOf("#.#..O#.##", 8) == 1
  {
    assert "#.#..O#.##"[..8] == "#.#..O#.";
    CountIsMultiplicity("#.#..O#.");
  }

  lemma {:induction false} Column5TiltedNorthOf8()
    ensures RocksNorthOf("#.#O..#.##", 8) == 1
  {
    assert "#.#O..#.##"[..8] == "#.#O..#.";
    CountIsMultiplicity("#.#O..#.");
  }

  lemma {:induction false} Column5End8()
    ensures RocksNorthOf("#.#..O#.##", 8) == RocksNorthOf("#.#O..#.##", 8)
  {
    Column5InputNorthOf8();
    Column5TiltedNorthOf8();
  }

  lemma {:induction false} Column5InputNorthOf9()
    ensures RocksNorthOf("#.#..O#.##", 9) == 1
  {
    assert "#.#..O#.##"[..9] == "#.#..O#.#";
    CountIsMultiplicity("#.#..O#.#");
  }

  lemma {:induction false} Column5TiltedNorthOf9()
    ensures RocksNorthOf("#.#O..#.##", 9) == 1
  {
    assert "#.#O..#.##"[..9] == "#.#O..#.#";
    CountIsMultiplicity("#.#O..#.#");
  }

  lemma {:induction false} Column5End9()
    ensures RocksNorthOf("#.#..O#.##", 9) == RocksNorthOf("#.#O..#.##", 9)
  {
    Column5InputNorthOf9();
    Column5TiltedNorthOf9();
  }

  lemma {:induction false} Column5InputNorthOf10()
    ensures RocksNorthOf("#.#..O#.##", 10) == 1
  {
    var u := "#.#..O#.##";
    assert u[..|u|] == u;
    CountIsMultiplicity(u);
  }

  lemma {:induction false} Column5TiltedNorthOf10()
    ensures RocksNorthOf("#.#O..#.##", 10) == 1
  {
    var u := "#.#O..#.##";
    assert u[..|u|] == u;
    CountIsMultiplicity(u);
  }

  lemma {:induction false} Column5End10()
    ensures RocksNorthOf("#.#..O#.##", 10) == RocksNorthOf("#.#O..#.##", 10)
  {
    Column5InputNorthOf10();
    Column5TiltedNorthOf10();
  }

  lemma {:induction false} ShapeColumn5()
    ensures SameShape("#.#..O#.##", "#.#O..#.##")
  {
  }

  lemma {:induction false} SettledColumn5()
    ensures Settled("#.#O..#.##")
  {
  }

  lemma {:induction false} CountsColumn5()
    ensures SameStretchCounts("#.#..O#.##", "#.#O..#.##")
  {
    var s := "#.#..O#.##";
    var t := "#.#O..#.##";
    forall r | 0 <= r <= |s| && StretchEnd(s, r)
      ensures RocksNorthOf(s, r) == RocksNorthOf(t, r)
    {
      assert r == 0 || r == 2 || r == 6 || r == 8 || r == 9 || r == 10;
      if r == 2 {
        Column5End2();
      } else if r == 6 {
        Column5End6();
      } else if r == 8 {
        Column5End8();
      } else if r == 9 {
        Column5End9();
      } else if r == 10 {
        Column5End10();
      }
    }
  }

  lemma {:induction false} TiltedColumn5()
    ensures TiltedFrom("#.#..O#.##", "#.#O..#.##")
  {
    ShapeColumn5();
    SettledColumn5();
    CountsColumn5();
  }

  /** Column 5 of the tilted example is the original column 5, tilted. */
  lemma {:induction false} ExampleColumn5()
    ensures Rectangular(ExampleRows) && Rectangular(TiltedRows) && 5 < Width(ExampleRows) == Width(TiltedRows)
    ensures TiltedFrom(ColumnOf(ExampleRows, 5), ColumnOf(TiltedRows, 5))
  {
    ExampleShape();
    assert ColumnOf(ExampleRows, 5) == "#.#..O#.##";
    assert ColumnOf(TiltedRows, 5) == "#.#O..#.##";
    TiltedColumn5();
  }

  lemma {:induction false} Column6InputNorthOf2()
    ensures RocksNorthOf("..#...O.#.", 2) == 0
  {
    assert "..#...O.#."[..2] == "..";
    CountIsMultiplicity("..");
  }

  lemma {:induction false} Column6TiltedNorthOf2()
    ensures RocksNorthOf("..#O....#.", 2) == 0
  {
    assert "..#O....#."[..2] == "..";
    CountIsMultiplicity("..");
  }

  lemma {:induction false} Column6End2()
    ensures RocksNorthOf("..#...O.#.", 2) == RocksNorthOf("..#O....#.", 2)
  {
    Column6InputNorthOf2();
    Column6TiltedNorthOf2();
  }

  lemma {:induction false} Column6InputNorthOf8()
    ensures RocksNorthOf("..#...O.#.", 8) == 1
  {
    assert "..#...O.#."[..8] == "..#...O.";
    CountIsMultiplicity("..#...O.");
  }

  lemma {:induction false} Column6TiltedNorthOf8()
    ensures RocksNorthOf("..#O....#.", 8) == 1
  {
    assert "..#O....#."[..8] == "..#O....";
    CountIsMultiplicity("..#O....");
  }

  lemma {:induction false} Column6End8()
    ensures RocksNorthOf("..#...O.#.", 8) == RocksNorthOf("..#O....#.", 8)
  {
    Column6InputNorthOf8();
    Column6TiltedNorthOf8();
  }

  lemma {:induction false} Column6InputNorthOf10()
    ensures RocksNorthOf("..#...O.#.", 10) == 1
  {
    var u := "..#...O.#.";
    assert u[..|u|] == u;
    CountIsMultiplicity(u);
  }

  lemma {:induction false} Column6TiltedNorthOf10()
    ensures RocksNorthOf("..#O....#.", 10) == 1
  {
    var u := "..#O....#.";
    assert u[..|u|] == u;
    CountIsMultiplicity(u);
  }

  lemma {:induction false} Column6End10()
    ensures RocksNorthOf("..#...O.#.", 10) == RocksNorthOf("..#O....#.", 10)
  {
    Column6InputNorthOf10();
    Column6TiltedNorthOf10();
  }

  lemma {:induction false} ShapeColumn6()
    ensures SameShape("..#...O.#.", "..#O....#.")
  {
  }

  lemma {:induction false} SettledColumn6()
    ensures Settled("..#O....#.")
  {
  }

  lemma {:induction false} CountsColumn6()
    ensures SameStretchCounts("..#...O.#.", "..#O....#.")
  {
    var s := "..#...O.#.";
    var t := "..#O....#.";
    forall r | 0 <= r <= |s| && StretchEnd(s, r)
      ensures RocksNorthOf(s, r) == RocksNorthOf(t, r)
    {
      assert r == 2 || r == 8 || r == 10;
      if r == 2 {
        Column6End2();
      } else if r == 8 {
        Column6End8();
      } else if r == 10 {
        Column6End10();
      }
    }
  }

  lemma {:induction false} TiltedColumn6()
    ensures TiltedFrom("..#...O.#.", "..#O....#.")
  {
    ShapeColumn6();
    SettledColumn6();
    CountsColumn6();
  }

  /** Column 6 of the tilted example is the original column 6, tilted. */
  lemma {:induction false} ExampleColumn6()
    ensures Rectangular(ExampleRows) && Rectangular(TiltedRows) && 6 < Width(ExampleRows) == Width(TiltedRows)
    ensures TiltedFrom(ColumnOf(ExampleRows, 6), ColumnOf(TiltedRows, 6))
  {
    ExampleShape();
    assert ColumnOf(ExampleRows, 6) == "..#...O.#.";
    assert ColumnOf(TiltedRows, 6) == "..#O....#.";
    TiltedColumn6();
  }

  lemma {:induction false} Column7InputNorthOf5()
    ensures RocksNorthOf("....O#.O#.", 5) == 1
  {
    assert "....O#.O#."[..5] == "....O";
    CountIsMultiplicity("....O");
  }

  lemma {:induction false} Column7TiltedNorthOf5()
    ensures RocksNorthOf("O....#O.#.", 5) == 1
  {
    assert "O....#O.#."[..5] == "O....";
    CountIsMultiplicity("O....");
  }

  lemma {:induction false} Column7End5()
    ensures RocksNorthOf("....O#.O#.", 5) == RocksNorthOf("O....#O.#.", 5)
  {
    Column7InputNorthOf5();
    Column7TiltedNorthOf5();
  }

  lemma {:induction false} Column7InputNorthOf8()
    ensures RocksNorthOf("....O#.O#.", 8) == 2
  {
    assert "....O#.O#."[..8] == "....O#.O";
    CountIsMultiplicity("....O#.O");
  }

  lemma {:induction false} Column7TiltedNorthOf8()
    ensures RocksNorthOf("O....#O.#.", 8) == 2
  {
    assert "O....#O.#."[..8] == "O....#O.";
    CountIsMultiplicity("O....#O.");
  }

  lemma {:induction false} Column7End8()
    ensures RocksNorthOf("....O#.O#.", 8) == RocksNorthOf("O....#O.#.", 8)
  {
    Column7InputNorthOf8();
    Column7TiltedNorthOf8();
  }

  lemma {:induction false} Column7InputNorthOf10()
    ensures RocksNorthOf("....O#.O#.", 10) == 2
  {
    var u := "....O#.O#.";
    assert u[..|u|] == u;
    CountIsMultiplicity(u);
  }

  lemma {:induction false} Column7TiltedNorthOf10()
    ensures RocksNorthOf("O....#O.#.", 10) == 2
  {
    var u := "O....#O.#.";
    assert u[..|u|] == u;
    CountIsMultiplicity(u);
  }

  lemma {:induction false} Column7End10()
    ensures RocksNorthOf("....O#.O#.", 10) == RocksNorthOf("O....#O.#.", 10)
  {
    Column7InputNorthOf10();
    Column7TiltedNorthOf10();
  }

  lemma {:induction false} ShapeColumn7()
    ensures SameShape("....O#.O#.", "O....#O.#.")
  {
  }

  lemma {:induction false} SettledColumn7()
    ensures Settled("O....#O.#.")
  {
  }

  lemma {:induction false} CountsColumn7()
    ensures SameStretchCounts("....O#.O#.", "O....#O.#.")
  {
    var s := "....O#.O#.";
    var t := "O....#O.#.";
    forall r | 0 <= r <= |s| && StretchEnd(s, r)
      ensures RocksNorthOf(s, r) == RocksNorthOf(t, r)
    {
      assert r == 5 || r == 8 || r == 10;
      if r == 5 {
        Column7End5();
      } else if r == 8 {
        Column7End8();
      } else if r == 10 {
        Column7End10();
      }
    }
  }

  lemma {:induction false} TiltedColumn7()
    ensures TiltedFrom("....O#.O#.", "O....#O.#.")
  {
    ShapeColumn7();
    SettledColumn7();
    CountsColumn7();
  }

  /** Column 7 of the tilted example is the original column 7, tilted. */
  lemma {:induction false} ExampleColumn7()
    ensures Rectangular(ExampleRows) && Rectangular(TiltedRows) && 7 < Width(ExampleRows) == Width(TiltedRows)
    ensures TiltedFrom(ColumnOf(ExampleRows, 7), ColumnOf(TiltedRows, 7))
  {
    ExampleShape();
    assert ColumnOf(ExampleRows, 7) == "....O#.O#.";
    assert ColumnOf(TiltedRows, 7) == "O....#O.#.";
    TiltedColumn7();
  }

  lemma {:induction false} Column8InputNorthOf4()
    ensures RocksNorthOf("....#.....", 4) == 0
  {
    assert "....#....."[..4] == "....";
    CountIsMultiplicity("....");
  }

  lemma {:induction false} Column8TiltedNorthOf4()
    ensures RocksNorthOf("....#.....", 4) == 0
  {
    assert "....#....."[..4] == "....";
    CountIsMultiplicity("....");
  }

  lemma {:induction false} Column8End4()
    ensures RocksNorthOf("....#.....", 4) == RocksNorthOf("....#.....", 4)
  {
    Column8InputNorthOf4();
    Column8TiltedNorthOf4();
  }

  lemma {:induction false} Column8InputNorthOf10()
    ensures RocksNorthOf("....#.....", 10) == 0
  {
    var u := "....#.....";
    assert u[..|u|] == u;
    CountIsMultiplicity(u);
  }

  lemma {:induction false} Column8TiltedNorthOf10()
    ensures RocksNorthOf("....#.....", 10) == 0
  {
    var u := "....#.....";
    assert u[..|u|] == u;
    CountIsMultiplicity(u);
  }

  lemma {:induction false} Column8End10()
    ensures RocksNorthOf("....#.....", 10) == RocksNorthOf("....#.....", 10)
  {
    Column8InputNorthOf10();
    Column8TiltedNorthOf10();
  }

  lemma {:induction false} ShapeColumn8()
    ensures SameShape("....#.....", "....#.....")
  {
  }

  lemma {:induction false} SettledColumn8()
    ensures Settled("....#.....")
  {
  }

  lemma {:induction false} CountsColumn8()
    ensures SameStretchCounts("....#.....", "....#.....")
  {
    var s := "....#.....";
    var t := "....#.....";
    forall r | 0 <= r <= |s| && StretchEnd(s, r)
      ensures RocksNorthOf(s, r) == RocksNorthOf(t, r)
    {
      assert r == 4 || r == 10;
      if r == 4 {
        Column8End4();
      } else if r == 10 {
        Column8End10();
      }
    }
  }

  lemma {:induction false} TiltedColumn8()
    ensures TiltedFrom("....#.....", "....#.....")
  {
    ShapeColumn8();
    SettledColumn8();
    CountsColumn8();
  }

  /** Column 8 of the tilted example is the original column 8, tilted. */
  lemma {:induction false} ExampleColumn8()
    ensures Rectangular(ExampleRows) && Rectangular(TiltedRows) && 8 < Width(ExampleRows) == Width(TiltedRows)
    ensures TiltedFrom(ColumnOf(ExampleRows, 8), ColumnOf(TiltedRows, 8))
  {
    ExampleShape();
    assert ColumnOf(ExampleRows, 8) == "....#.....";
    assert ColumnOf(TiltedRows, 8) == "....#.....";
    TiltedColumn8();
  }

  lemma {:induction false} Column9InputNorthOf1()
    ensures RocksNorthOf(".#.O.#O...", 1) == 0
  {
    assert ".#.O.#O..."[..1] == ".";
    CountIsMultiplicity(".");
  }

  lemma {:induction false} Column9TiltedNorthOf1()
    ensures RocksNorthOf(".#O..#O...", 1) == 0
  {
    assert ".#O..#O..."[..1] == ".";
    CountIsMultiplicity(".");
  }

  lemma {:induction false} Column9End1()
    ensures RocksNorthOf(".#.O.#O...", 1) == RocksNorthOf(".#O..#O...", 1)
  {
    Column9InputNorthOf1();
    Column9TiltedNorthOf1();
  }

  lemma {:induction false} Column9InputNorthOf5()
    ensures RocksNorthOf(".#.O.#O...", 5) == 1
  {
    assert ".#.O.#O..."[..5] == ".#.O.";
    CountIsMultiplicity(".#.O.");
  }

  lemma {:induction false} Column9TiltedNorthOf5()
    ensures RocksNorthOf(".#O..#O...", 5) == 1
  {
    assert ".#O..#O..."[..5] == ".#O..";
    CountIsMultiplicity(".#O..");
  }

  lemma {:induction false} Column9End5()
    ensures RocksNorthOf(".#.O.#O...", 5) == RocksNorthOf(".#O..#O...", 5)
  {
    Column9InputNorthOf5();
    Column9TiltedNorthOf5();
  }

  lemma {:induction false} Column9InputNorthOf10()
    ensures RocksNorthOf(".#.O.#O...", 10) == 2
  {
    var u := ".#.O.#O...";
    assert u[..|u|] == u;
    CountIsMultiplicity(u);
  }

  lemma {:induction false} Column9TiltedNorthOf10()
    ensures RocksNorthOf(".#O..#O...", 10) == 2
  {
    var u := ".#O..#O...";
    assert u[..|u|] == u;
    CountIsMultiplicity(u);
  }

  lemma {:induction false} Column9End10()
    ensures RocksNorthOf(".#.O.#O...", 10) == RocksNorthOf(".#O..#O...", 10)
  {
    Column9InputNorthOf10();
    Column9TiltedNorthOf10();
  }

  lemma {:induction false} ShapeColumn9()
    ensures SameShape(".#.O.#O...", ".#O..#O...")
  {
  }

  lemma {:induction false} SettledColumn9()
    ensures Settled(".#O..#O...")
  {
  }

  lemma {:induction false} CountsColumn9()
    ensures SameStretchCounts(".#.O.#O...", ".#O..#O...")
  {
    var s := ".#.O.#O...";
    var t := ".#O..#O...";
    forall r | 0 <= r <= |s| && StretchEnd(s, r)
      ensures RocksNorthOf(s, r) == RocksNorthOf(t, r)
    {
      assert r == 1 || r == 5 || r == 10;
      if r == 1 {
        Column9End1();
      } else if r == 5 {
        Column9End5();
      } else if r == 10 {
        Column9End10();
      }
    }
  }

  lemma {:induction false} TiltedColumn9()
    ensures TiltedFrom(".#.O.#O...", ".#O..#O...")
  {
    ShapeColumn9();
    SettledColumn9();
    CountsColumn9();
  }

  /** Column 9 of the tilted example is the original column 9, tilted. */
  lemma {:induction false} ExampleColumn9()
    ensures Rectangular(ExampleRows) && Rectangular(TiltedRows) && 9 < Width(ExampleRows) == Width(TiltedRows)
    ensures TiltedFrom(ColumnOf(ExampleRows, 9), ColumnOf(TiltedRows, 9))
  {
    ExampleShape();
    assert ColumnOf(ExampleRows, 9) == ".#.O.#O...";
    assert ColumnOf(TiltedRows, 9) == ".#O..#O...";
    TiltedColumn9();
  }

  /** Tilting the example platform north gives the tilted example platform. */
  lemma {:induction false} ExampleTilt()
    ensures Rectangular(ExampleRows) && TiltGrid(ExampleRows) == TiltedRows
  {
    ExampleShape();
    forall x | 0 <= x < 10 ensures TiltedFrom(ColumnOf(ExampleRows, x), ColumnOf(TiltedRows, x)) {
      if x == 0 {
        ExampleColumn0();
      }
      else if x == 1 {
        ExampleColumn1();
      }
      else if x == 2 {
        ExampleColumn2();
      }
      else if x == 3 {
        ExampleColumn3();
      }
      else if x == 4 {
        ExampleColumn4();
      }
      else if x == 5 {
        ExampleColumn5();
      }
      else if x == 6 {
        ExampleColumn6();
      }
      else if x == 7 {
        ExampleColumn7();
      }
      else if x == 8 {
        ExampleColumn8();
      }
      else {
        ExampleColumn9();
      }
    }
    TiltedGridIsTiltGrid(ExampleRows, TiltedRows);
  }


  lemma {:induction false} TiltedRowCount9()
    ensures CountRocks(TiltedRows[9]) == 0
  {
    CountIsMultiplicity(TiltedRows[9]);
  }

  lemma {:induction false} TiltedRowCount8()
    ensures CountRocks(TiltedRows[8]) == 0
  {
    CountIsMultiplicity(TiltedRows[8]);
  }

  lemma {:induction false} TiltedRowCount7()
    ensures CountRocks(TiltedRows[7]) == 1
  {
    CountIsMultiplicity(TiltedRows[7]);
  }

  lemma {:induction false} TiltedRowCount6()
    ensures CountRocks(TiltedRows[6]) == 3
  {
    CountIsMultiplicity(TiltedRows[6]);
  }

  lemma {:induction false} TiltedRowCount5()
    ensures CountRocks(TiltedRows[5]) == 0
  {
    CountIsMultiplicity(TiltedRows[5]);
  }

  lemma {:induction false} TiltedRowCount4()
    ensures CountRocks(TiltedRows[4]) == 0
  {
    CountIsMultiplicity(TiltedRows[4]);
  }

  lemma {:induction false} TiltedRowCount3()
    ensures CountRocks(TiltedRows[3]) == 3
  {
    CountIsMultiplicity(TiltedRows[3]);
  }

  lemma {:induction false} TiltedRowCount2()
    ensures CountRocks(TiltedRows[2]) == 4
  {
    CountIsMultiplicity(TiltedRows[2]);
  }

  lemma {:induction false} TiltedRowCount1()
    ensures CountRocks(TiltedRows[1]) == 2
  {
    CountIsMultiplicity(TiltedRows[1]);
  }

  lemma {:induction false} TiltedRowCount0()
    ensures CountRocks(TiltedRows[0]) == 5
  {
    CountIsMultiplicity(TiltedRows[0]);
  }

  lemma {:induction false} LoadStep(g: seq<seq<char>>, k: nat)
    requires k < |g|
    ensures CalculateLoad(g[k..]) == CountRocks(g[k]) * (|g| - k) + CalculateLoad(g[k + 1..])
  {
    assert g[k..][1..] == g[k + 1..];
  }
  /** The load of the tilted example platform, summed from the south edge up. */
  lemma {:induction false} TiltedLoad()
    ensures CalculateLoad(TiltedRows) == 136
  {
    assert TiltedRows[10..] == [];
    TiltedRowCount9();
    LoadStep(TiltedRows, 9);
    TiltedRowCount8();
    LoadStep(TiltedRows, 8);
    TiltedRowCount7();
    LoadStep(TiltedRows, 7);
    TiltedRowCount6();
    LoadStep(TiltedRows, 6);
    TiltedRowCount5();
    LoadStep(TiltedRows, 5);
    TiltedRowCount4();
    LoadStep(TiltedRows, 4);
    TiltedRowCount3();
    LoadStep(TiltedRows, 3);
    TiltedRowCount2();
    LoadStep(TiltedRows, 2);
    TiltedRowCount1();
    LoadStep(TiltedRows, 1);
    TiltedRowCount0();
    LoadStep(TiltedRows, 0);
    assert TiltedRows[0..] == TiltedRows;
  }

  /** The load of the tilted example platform is 136. */
  lemma {:induction false} ExamplePart1()
    ensures Rectangular(ExampleRows) && CalculateLoad(TiltGrid(ExampleRows)) == 136
  {
    ExampleTilt();
    TiltedLoad();
  }
}
