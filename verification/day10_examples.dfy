/**
 * The worked example of day_10.ts: on the five rows of the test input the
 * walk from the start closes after 16 nodes, so `part1` answers 8.
 */
module Day10Examples {
  import opened Outcomes
  import opened Coordinates
  import opened Text
  import opened Day10

  /** The test input of day_10.ts, with its closing newline. */
  const TestInput: string := "7-F7-\n.FJ|7\nSJLL7\n|F--J\nLJ.LJ\n"

  const ExampleLines: seq<string> := ["7-F7-", ".FJ|7", "SJLL7", "|F--J", "LJ.LJ"]

  /** The loop through the start of the example, in the order the walk visits it. */
  const ExampleLoop: seq<Coordinate> := [Coordinate(0, 2), Coordinate(0, 3), Coordinate(0, 4), Coordinate(1, 4), Coordinate(1, 3), Coordinate(2, 3), Coordinate(3, 3), Coordinate(4, 3), Coordinate(4, 2), Coordinate(3, 2), Coordinate(3, 1), Coordinate(3, 0), Coordinate(2, 0), Coordinate(2, 1), Coordinate(1, 1), Coordinate(1, 2)]

  /** The neighbours of a cell whose tile, connections and yield are known. */
  lemma {:induction false} NeighborsAre(lines: seq<string>, c: Coordinate, tile: char, conns: seq<Direction>, ns: seq<Coordinate>)
    requires TileAt(lines, c) == Some(tile) && Connections(tile) == Some(conns) && Yielded(lines, c, tile, conns) == ns
    ensures Neighbors(lines, c) == ns
  {
  }

  /** Four connections of which the second and the fourth are accepted yield those two steps. */
  lemma {:induction false} YieldedSecondAndFourth(lines: seq<string>, c: Coordinate, tile: char, conns: seq<Direction>)
    requires |conns| == 4
    requires !Accepts(lines, c, tile, conns[0]) && Accepts(lines, c, tile, conns[1])
    requires !Accepts(lines, c, tile, conns[2]) && Accepts(lines, c, tile, conns[3])
    ensures Yielded(lines, c, tile, conns) == [Step(c, conns[1]), Step(c, conns[3])]
  {
    assert conns[1..][1..] == conns[2..] && conns[2..][1..] == conns[3..] && conns[3..][1..] == [];
    assert Yielded(lines, c, tile, conns[3..]) == [Step(c, conns[3])];
    assert Yielded(lines, c, tile, conns[2..]) == [Step(c, conns[3])];
  }

  /** A two-pipe tile has the two cells its pipes lead to as neighbours. */
  lemma {:induction false} PipeNeighbors(lines: seq<string>, c: Coordinate, tile: char, d0: Direction, d1: Direction)
    requires 0 <= c.y < |lines| && 0 <= c.x < |lines[c.y]| && lines[c.y][c.x] == tile
    requires tile != 'S' && Connections(tile) == Some([d0, d1])
    ensures Neighbors(lines, c) == [Step(c, d0), Step(c, d1)]
  {
    PlainTileNeighbors(lines, c);
  }

  /** Arriving through the first pipe of a two-pipe tile, the walker leaves through the second. */
  lemma {:induction false} LeaveBySecond(lines: seq<string>, c: Coordinate, tile: char, d0: Direction, d1: Direction)
    requires 0 <= c.y < |lines| && 0 <= c.x < |lines[c.y]| && lines[c.y][c.x] == tile
    requires tile != 'S' && Connections(tile) == Some([d0, d1])
    ensures PipeWalker(lines)(c, Some(Step(c, d0))) == Some(Step(c, d1))
  {
    PipeNeighbors(lines, c, tile, d0, d1);
    StepBack(c, d0, d1);
    var ns := [Step(c, d0), Step(c, d1)];
    assert ns[1..] == [Step(c, d1)];
    assert FirstOther(ns, Some(Step(c, d0))) == FirstOther([Step(c, d1)], Some(Step(c, d0)));
  }

  /** Arriving from anywhere but the first pipe of a two-pipe tile, the walker leaves through the first. */
  lemma {:induction false} LeaveByFirst(lines: seq<string>, c: Coordinate, tile: char, d0: Direction, d1: Direction, prev: Option<Coordinate>)
    requires 0 <= c.y < |lines| && 0 <= c.x < |lines[c.y]| && lines[c.y][c.x] == tile
    requires tile != 'S' && Connections(tile) == Some([d0, d1])
    requires prev != Some(Step(c, d0))
    ensures PipeWalker(lines)(c, prev) == Some(Step(c, d0))
  {
    PipeNeighbors(lines, c, tile, d0, d1);
  }

  /** A start tile whose pipes below and to the right connect back, and no others, moves down first. */
  lemma {:induction false} StartMove(lines: seq<string>, c: Coordinate)
    requires TileAt(lines, c) == Some('S')
    requires !Accepts(lines, c, 'S', N) && Accepts(lines, c, 'S', S)
    requires !Accepts(lines, c, 'S', W) && Accepts(lines, c, 'S', E)
    ensures PipeWalker(lines)(c, None) == Some(Step(c, S))
  {
    YieldedSecondAndFourth(lines, c, 'S', [N, S, W, E]);
    NeighborsAre(lines, c, 'S', [N, S, W, E], [Step(c, S), Step(c, E)]);
  }

  lemma {:induction false} StartRejectsNorth(lines: seq<string>)
    requires 0 <= 1 < |lines| && 0 <= 0 < |lines[1]| && lines[1][0] == '.'
    ensures !Accepts(lines, Coordinate(0, 2), 'S', N)
  {
    assert TileAt(lines, Coordinate(0, 1)) == Some('.');
  }

  lemma {:induction false} StartAcceptsSouth(lines: seq<string>)
    requires 0 <= 3 < |lines| && 0 <= 0 < |lines[3]| && lines[3][0] == '|'
    ensures Accepts(lines, Coordinate(0, 2), 'S', S)
  {
    assert TileAt(lines, Coordinate(0, 3)) == Some('|');
  }

  lemma {:induction false} StartRejectsWest(lines: seq<string>)
    ensures !Accepts(lines, Coordinate(0, 2), 'S', W)
  {
    assert TileAt(lines, Coordinate(-1, 2)) == None;
  }

  lemma {:induction false} StartAcceptsEast(lines: seq<string>)
    requires 0 <= 2 < |lines| && 0 <= 1 < |lines[2]| && lines[2][1] == 'J'
    ensures Accepts(lines, Coordinate(0, 2), 'S', E)
  {
    assert TileAt(lines, Coordinate(1, 2)) == Some('J');
  }

  /** From the start, the pipes below and to the right connect back; above is ground and to the left is the edge. */
  lemma {:induction false} Move0(lines: seq<string>)
    requires 0 <= 2 < |lines| && 0 <= 0 < |lines[2]| && lines[2][0] == 'S'
    requires 0 <= 1 < |lines| && 0 <= 0 < |lines[1]| && lines[1][0] == '.'
    requires 0 <= 3 < |lines| && 0 <= 0 < |lines[3]| && lines[3][0] == '|'
    requires 0 <= 2 < |lines| && 0 <= 1 < |lines[2]| && lines[2][1] == 'J'
    ensures PipeWalker(lines)(Coordinate(0, 2), None) == Some(Coordinate(0, 3))
  {
    StartRejectsNorth(lines);
    StartAcceptsSouth(lines);
    StartRejectsWest(lines);
    StartAcceptsEast(lines);
    StartMove(lines, Coordinate(0, 2));
  }

  lemma {:induction false} Move1(lines: seq<string>)
    requires 0 <= 3 < |lines| && 0 <= 0 < |lines[3]| && lines[3][0] == '|'
    ensures PipeWalker(lines)(Coordinate(0, 3), Some(Coordinate(0, 2))) == Some(Coordinate(0, 4))
  {
    LeaveBySecond(lines, Coordinate(0, 3), '|', N, S);
  }

  lemma {:induction false} Move2(lines: seq<string>)
    requires 0 <= 4 < |lines| && 0 <= 0 < |lines[4]| && lines[4][0] == 'L'
    ensures PipeWalker(lines)(Coordinate(0, 4), Some(Coordinate(0, 3))) == Some(Coordinate(1, 4))
  {
    LeaveBySecond(lines, Coordinate(0, 4), 'L', N, E);
  }

  lemma {:induction false} Move3(lines: seq<string>)
    requires 0 <= 4 < |lines| && 0 <= 1 < |lines[4]| && lines[4][1] == 'J'
    ensures PipeWalker(lines)(Coordinate(1, 4), Some(Coordinate(0, 4))) == Some(Coordinate(1, 3))
  {
    LeaveByFirst(lines, Coordinate(1, 4), 'J', N, W, Some(Coordinate(0, 4)));
  }

  lemma {:induction false} Move4(lines: seq<string>)
    requires 0 <= 3 < |lines| && 0 <= 1 < |lines[3]| && lines[3][1] == 'F'
    ensures PipeWalker(lines)(Coordinate(1, 3), Some(Coordinate(1, 4))) == Some(Coordinate(2, 3))
  {
    LeaveBySecond(lines, Coordinate(1, 3), 'F', S, E);
  }

  lemma {:induction false} Move5(lines: seq<string>)
    requires 0 <= 3 < |lines| && 0 <= 2 < |lines[3]| && lines[3][2] == '-'
    ensures PipeWalker(lines)(Coordinate(2, 3), Some(Coordinate(1, 3))) == Some(Coordinate(3, 3))
  {
    LeaveBySecond(lines, Coordinate(2, 3), '-', W, E);
  }

  lemma {:induction false} Move6(lines: seq<string>)
    requires 0 <= 3 < |lines| && 0 <= 3 < |lines[3]| && lines[3][3] == '-'
    ensures PipeWalker(lines)(Coordinate(3, 3), Some(Coordinate(2, 3))) == Some(Coordinate(4, 3))
  {
    LeaveBySecond(lines, Coordinate(3, 3), '-', W, E);
  }

  lemma {:induction false} Move7(lines: seq<string>)
    requires 0 <= 3 < |lines| && 0 <= 4 < |lines[3]| && lines[3][4] == 'J'
    ensures PipeWalker(lines)(Coordinate(4, 3), Some(Coordinate(3, 3))) == Some(Coordinate(4, 2))
  {
    LeaveByFirst(lines, Coordinate(4, 3), 'J', N, W, Some(Coordinate(3, 3)));
  }

  lemma {:induction false} Move8(lines: seq<string>)
    requires 0 <= 2 < |lines| && 0 <= 4 < |lines[2]| && lines[2][4] == '7'
    ensures PipeWalker(lines)(Coordinate(4, 2), Some(Coordinate(4, 3))) == Some(Coordinate(3, 2))
  {
    LeaveBySecond(lines, Coordinate(4, 2), '7', S, W);
  }

  lemma {:induction false} Move9(lines: seq<string>)
    requires 0 <= 2 < |lines| && 0 <= 3 < |lines[2]| && lines[2][3] == 'L'
    ensures PipeWalker(lines)(Coordinate(3, 2), Some(Coordinate(4, 2))) == Some(Coordinate(3, 1))
  {
    LeaveByFirst(lines, Coordinate(3, 2), 'L', N, E, Some(Coordinate(4, 2)));
  }

  lemma {:induction false} Move10(lines: seq<string>)
    requires 0 <= 1 < |lines| && 0 <= 3 < |lines[1]| && lines[1][3] == '|'
    ensures PipeWalker(lines)(Coordinate(3, 1), Some(Coordinate(3, 2))) == Some(Coordinate(3, 0))
  {
    LeaveByFirst(lines, Coordinate(3, 1), '|', N, S, Some(Coordinate(3, 2)));
  }

  lemma {:induction false} Move11(lines: seq<string>)
    requires 0 <= 0 < |lines| && 0 <= 3 < |lines[0]| && lines[0][3] == '7'
    ensures PipeWalker(lines)(Coordinate(3, 0), Some(Coordinate(3, 1))) == Some(Coordinate(2, 0))
  {
    LeaveBySecond(lines, Coordinate(3, 0), '7', S, W);
  }

  lemma {:induction false} Move12(lines: seq<string>)
    requires 0 <= 0 < |lines| && 0 <= 2 < |lines[0]| && lines[0][2] == 'F'
    ensures PipeWalker(lines)(Coordinate(2, 0), Some(Coordinate(3, 0))) == Some(Coordinate(2, 1))
  {
    LeaveByFirst(lines, Coordinate(2, 0), 'F', S, E, Some(Coordinate(3, 0)));
  }

  lemma {:induction false} Move13(lines: seq<string>)
    requires 0 <= 1 < |lines| && 0 <= 2 < |lines[1]| && lines[1][2] == 'J'
    ensures PipeWalker(lines)(Coordinate(2, 1), Some(Coordinate(2, 0))) == Some(Coordinate(1, 1))
  {
    LeaveBySecond(lines, Coordinate(2, 1), 'J', N, W);
  }

  lemma {:induction false} Move14(lines: seq<string>)
    requires 0 <= 1 < |lines| && 0 <= 1 < |lines[1]| && lines[1][1] == 'F'
    ensures PipeWalker(lines)(Coordinate(1, 1), Some(Coordinate(2, 1))) == Some(Coordinate(1, 2))
  {
    LeaveByFirst(lines, Coordinate(1, 1), 'F', S, E, Some(Coordinate(2, 1)));
  }

  lemma {:induction false} Move15(lines: seq<string>)
    requires 0 <= 2 < |lines| && 0 <= 1 < |lines[2]| && lines[2][1] == 'J'
    ensures PipeWalker(lines)(Coordinate(1, 2), Some(Coordinate(1, 1))) == Some(Coordinate(0, 2))
  {
    LeaveBySecond(lines, Coordinate(1, 2), 'J', N, W);
  }

  /** The example loop with its start again at the end. */
  function ClosedAt(i: nat): Coordinate
    requires i <= 16
  {
    if i < 16 then ExampleLoop[i] else ExampleLoop[0]
  }

  /** The walker goes round the example loop: move i leaves node i - 1 for node i, and the last move closes the loop. */
  ghost predicate GoesRound(walker: Walker) {
    forall i :: 1 <= i <= 16 ==> walker(ExampleLoop[i - 1], PrevAt(ExampleLoop, i)) == Some(ClosedAt(i))
  }

  /** The sixteen moves, one by one, make the walker go round. */
  lemma {:induction false} MovesGoRound(walker: Walker)
    requires walker(Coordinate(0, 2), None) == Some(Coordinate(0, 3))
    requires walker(Coordinate(0, 3), Some(Coordinate(0, 2))) == Some(Coordinate(0, 4))
    requires walker(Coordinate(0, 4), Some(Coordinate(0, 3))) == Some(Coordinate(1, 4))
    requires walker(Coordinate(1, 4), Some(Coordinate(0, 4))) == Some(Coordinate(1, 3))
    requires walker(Coordinate(1, 3), Some(Coordinate(1, 4))) == Some(Coordinate(2, 3))
    requires walker(Coordinate(2, 3), Some(Coordinate(1, 3))) == Some(Coordinate(3, 3))
    requires walker(Coordinate(3, 3), Some(Coordinate(2, 3))) == Some(Coordinate(4, 3))
    requires walker(Coordinate(4, 3), Some(Coordinate(3, 3))) == Some(Coordinate(4, 2))
    requires walker(Coordinate(4, 2), Some(Coordinate(4, 3))) == Some(Coordinate(3, 2))
    requires walker(Coordinate(3, 2), Some(Coordinate(4, 2))) == Some(Coordinate(3, 1))
    requires walker(Coordinate(3, 1), Some(Coordinate(3, 2))) == Some(Coordinate(3, 0))
    requires walker(Coordinate(3, 0), Some(Coordinate(3, 1))) == Some(Coordinate(2, 0))
    requires walker(Coordinate(2, 0), Some(Coordinate(3, 0))) == Some(Coordinate(2, 1))
    requires walker(Coordinate(2, 1), Some(Coordinate(2, 0))) == Some(Coordinate(1, 1))
    requires walker(Coordinate(1, 1), Some(Coordinate(2, 1))) == Some(Coordinate(1, 2))
    requires walker(Coordinate(1, 2), Some(Coordinate(1, 1))) == Some(Coordinate(0, 2))
    ensures GoesRound(walker)
  {
  }

  /** `lines` holds the same characters as `picture`, row by row. */
  predicate Depicts(lines: seq<string>, picture: seq<string>) {
    && |lines| == |picture|
    && forall y :: 0 <= y < |picture| ==> |lines[y]| == |picture[y]| && forall x :: 0 <= x < |picture[y]| ==> lines[y][x] == picture[y][x]
  }

  /** On rows like the example's, the pipe walker goes round the example loop. */
  lemma {:induction false} ExampleGoesRound(lines: seq<string>)
    requires Depicts(lines, ExampleLines)
    ensures GoesRound(PipeWalker(lines))
  {
    Move0(lines);
    Move1(lines);
    Move2(lines);
    Move3(lines);
    Move4(lines);
    Move5(lines);
    Move6(lines);
    Move7(lines);
    Move8(lines);
    Move9(lines);
    Move10(lines);
    Move11(lines);
    Move12(lines);
    Move13(lines);
    Move14(lines);
    Move15(lines);
    MovesGoRound(PipeWalker(lines));
  }

  /** A walk from the example's start follows the example loop for as long as it has nodes, up to 16. */
  lemma {:induction false} FollowsExampleLoop(walker: Walker, nodes: seq<Coordinate>, k: nat)
    requires GoesRound(walker) && Traces(walker, Coordinate(0, 2), nodes)
    requires k <= |nodes| && k <= 16
    ensures forall j :: 0 <= j < k ==> nodes[j] == ExampleLoop[j]
  {
    if k > 1 {
      FollowsExampleLoop(walker, nodes, k - 1);
      assert walker(nodes[k - 2], PrevAt(nodes, k - 1)) == Some(nodes[k - 1]);
      assert PrevAt(nodes, k - 1) == PrevAt(ExampleLoop, k - 1);
    }
  }

  /** The example loop passes its start only once. */
  lemma {:induction false} StartOnlyFirst(i: nat)
    requires 1 <= i < 16
    ensures ExampleLoop[i] != Coordinate(0, 2)
  {
  }

  /** Move i of the example loop. */
  lemma {:induction false} RoundAt(walker: Walker, i: nat)
    requires GoesRound(walker) && 1 <= i <= 16
    ensures walker(ExampleLoop[i - 1], PrevAt(ExampleLoop, i)) == Some(ClosedAt(i))
  {
  }

  /** Move i of a traced walk. */
  lemma {:induction false} TracesAt(walker: Walker, start: Coordinate, nodes: seq<Coordinate>, i: nat)
    requires Traces(walker, start, nodes) && 1 <= i < |nodes|
    ensures walker(nodes[i - 1], PrevAt(nodes, i)) == Some(nodes[i]) && nodes[i] != start
  {
  }

  /** A walk from the example's start that closes has exactly the 16 nodes of the example loop. */
  lemma {:induction false} ExampleWalk(walker: Walker, nodes: seq<Coordinate>)
    requires GoesRound(walker) && Traces(walker, Coordinate(0, 2), nodes)
    requires Next(walker, nodes) == Some(Coordinate(0, 2))
    ensures nodes == ExampleLoop
  {
    if |nodes| < 16 {
      FollowsExampleLoop(walker, nodes, |nodes|);
      RoundAt(walker, |nodes|);
      StartOnlyFirst(|nodes|);
    } else if |nodes| > 16 {
      FollowsExampleLoop(walker, nodes, 16);
      TracesAt(walker, Coordinate(0, 2), nodes, 16);
      RoundAt(walker, 16);
    } else {
      FollowsExampleLoop(walker, nodes, 16);
    }
  }

  /** The start of the example is its only `S`, in the first column of the third row. */
  lemma {:induction false} ExampleStart()
    ensures IsFirstStart(ExampleLines, Coordinate(0, 2))
  {
  }

  /** The worked example: on the test input's rows, a walk that closes gives 8. */
  lemma {:induction false} ExamplePart1(start: Coordinate, nodes: seq<Coordinate>, answer: nat)
    requires IsFirstStart(ExampleLines, start)
    requires Traces(PipeWalker(ExampleLines), start, nodes) && Next(PipeWalker(ExampleLines), nodes) == Some(start)
    requires 2 * answer == |nodes|
    ensures answer == 8
  {
    ExampleStart();
    FirstStartUnique(ExampleLines, start, Coordinate(0, 2));
    ExampleGoesRound(ExampleLines);
    ExampleWalk(PipeWalker(ExampleLines), nodes);
  }

  /** The test input without its closing newline: the example rows joined by newlines. */
  const ExampleText: string := "7-F7-\n.FJ|7\nSJLL7\n|F--J\nLJ.LJ"

  /** `trimEnd` drops exactly the closing newline of the test input. */
  lemma {:induction false} TestInputTrimmed()
    ensures TrimEnd(TestInput) == ExampleText
  {
    assert TestInput[..|TestInput| - 1] == ExampleText;
    assert IsWhitespace(TestInput[|TestInput| - 1]);
    assert !IsWhitespace(ExampleText[|ExampleText| - 1]);
  }

  /** Joining the example rows by newlines gives the trimmed test input. */
  lemma {:induction false} ExampleRowsJoined()
    ensures Join(ExampleLines, "\n") == ExampleText
  {
    var rows := ExampleLines;
    assert Join(rows[4..], "\n") == rows[4];
    assert Join(rows[3..], "\n") == rows[3] + "\n" + rows[4];
    assert Join(rows[2..], "\n") == rows[2] + "\n" + (rows[3] + "\n" + rows[4]);
    assert Join(rows[1..], "\n") == rows[1] + "\n" + (rows[2] + "\n" + (rows[3] + "\n" + rows[4]));
  }

  /** The trimmed test input splits into the five example rows. */
  lemma {:induction false} TestInputLines()
    ensures Split(TrimEnd(TestInput), "\n") == ExampleLines
  {
    TestInputTrimmed();
    ExampleRowsJoined();
    forall k | 0 <= k < |ExampleLines| ensures '\n' !in ExampleLines[k] { }
    SplitJoin(ExampleLines, '\n');
  }

  /**
   * Every walk from the example's start is a prefix of the example loop of
   * at most 16 nodes, and the walker always moves on from its last node: back
   * to the start once all 16 are walked.
   */
  lemma {:induction false} ExampleWalkMovesOn(walker: Walker, nodes: seq<Coordinate>)
    requires GoesRound(walker) && Traces(walker, Coordinate(0, 2), nodes)
    ensures |nodes| <= 16 && Next(walker, nodes) == Some(ClosedAt(|nodes|))
  {
    if |nodes| > 16 {
      RoundAt(walker, 16);
      FollowsExampleLoop(walker, nodes, 16);
      TracesAt(walker, Coordinate(0, 2), nodes, 16);
      assert false;
    } else {
      FollowsExampleLoop(walker, nodes, |nodes|);
      RoundAt(walker, |nodes|);
      assert PrevAt(nodes, |nodes|) == PrevAt(ExampleLoop, |nodes|);
    }
  }

  /** `part1(TEST_INPUT)` is 8: the walk closes within 16 nodes, so the bound is never reached. */
  method ExampleRun() returns (r: Option<Result<nat>>)
    ensures r == Some(Ok(8))
  {
    r := Part1(TestInput, 16);
    TestInputLines();
    var start := Coordinate(0, 2);
    ExampleStart();
    StartExists(ExampleLines, start);
    assert Depicts(ExampleLines, ExampleLines);
    ExampleGoesRound(ExampleLines);
    ghost var walker := PipeWalker(ExampleLines);
    forall s, nodes | IsFirstStart(ExampleLines, s) && Traces(walker, s, nodes)
      ensures Next(walker, nodes).Some? && (|nodes| >= 16 ==> Next(walker, nodes) == Some(s))
    {
      FirstStartUnique(ExampleLines, s, start);
      ExampleWalkMovesOn(walker, nodes);
    }
    ghost var s, nodes :| IsFirstStart(ExampleLines, s) && Traces(walker, s, nodes) && Next(walker, nodes) == Some(s) && 2 * r.value.value == |nodes|;
    ExamplePart1(s, nodes, r.value.value);
  }
}
