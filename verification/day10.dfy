/**
 * day_10.ts: a grid of pipe tiles with one start tile `S`. From the start
 * the walk follows the pipe, never stepping straight back to the tile it
 * came from, until it returns to the start; the answer is half the number of
 * tiles on the loop, the distance of the farthest one.
 *
 * The file declares its own coordinate class, identical in behaviour to
 * lib/Coordinate.ts; the model uses the shared `Coordinates.Coordinate`.
 */
module Day10 {
  import opened Outcomes
  import opened Text
  import opened Coordinates

  datatype Direction = N | S | W | E

  /** `oppositeDirection(direction)`. */
  function OppositeDirection(direction: Direction): (o: Direction)
    ensures o != direction
  {
    match direction
    case N => S
    case S => N
    case W => E
    case E => W
  }

  /** Turning round twice faces the original way. */
  lemma {:induction false} OppositeInvolution(direction: Direction)
    ensures OppositeDirection(OppositeDirection(direction)) == direction
  {
    match direction
    case N =>
    case S =>
    case W =>
    case E =>
  }

  /** `step(coordinate, direction)`: north is up (smaller `y`), west is left (smaller `x`). */
  function Step(coordinate: Coordinate, direction: Direction): (next: Coordinate)
    ensures ManhattanDistance(coordinate, next) == 1
    ensures (direction == N || direction == S) <==> next.x == coordinate.x
  {
    match direction
    case N => Coordinate(coordinate.x, coordinate.y - 1)
    case S => Coordinate(coordinate.x, coordinate.y + 1)
    case W => Coordinate(coordinate.x - 1, coordinate.y)
    case E => Coordinate(coordinate.x + 1, coordinate.y)
  }

  /** A step followed by a step in the opposite direction comes back; distinct directions lead to distinct cells. */
  lemma {:induction false} StepBack(coordinate: Coordinate, d: Direction, d': Direction)
    ensures Step(Step(coordinate, d), OppositeDirection(d)) == coordinate
    ensures Step(coordinate, d) == Step(coordinate, d') <==> d == d'
  {
    match d
    case N =>
    case S =>
    case W =>
    case E =>
  }

  /** `CONNECTIONS_FROM_TILE[tile]`: the directions a tile's pipe opens to; undefined for any other character. */
  function Connections(tile: char): (r: Option<seq<Direction>>)
    ensures r.Some? <==> tile in "|-LJ7F.S"
    ensures r.Some? && tile in "|-LJ7F" ==> |r.value| == 2 && r.value[0] != r.value[1]
    ensures r.Some? && tile == '.' ==> r.value == []
    ensures r.Some? && tile == 'S' ==> |r.value| == 4 && forall d: Direction :: d in r.value
  {
    match tile
    case '|' => Some([N, S])
    case '-' => Some([W, E])
    case 'L' => Some([N, E])
    case 'J' => Some([N, W])
    case '7' => Some([S, W])
    case 'F' => Some([S, E])
    case '.' => Some([])
    case 'S' =>
      assert forall d: Direction :: d in [N, S, W, E] by {
        forall d: Direction ensures d in [N, S, W, E] {
          DirectionCases(d);
        }
      }
      Some([N, S, W, E])
    case _ => None
  }

  lemma {:induction false} DirectionCases(d: Direction)
    ensures d in [N, S, W, E]
  {
    match d
    case N =>
    case S =>
    case W =>
    case E =>
  }

  /** `tileAt(coordinate)`: the character at the coordinate, undefined outside the lines. */
  function TileAt(lines: seq<string>, coordinate: Coordinate): (tile: Option<char>)
    ensures tile.Some? <==> 0 <= coordinate.y < |lines| && 0 <= coordinate.x < |lines[coordinate.y]|
    ensures tile.Some? ==> tile.value == lines[coordinate.y][coordinate.x]
  {
    if 0 <= coordinate.y < |lines| && 0 <= coordinate.x < |lines[coordinate.y]| then
      Some(lines[coordinate.y][coordinate.x])
    else
      None
  }

  /** The tile at `neighbor` has a pipe pointing back the way a step in `direction` came. */
  predicate ConnectsBack(lines: seq<string>, neighbor: Coordinate, direction: Direction) {
    && TileAt(lines, neighbor).Some?
    && Connections(TileAt(lines, neighbor).value).Some?
    && OppositeDirection(direction) in Connections(TileAt(lines, neighbor).value).value
  }

  /** Whether `getNeighbors` yields the step in `direction` from a cell holding `tile`: always, except that from `S` the neighbour must connect back. */
  predicate Accepts(lines: seq<string>, coordinate: Coordinate, tile: char, direction: Direction) {
    tile != 'S' || ConnectsBack(lines, Step(coordinate, direction), direction)
  }

  /** The neighbours yielded for the connections `conns` of a cell holding `tile`, in order. */
  function Yielded(lines: seq<string>, coordinate: Coordinate, tile: char, conns: seq<Direction>): (ns: seq<Coordinate>)
    ensures |ns| <= |conns|
  {
    if conns == [] then []
    else
      (if Accepts(lines, coordinate, tile, conns[0]) then [Step(coordinate, conns[0])] else [])
      + Yielded(lines, coordinate, tile, conns[1..])
  }

  /** The neighbours of a cell: none off the grid or on an unknown tile, otherwise those yielded for its connections. */
  function Neighbors(lines: seq<string>, coordinate: Coordinate): seq<Coordinate> {
    match TileAt(lines, coordinate)
    case None => []
    case Some(tile) =>
      match Connections(tile)
      case None => []
      case Some(conns) => Yielded(lines, coordinate, tile, conns)
  }

  /** `getNeighbors(coordinate)`: the generator's loop, collecting what it yields. */
  method GetNeighbors(lines: seq<string>, coordinate: Coordinate) returns (neighbors: seq<Coordinate>)
    ensures neighbors == Neighbors(lines, coordinate)
    ensures TileAt(lines, coordinate).None? ==> neighbors == []
    ensures TileAt(lines, coordinate).Some? && Connections(TileAt(lines, coordinate).value).None? ==> neighbors == []
  {
    var tile := TileAt(lines, coordinate);
    if tile.None? {
      return [];
    }
    var connections := Connections(tile.value);
    if connections.None? {
      return [];
    }
    var conns := connections.value;
    neighbors := [];
    for k := 0 to |conns|
      invariant Yielded(lines, coordinate, tile.value, conns) == neighbors + Yielded(lines, coordinate, tile.value, conns[k..])
    {
      YieldedStep(lines, coordinate, tile.value, conns, k);
      var connection := conns[k];
      var neighbor := Step(coordinate, connection);
      if tile.value == 'S' {
        var neighborTile := TileAt(lines, neighbor);
        if neighborTile.None? {
          continue;
        }
        var neighborConnections := Connections(neighborTile.value);
        if neighborConnections.None? {
          continue;
        }
        if OppositeDirection(connection) !in neighborConnections.value {
          continue;
        }
      }
      assert Accepts(lines, coordinate, tile.value, connection);
      neighbors := neighbors + [neighbor];
    }
  }

  /** One more connection of the loop of `getNeighbors`: its neighbour if accepted, then the rest. */
  lemma {:induction false} YieldedStep(lines: seq<string>, coordinate: Coordinate, tile: char, conns: seq<Direction>, k: nat)
    requires k < |conns|
    ensures forall before: seq<Coordinate> ::
      before + Yielded(lines, coordinate, tile, conns[k..])
      == (if Accepts(lines, coordinate, tile, conns[k]) then before + [Step(coordinate, conns[k])] else before)
         + Yielded(lines, coordinate, tile, conns[k + 1..])
  {
    assert conns[k..][1..] == conns[k + 1..];
  }

  /** The yielded neighbours are exactly the accepted steps. */
  lemma {:induction false} YieldedMembers(lines: seq<string>, coordinate: Coordinate, tile: char, conns: seq<Direction>, n: Coordinate)
    ensures n in Yielded(lines, coordinate, tile, conns)
      <==> exists i :: 0 <= i < |conns| && n == Step(coordinate, conns[i]) && Accepts(lines, coordinate, tile, conns[i])
  {
    if conns != [] {
      YieldedMembers(lines, coordinate, tile, conns[1..], n);
      if n in Yielded(lines, coordinate, tile, conns[1..]) {
        var i :| 0 <= i < |conns[1..]| && n == Step(coordinate, conns[1..][i]) && Accepts(lines, coordinate, tile, conns[1..][i]);
        assert conns[i + 1] == conns[1..][i];
      }
      if exists i :: 0 <= i < |conns| && n == Step(coordinate, conns[i]) && Accepts(lines, coordinate, tile, conns[i]) {
        var i :| 0 <= i < |conns| && n == Step(coordinate, conns[i]) && Accepts(lines, coordinate, tile, conns[i]);
        if i > 0 {
          assert conns[1..][i - 1] == conns[i];
        }
      }
    }
  }

  /** Away from the start tile every connection is yielded, in the order listed. */
  lemma {:induction false} YieldedPlain(lines: seq<string>, coordinate: Coordinate, tile: char, conns: seq<Direction>)
    requires tile != 'S'
    ensures |Yielded(lines, coordinate, tile, conns)| == |conns|
    ensures forall i :: 0 <= i < |conns| ==> Yielded(lines, coordinate, tile, conns)[i] == Step(coordinate, conns[i])
  {
    if conns != [] {
      YieldedPlain(lines, coordinate, tile, conns[1..]);
    }
  }

  /** A pipe tile other than the start yields one neighbour per listed connection, in order. */
  lemma {:induction false} PlainTileNeighbors(lines: seq<string>, coordinate: Coordinate)
    requires TileAt(lines, coordinate).Some? && TileAt(lines, coordinate).value != 'S'
    requires Connections(TileAt(lines, coordinate).value).Some?
    ensures var conns := Connections(TileAt(lines, coordinate).value).value;
      && |Neighbors(lines, coordinate)| == |conns|
      && forall i :: 0 <= i < |conns| ==> Neighbors(lines, coordinate)[i] == Step(coordinate, conns[i])
  {
    var tile := TileAt(lines, coordinate).value;
    YieldedPlain(lines, coordinate, tile, Connections(tile).value);
  }

  /** From the start tile, a neighbour is yielded exactly when it is on the grid and its pipe points back. */
  lemma {:induction false} StartTileNeighbors(lines: seq<string>, coordinate: Coordinate, n: Coordinate)
    requires TileAt(lines, coordinate) == Some('S')
    ensures n in Neighbors(lines, coordinate) <==> exists d :: n == Step(coordinate, d) && ConnectsBack(lines, n, d)
  {
    var conns := Connections('S').value;
    YieldedMembers(lines, coordinate, 'S', conns, n);
    if exists d :: n == Step(coordinate, d) && ConnectsBack(lines, n, d) {
      var d :| n == Step(coordinate, d) && ConnectsBack(lines, n, d);
      assert d in conns;
      var i :| 0 <= i < |conns| && conns[i] == d;
    }
  }

  /** Every neighbour is one step away. */
  lemma {:induction false} NeighborsAdjacent(lines: seq<string>, coordinate: Coordinate, n: Coordinate)
    requires n in Neighbors(lines, coordinate)
    ensures ManhattanDistance(coordinate, n) == 1
  {
    var tile := TileAt(lines, coordinate).value;
    YieldedMembers(lines, coordinate, tile, Connections(tile).value, n);
  }

  /** The first of `neighbors` that is not the previous node, as the inner `for … continue outer` picks it. */
  function FirstOther(neighbors: seq<Coordinate>, prev: Option<Coordinate>): (r: Option<Coordinate>)
    ensures r.Some? ==> r.value in neighbors && prev != Some(r.value)
    ensures r.None? <==> forall i :: 0 <= i < |neighbors| ==> prev == Some(neighbors[i])
  {
    if neighbors == [] then None
    else if prev == Some(neighbors[0]) then
      var r := FirstOther(neighbors[1..], prev);
      assert forall i :: 1 <= i < |neighbors| ==> neighbors[i] == neighbors[1..][i - 1];
      r
    else Some(neighbors[0])
  }

  /** How a walk moves on: from the current node, having come from the previous one (if any), to the next node (if any). */
  type Walker = (Coordinate, Option<Coordinate>) -> Option<Coordinate>

  /** The walker of `getNodesInLoop`: the first neighbour of the current node that is not the previous node. */
  function PipeWalker(lines: seq<string>): Walker {
    (current, prev) => FirstOther(Neighbors(lines, current), prev)
  }

  /** The node before node `i - 1` of a walk, if any. */
  function PrevAt(nodes: seq<Coordinate>, i: nat): Option<Coordinate>
    requires 1 <= i <= |nodes|
  {
    if i >= 2 then Some(nodes[i - 2]) else None
  }

  /** Where the walker goes after the last of `nodes`. */
  function Next(walker: Walker, nodes: seq<Coordinate>): Option<Coordinate>
    requires nodes != []
  {
    walker(nodes[|nodes| - 1], PrevAt(nodes, |nodes|))
  }

  /**
   * `nodes` is the walk from `start` so far: it begins at the start, each
   * later node is where the walker goes from the nodes before it, and none
   * of them is the start again.
   */
  ghost predicate Traces(walker: Walker, start: Coordinate, nodes: seq<Coordinate>) {
    && nodes != [] && nodes[0] == start
    && forall i :: 1 <= i < |nodes| ==> walker(nodes[i - 1], PrevAt(nodes, i)) == Some(nodes[i]) && nodes[i] != start
  }

  /** Every move of the walker is to an adjacent cell. */
  ghost predicate Adjacent(walker: Walker) {
    forall c, p :: walker(c, p).Some? ==> ManhattanDistance(c, walker(c, p).value) == 1
  }

  /** The pipe walker moves to an adjacent cell, and never straight back to the previous node. */
  lemma {:induction false} PipeWalkerMoves(lines: seq<string>)
    ensures Adjacent(PipeWalker(lines))
    ensures forall c, p :: PipeWalker(lines)(c, p).Some? ==> p != PipeWalker(lines)(c, p)
  {
    forall c, p | PipeWalker(lines)(c, p).Some?
      ensures ManhattanDistance(c, PipeWalker(lines)(c, p).value) == 1
    {
      NeighborsAdjacent(lines, c, PipeWalker(lines)(c, p).value);
    }
  }

  /** A traced walk never returns to the node it has just left. */
  lemma {:induction false} NeverStepsBack(lines: seq<string>, start: Coordinate, nodes: seq<Coordinate>)
    requires Traces(PipeWalker(lines), start, nodes)
    ensures forall i :: 2 <= i < |nodes| ==> nodes[i] != nodes[i - 2]
  {
    PipeWalkerMoves(lines);
    forall i | 2 <= i < |nodes| ensures nodes[i] != nodes[i - 2] {
      assert PipeWalker(lines)(nodes[i - 1], Some(nodes[i - 2])) == Some(nodes[i]);
    }
  }

  /** The generator `getNodesInLoop`, as the sequence it yields and how it ends. */
  datatype Walk =
    | Loop(nodes: seq<Coordinate>)        // back at the start: the do/while ends
    | Stuck(nodes: seq<Coordinate>)       // "No unvisited neighbors." is thrown
    | Unfinished(nodes: seq<Coordinate>)  // still walking after `fuel` nodes

  /** The inner `for (const neighbor of this.getNeighbors(currentNode))` loop: the first neighbour that is not the previous node. */
  method FirstUnvisited(neighbors: seq<Coordinate>, prev: Option<Coordinate>) returns (next: Option<Coordinate>)
    ensures next == FirstOther(neighbors, prev)
  {
    for k := 0 to |neighbors|
      invariant FirstOther(neighbors, prev) == FirstOther(neighbors[k..], prev)
    {
      assert neighbors[k..][1..] == neighbors[k + 1..];
      if prev == Some(neighbors[k]) {
        continue;
      }
      return Some(neighbors[k]);
    }
    return None;
  }

  /**
   * `getNodesInLoop(startCoordinate)`: the do/while walk, yielding each node
   * before moving on. The source walks without bound; the model stops after
   * `fuel` nodes.
   */
  method GetNodesInLoop(lines: seq<string>, start: Coordinate, fuel: nat) returns (walk: Walk)
    ensures Traces(PipeWalker(lines), start, walk.nodes)
    ensures walk.Loop? ==> Next(PipeWalker(lines), walk.nodes) == Some(start)
    ensures walk.Stuck? ==> Next(PipeWalker(lines), walk.nodes) == None
    ensures walk.Unfinished? ==> |walk.nodes| >= fuel && Next(PipeWalker(lines), walk.nodes).Some? && Next(PipeWalker(lines), walk.nodes) != Some(start)
  {
    var nodes := [start];
    var prevNode: Option<Coordinate> := None;
    var currentNode := start;
    while true
      invariant Traces(PipeWalker(lines), start, nodes) && 1 <= |nodes| <= fuel + 1
      invariant currentNode == nodes[|nodes| - 1] && prevNode == PrevAt(nodes, |nodes|)
      decreases fuel + 1 - |nodes|
    {
      var neighbors := GetNeighbors(lines, currentNode);
      var next := FirstUnvisited(neighbors, prevNode);
      assert next == Next(PipeWalker(lines), nodes);
      if next.None? {
        return Stuck(nodes);
      }
      if next.value == start {
        return Loop(nodes);
      }
      if |nodes| >= fuel {
        return Unfinished(nodes);
      }
      prevNode := Some(currentNode);
      currentNode := next.value;
      TracesExtend(PipeWalker(lines), start, nodes, currentNode);
      nodes := nodes + [currentNode];
    }
  }

  /** A walk continues by its next node when that node is not the start. */
  lemma {:induction false} TracesExtend(walker: Walker, start: Coordinate, nodes: seq<Coordinate>, n: Coordinate)
    requires Traces(walker, start, nodes) && Next(walker, nodes) == Some(n) && n != start
    ensures Traces(walker, start, nodes + [n])
  {
    var t := nodes + [n];
    forall i | 1 <= i < |t| ensures walker(t[i - 1], PrevAt(t, i)) == Some(t[i]) && t[i] != start {
      assert t[i - 1] == nodes[i - 1];
      assert PrevAt(t, i) == PrevAt(nodes, i);
    }
  }

  /** The colour of a cell on a chessboard colouring of the grid. */
  predicate Light(c: Coordinate) {
    (c.x + c.y) % 2 == 0
  }

  /** A step to an adjacent cell changes its colour. */
  lemma {:induction false} AdjacentColours(a: Coordinate, b: Coordinate)
    requires ManhattanDistance(a, b) == 1
    ensures Light(b) == !Light(a)
  {
  }

  /** `a` flipped `i` times. */
  function Flipped(a: bool, i: nat): bool {
    if i == 0 then a else !Flipped(a, i - 1)
  }

  /** Flipping returns to the start exactly after an even number of flips. */
  lemma {:induction false} FlippedBack(a: bool, i: nat)
    ensures Flipped(a, i) == a <==> i % 2 == 0
  {
    if i > 0 {
      FlippedBack(a, i - 1);
    }
  }

  /** Node i of a walk of adjacent moves has the start's colour flipped i times. */
  lemma {:induction false} WalkColours(walker: Walker, start: Coordinate, nodes: seq<Coordinate>, i: nat)
    requires Traces(walker, start, nodes) && Adjacent(walker) && i < |nodes|
    ensures Light(nodes[i]) == Flipped(Light(start), i)
  {
    if i > 0 {
      WalkColours(walker, start, nodes, i - 1);
      assert walker(nodes[i - 1], PrevAt(nodes, i)) == Some(nodes[i]);
      AdjacentColours(nodes[i - 1], nodes[i]);
    }
  }

  /** A walk of adjacent moves that closes back on its start has an even number of nodes, so halving it is exact. */
  lemma {:induction false} LoopLengthEven(walker: Walker, start: Coordinate, nodes: seq<Coordinate>)
    requires Traces(walker, start, nodes) && Adjacent(walker) && Next(walker, nodes) == Some(start)
    ensures |nodes| % 2 == 0
  {
    WalkColours(walker, start, nodes, |nodes| - 1);
    AdjacentColours(nodes[|nodes| - 1], start);
    FlippedBack(Light(start), |nodes|);
  }

  /** `c` is the first `S` of the lines in row-major order. */
  predicate IsFirstStart(lines: seq<string>, c: Coordinate) {
    && 0 <= c.y < |lines| && 0 <= c.x < |lines[c.y]| && lines[c.y][c.x] == 'S'
    && (forall y, x :: 0 <= y < c.y && 0 <= x < |lines[y]| ==> lines[y][x] != 'S')
    && (forall x :: 0 <= x < c.x ==> lines[c.y][x] != 'S')
  }

  /** `"S"` occurs at index j of s exactly when its j-th character is `S`. */
  lemma {:induction false} OccursAtS(s: string, j: nat)
    ensures OccursAt(s, "S", j) <==> j < |s| && s[j] == 'S'
  {
    if j < |s| {
      assert s[j..j + 1] == [s[j]];
    }
  }

  /** The start lookup of the `World` constructor: the first row holding `S`, at its first `S`. */
  method FindStart(lines: seq<string>) returns (r: Result<Coordinate>)
    ensures r.Ok? ==> IsFirstStart(lines, r.value)
    ensures r.Err? ==> r.message == "Could not find start coordinate."
    ensures r.Err? ==> forall y, x :: 0 <= y < |lines| && 0 <= x < |lines[y]| ==> lines[y][x] != 'S'
  {
    for i := 0 to |lines|
      invariant forall y, x :: 0 <= y < i && 0 <= x < |lines[y]| ==> lines[y][x] != 'S'
    {
      var startX := Find(lines[i], "S");
      if startX.Some? {
        OccursAtS(lines[i], startX.value);
        forall x | 0 <= x < startX.value ensures lines[i][x] != 'S' {
          OccursAtS(lines[i], x);
        }
        return Ok(Coordinate(startX.value, i));
      }
      forall x | 0 <= x < |lines[i]| ensures lines[i][x] != 'S' {
        OccursAtS(lines[i], x);
      }
    }
    return Err("Could not find start coordinate.");
  }

  /** The first `S` in row-major order is unique. */
  lemma {:induction false} FirstStartUnique(lines: seq<string>, a: Coordinate, b: Coordinate)
    requires IsFirstStart(lines, a) && IsFirstStart(lines, b)
    ensures a == b
  {
  }

  /** `World`: the lines of the trimmed input and the start coordinate, fixed at construction. */
  datatype World = World(lines: seq<string>, startCoordinate: Coordinate)

  /** `new World(input)`: split the trimmed input into lines and find the start, or fail. */
  method NewWorld(input: string) returns (r: Result<World>)
    ensures r.Ok? ==> r.value.lines == Split(TrimEnd(input), "\n") && IsFirstStart(r.value.lines, r.value.startCoordinate)
    ensures r.Err? ==> r == Err("Could not find start coordinate.")
    ensures r.Err? <==> !HasStart(Split(TrimEnd(input), "\n"))
  {
    var lines := Split(TrimEnd(input), "\n");
    var start := FindStart(lines);
    if start.Err? {
      return Err(start.message);
    }
    StartExists(lines, start.value);
    return Ok(World(lines, start.value));
  }

  /** Some line holds an `S`. */
  predicate HasStart(lines: seq<string>) {
    exists y, x :: 0 <= y < |lines| && 0 <= x < |lines[y]| && lines[y][x] == 'S'
  }

  /** The first start is a start. */
  lemma {:induction false} StartExists(lines: seq<string>, c: Coordinate)
    requires IsFirstStart(lines, c)
    ensures HasStart(lines)
  {
    assert lines[c.y][c.x] == 'S';
  }

  /**
   * `part1(input)`: half the number of nodes on the loop through the start.
   * `None` stands for a walk still going after `fuel` nodes.
   */
  method Part1(input: string, fuel: nat) returns (r: Option<Result<nat>>)
    ensures r == Some(Err("Could not find start coordinate.")) || r == Some(Err("No unvisited neighbors.")) || r.None? || r.value.Ok?
    ensures r == Some(Err("Could not find start coordinate.")) <==> !HasStart(Split(TrimEnd(input), "\n"))
    ensures r == Some(Err("No unvisited neighbors.")) ==>
      exists start, nodes ::
        && IsFirstStart(Split(TrimEnd(input), "\n"), start)
        && Traces(PipeWalker(Split(TrimEnd(input), "\n")), start, nodes)
        && Next(PipeWalker(Split(TrimEnd(input), "\n")), nodes) == None
    ensures r.None? ==>
      exists start, nodes ::
        && IsFirstStart(Split(TrimEnd(input), "\n"), start)
        && Traces(PipeWalker(Split(TrimEnd(input), "\n")), start, nodes)
        && |nodes| >= fuel
        && Next(PipeWalker(Split(TrimEnd(input), "\n")), nodes).Some?
        && Next(PipeWalker(Split(TrimEnd(input), "\n")), nodes) != Some(start)
    ensures r.Some? && r.value.Ok? ==>
      exists start, nodes ::
        && IsFirstStart(Split(TrimEnd(input), "\n"), start)
        && Traces(PipeWalker(Split(TrimEnd(input), "\n")), start, nodes)
        && Next(PipeWalker(Split(TrimEnd(input), "\n")), nodes) == Some(start)
        && 2 * r.value.value == |nodes|
  {
    var world := NewWorld(input);
    if world.Err? {
      return Some(Err(world.message));
    }
    var walk := GetNodesInLoop(world.value.lines, world.value.startCoordinate, fuel);
    match walk
    case Stuck(_) =>
      return Some(Err("No unvisited neighbors."));
    case Unfinished(_) =>
      return None;
    case Loop(nodes) =>
      PipeWalkerMoves(world.value.lines);
      LoopLengthEven(PipeWalker(world.value.lines), world.value.startCoordinate, nodes);
      return Some(Ok(|nodes| / 2));
  }
}
