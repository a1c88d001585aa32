/**
 * day_16.ts: a beam of light enters a grid of mirrors (`/`, `\`) and
 * splitters (`|`, `-`) at the top-left cell heading right. The world keeps,
 * per cell, the set of directions in which a beam has already crossed it; a
 * worklist of (cell, direction) beams is processed until empty, and the
 * answer is the number of cells crossed by at least one beam.
 */
module Day16 {
  import opened Outcomes
  import opened Text
  import opened Coordinates
  import opened ComplexKeyMaps

  /** Up, down, left and right; `y` grows downward. */
  datatype Direction = U | D | L | R

  /** A beam: the cell it is about to enter and the direction it travels in. */
  type Beam = (Coordinate, Direction)

  /** The beam the run starts from: the top-left cell, heading right. */
  const Start: Beam := (Coordinate(0, 0), R)

  /** `directionToCoordinate(direction)`: the unit step of a direction. */
  function DirectionToCoordinate(direction: Direction): (c: Coordinate)
    ensures Abs(c.x) + Abs(c.y) == 1
    ensures c.x == 0 <==> Vertical(direction)
  {
    match direction
    case U => Coordinate(0, -1)
    case D => Coordinate(0, 1)
    case L => Coordinate(-1, 0)
    case R => Coordinate(1, 0)
  }

  predicate Vertical(direction: Direction) {
    direction == U || direction == D
  }

  function Opposite(direction: Direction): Direction {
    match direction
    case U => D
    case D => U
    case L => R
    case R => L
  }

  /** Distinct directions step differently, and opposite directions step by opposite vectors. */
  lemma {:induction false} StepsDistinct(a: Direction, b: Direction)
    ensures DirectionToCoordinate(a) == DirectionToCoordinate(b) <==> a == b
    ensures DirectionToCoordinate(Opposite(a)) == Coordinate(-DirectionToCoordinate(a).x, -DirectionToCoordinate(a).y)
  {
  }

  /** The five tiles of the contraption. */
  predicate ValidTile(tile: char) {
    tile == '.' || tile == '/' || tile == '\\' || tile == '|' || tile == '-'
  }

  /** `beamDirectionsAfterTile(direction, tile)`: the directions leaving a tile entered in `direction`. */
  function BeamDirectionsAfterTile(direction: Direction, tile: char): (r: Result<seq<Direction>>)
    ensures r.Err? <==> !ValidTile(tile)
    ensures r.Err? ==> r.message == "Invalid tile"
    ensures r.Ok? ==> 1 <= |r.value| <= 2 && (|r.value| == 2 ==> r.value[0] != r.value[1])
  {
    match tile
    case '.' => Ok([direction])
    case '/' =>
      (match direction
       case U => Ok([R])
       case D => Ok([L])
       case L => Ok([D])
       case R => Ok([U]))
    case '\\' =>
      (match direction
       case U => Ok([L])
       case D => Ok([R])
       case L => Ok([U])
       case R => Ok([D]))
    case '|' =>
      (match direction
       case U => Ok([U])
       case D => Ok([D])
       case L => Ok([U, D])
       case R => Ok([U, D]))
    case '-' =>
      (match direction
       case U => Ok([L, R])
       case D => Ok([L, R])
       case L => Ok([L])
       case R => Ok([R]))
    case _ => Err("Invalid tile")
  }

  /**
   * An empty cell lets the beam through; a mirror sends it on in exactly one
   * direction, the step vector (x, y) becoming (-y, -x) at `/` and (y, x) at
   * `\`; and a mirror reflects a beam sent back the way it came back along its
   * original path.
   */
  lemma {:induction false} MirrorsReflect(direction: Direction)
    ensures BeamDirectionsAfterTile(direction, '.') == Ok([direction])
    ensures var v := DirectionToCoordinate(direction);
      && BeamDirectionsAfterTile(direction, '/').Ok? && |BeamDirectionsAfterTile(direction, '/').value| == 1
      && DirectionToCoordinate(BeamDirectionsAfterTile(direction, '/').value[0]) == Coordinate(-v.y, -v.x)
      && BeamDirectionsAfterTile(direction, '\\').Ok? && |BeamDirectionsAfterTile(direction, '\\').value| == 1
      && DirectionToCoordinate(BeamDirectionsAfterTile(direction, '\\').value[0]) == Coordinate(v.y, v.x)
    ensures forall tile :: tile == '/' || tile == '\\' ==>
      var out := BeamDirectionsAfterTile(direction, tile).value[0];
      BeamDirectionsAfterTile(Opposite(out), tile) == Ok([Opposite(direction)])
  {
  }

  /**
   * A splitter lets a beam along its axis through and splits a beam across
   * it into the two directions of its axis.
   */
  lemma {:induction false} SplittersSplit(direction: Direction)
    ensures BeamDirectionsAfterTile(direction, '|') == if Vertical(direction) then Ok([direction]) else Ok([U, D])
    ensures BeamDirectionsAfterTile(direction, '-') == if Vertical(direction) then Ok([L, R]) else Ok([direction])
  {
  }

  /** The cell exists in the geometry: a row index and a column inside that row. */
  predicate InGrid(geometry: seq<string>, c: Coordinate) {
    0 <= c.y < |geometry| && 0 <= c.x < |geometry[c.y]|
  }

  /** The beams that leave a beam's cell, each headed for the neighbouring cell in its direction. */
  function Successors(geometry: seq<string>, b: Beam): (next: seq<Beam>)
    ensures forall q :: q in next ==> q.0 == Add(b.0, DirectionToCoordinate(q.1))
  {
    if !InGrid(geometry, b.0) then []
    else
      match BeamDirectionsAfterTile(b.1, geometry[b.0.y][b.0.x])
      case Err(_) => []
      case Ok(ds) => Departures(b.0, ds)
  }

  /** The beams that leave `coordinate` in the directions `ds`, in order. */
  function Departures(coordinate: Coordinate, ds: seq<Direction>): (next: seq<Beam>)
    ensures |next| == |ds|
    ensures forall i :: 0 <= i < |ds| ==> next[i] == (Add(coordinate, DirectionToCoordinate(ds[i])), ds[i])
  {
    seq(|ds|, i requires 0 <= i < |ds| => (Add(coordinate, DirectionToCoordinate(ds[i])), ds[i]))
  }

  /** The `for (const newBeamDirection of newBeamDirections)` loop of `run()`: push one beam per direction. */
  method PushDepartures(beams: seq<Beam>, coordinate: Coordinate, ds: seq<Direction>) returns (pushed: seq<Beam>)
    ensures pushed == beams + Departures(coordinate, ds)
  {
    pushed := beams;
    for k := 0 to |ds|
      invariant pushed == beams + Departures(coordinate, ds[..k])
    {
      assert ds[..k + 1] == ds[..k] + [ds[k]];
      pushed := pushed + [(Add(coordinate, DirectionToCoordinate(ds[k])), ds[k])];
    }
    assert ds[..|ds|] == ds;
  }

  /**
   * Beam `q` leaves the cell of beam `b`: the cell is in the grid, its tile
   * sends the beam on in `q`'s direction, and `q` enters the neighbouring
   * cell in that direction.
   */
  ghost predicate Leads(geometry: seq<string>, b: Beam, q: Beam) {
    && InGrid(geometry, b.0)
    && BeamDirectionsAfterTile(b.1, geometry[b.0.y][b.0.x]).Ok?
    && q.1 in BeamDirectionsAfterTile(b.1, geometry[b.0.y][b.0.x]).value
    && q.0 == Add(b.0, DirectionToCoordinate(q.1))
  }

  /** The successors of a beam are the beams it leads to. */
  lemma {:induction false} SuccessorsLead(geometry: seq<string>, b: Beam, q: Beam)
    ensures q in Successors(geometry, b) <==> Leads(geometry, b, q)
  {
    if Leads(geometry, b, q) {
      var ds := BeamDirectionsAfterTile(b.1, geometry[b.0.y][b.0.x]).value;
      var i :| 0 <= i < |ds| && ds[i] == q.1;
      assert Successors(geometry, b)[i] == q;
    }
  }

  /**
   * The order in which beams were processed justifies each of them: all lie
   * in the grid, and each is the start beam or follows from an earlier one.
   */
  ghost predicate Justified(geometry: seq<string>, trail: seq<Beam>) {
    && (forall i :: 0 <= i < |trail| ==> InGrid(geometry, trail[i].0))
    && (forall i :: 0 <= i < |trail| ==> JustifiedAt(geometry, trail, i))
  }

  /** The beam at index `i` is the start beam or leaves the cell of an earlier beam. */
  ghost predicate JustifiedAt(geometry: seq<string>, trail: seq<Beam>, i: int)
    requires 0 <= i < |trail|
  {
    trail[i] == Start || exists j :: 0 <= j < i && Leads(geometry, trail[j], trail[i])
  }

  /** `q` is the start beam or a successor of one of `earlier`. */
  ghost predicate Supported(geometry: seq<string>, earlier: seq<Beam>, q: Beam) {
    q == Start || exists j :: 0 <= j < |earlier| && Leads(geometry, earlier[j], q)
  }

  /** Every successor inside the grid of a beam of `s` is in `s`. */
  ghost predicate Closed(geometry: seq<string>, s: set<Beam>) {
    forall b, q :: b in s && Leads(geometry, b, q) && InGrid(geometry, q.0) ==> q in s
  }

  /** A set of beams that contains the start beam when it is in the grid. */
  ghost predicate HasStart(geometry: seq<string>, s: set<Beam>) {
    InGrid(geometry, Start.0) ==> Start in s
  }

  /** The beams of a trail, as a set. */
  function Elements(trail: seq<Beam>): (s: set<Beam>)
    ensures forall b :: b in s <==> b in trail
  {
    set b | b in trail
  }

  /**
   * A justified trail stays inside every closed set that holds the start
   * beam: the beams a run energizes are all forced.
   */
  lemma {:induction false} JustifiedWithin(geometry: seq<string>, trail: seq<Beam>, s: set<Beam>)
    requires Justified(geometry, trail) && Closed(geometry, s) && HasStart(geometry, s)
    ensures Elements(trail) <= s
  {
    JustifiedPrefixWithin(geometry, trail, s, |trail|);
  }

  /** The first `k` beams of a justified trail lie in every closed set holding the start beam. */
  lemma {:induction false} JustifiedPrefixWithin(geometry: seq<string>, trail: seq<Beam>, s: set<Beam>, k: nat)
    requires Justified(geometry, trail) && Closed(geometry, s) && HasStart(geometry, s)
    requires k <= |trail|
    ensures forall i :: 0 <= i < k ==> trail[i] in s
  {
    if k > 0 {
      JustifiedPrefixWithin(geometry, trail, s, k - 1);
      assert JustifiedAt(geometry, trail, k - 1);
      if trail[k - 1] != Start {
        var j :| 0 <= j < k - 1 && Leads(geometry, trail[j], trail[k - 1]);
        assert InGrid(geometry, trail[k - 1].0);
      }
    }
  }

  /** The beams of a complete run: justified, closed, and holding the start beam. */
  ghost predicate CompleteTrail(geometry: seq<string>, trail: seq<Beam>) {
    Justified(geometry, trail) && Closed(geometry, Elements(trail)) && HasStart(geometry, Elements(trail))
  }

  /**
   * The energized beams of a complete run are the least closed set holding
   * the start beam, so they do not depend on the order of the worklist.
   */
  lemma {:induction false} CompleteTrailsAgree(geometry: seq<string>, t1: seq<Beam>, t2: seq<Beam>)
    requires CompleteTrail(geometry, t1) && CompleteTrail(geometry, t2)
    ensures Elements(t1) == Elements(t2)
    ensures Cells(t1) == Cells(t2)
  {
    JustifiedWithin(geometry, t1, Elements(t2));
    JustifiedWithin(geometry, t2, Elements(t1));
  }

  /** The cells that beams of the trail cross. */
  function Cells(trail: seq<Beam>): (s: set<Coordinate>)
    ensures forall c :: c in s <==> exists d :: (c, d) in trail
  {
    set b | b in trail :: b.0
  }

  /** The beam sets of the map hold exactly the beams of the trail. */
  ghost predicate Records(state: map<Coordinate, set<Direction>>, trail: seq<Beam>) {
    forall b: Beam :: b in trail <==> b.0 in state && b.1 in state[b.0]
  }

  /**
   * The state of a world: an entry for exactly the cells of the grid, and
   * beam sets holding exactly the beams of a justified trail with no
   * repetition.
   */
  ghost predicate WorldState(geometry: seq<string>, state: map<Coordinate, set<Direction>>, trail: seq<Beam>) {
    && (forall c :: c in state <==> InGrid(geometry, c))
    && Distinct(trail)
    && Records(state, trail)
    && Justified(geometry, trail)
  }

  predicate Distinct(trail: seq<Beam>) {
    forall i, j :: 0 <= i < j < |trail| ==> trail[i] != trail[j]
  }

  /** Energizing a beam that is in the grid, new, and supported keeps the world state. */
  lemma {:induction false} EnergizeKeepsState(geometry: seq<string>, state: map<Coordinate, set<Direction>>, trail: seq<Beam>, k: Coordinate, d: Direction)
    requires WorldState(geometry, state, trail)
    requires k in state && d !in state[k] && Supported(geometry, trail, (k, d))
    ensures WorldState(geometry, state[k := state[k] + {d}], trail + [(k, d)])
  {
    JustifiedExtend(geometry, trail, (k, d));
    assert (k, d) !in trail;
  }

  /** The number of cells with a non-empty beam set (`filter(size > 0)` counted by `reduce`). */
  function CountNonEmpty(state: map<Coordinate, set<Direction>>): (n: nat)
    ensures n <= |state|
  {
    var energized := set c | c in state && state[c] != {};
    assert energized <= state.Keys;
    SubsetCardinality(energized, state.Keys);
    |energized|
  }

  lemma {:induction false} SubsetCardinality(a: set<Coordinate>, b: set<Coordinate>)
    requires a <= b
    ensures |a| <= |b|
  {
    assert b == a + (b - a);
  }

  /**
   * The contraption: its rows, the beam set of every cell (the source keeps
   * them in a ComplexKeyMap under the cell's text form, which is a faithful
   * key by `Coordinates.ToStringInjective`), and, as ghost state, the beams
   * the run has processed, in order.
   */
  class World {
    const geometry: seq<string>
    var state: map<Coordinate, set<Direction>>
    ghost var trail: seq<Beam>

    ghost predicate Valid()
      reads this
    {
      WorldState(geometry, state, trail)
    }

    /** `new World(geometry)`: every cell of every row gets an empty beam set. */
    constructor (geometry: seq<string>)
      ensures Valid() && this.geometry == geometry && trail == []
      ensures forall c :: c in state <==> InGrid(geometry, c)
      ensures forall c :: c in state ==> state[c] == {}
    {
      this.geometry := geometry;
      var cells: map<Coordinate, set<Direction>> := map[];
      for y := 0 to |geometry|
        invariant forall c :: c in cells <==> InGrid(geometry, c) && c.y < y
        invariant forall c :: c in cells ==> cells[c] == {}
      {
        for x := 0 to |geometry[y]|
          invariant forall c :: c in cells <==> InGrid(geometry, c) && (c.y < y || (c.y == y && c.x < x))
          invariant forall c :: c in cells ==> cells[c] == {}
        {
          cells := cells[Coordinate(x, y) := {}];
        }
      }
      state := cells;
      trail := [];
    }

    /** `run()`: process the worklist until it is empty; an invalid tile stops the run with its error. */
    method Run() returns (failure: Option<string>)
      requires Valid()
      modifies this
      ensures Valid()
      ensures |old(trail)| <= |trail| && old(trail) == trail[..|old(trail)|]
      ensures failure.Some? ==>
        && failure == Some("Invalid tile")
        && exists i :: |old(trail)| <= i < |trail| && !ValidTile(geometry[trail[i].0.y][trail[i].0.x])
      ensures failure.None? ==> forall i :: |old(trail)| <= i < |trail| ==> ValidTile(geometry[trail[i].0.y][trail[i].0.x])
      ensures failure.None? && old(Closed(geometry, Elements(trail))) ==> CompleteTrail(geometry, trail)
    {
      ghost var wasClosed := Closed(geometry, Elements(trail));
      ghost var before := trail;
      var beams: seq<Beam> := [Start];
      while beams != []
        invariant Valid() && Progress(geometry, before, trail, beams, wasClosed)
        decreases AllBeams(geometry) - Elements(trail), |beams|
      {
        ghost var visited := trail;
        beams, failure := Visit(before, wasClosed, beams);
        if failure.Some? {
          assert !ValidTile(geometry[trail[|visited|].0.y][trail[|visited|].0.x]);
          return;
        }
        if trail != visited {
          UnprocessedShrinks(geometry, visited, trail);
        }
      }
      failure := None;
      if wasClosed {
        FinishedRunComplete(geometry, trail);
      }
    }

    /**
     * One turn of the `run()` loop: pop a beam and drop it when it leaves the
     * grid or its cell has already seen that direction; otherwise enter it.
     */
    method Visit(ghost before: seq<Beam>, ghost wasClosed: bool, beams: seq<Beam>) returns (rest: seq<Beam>, failure: Option<string>)
      requires Valid() && beams != [] && Progress(geometry, before, trail, beams, wasClosed)
      modifies this
      ensures Valid()
      ensures
        || (trail == old(trail) && |rest| < |beams| && failure.None?)
        || (&& |trail| == |old(trail)| + 1 && trail[..|old(trail)|] == old(trail)
            && trail[|old(trail)|] in AllBeams(geometry) && trail[|old(trail)|] !in old(trail))
      ensures failure.Some? ==>
        && failure == Some("Invalid tile") && |trail| == |old(trail)| + 1
        && !ValidTile(geometry[trail[|old(trail)|].0.y][trail[|old(trail)|].0.x])
      ensures failure.None? ==> Progress(geometry, before, trail, rest, wasClosed)
    {
      var coordinate, direction := beams[|beams| - 1].0, beams[|beams| - 1].1;
      rest := beams[..|beams| - 1];
      assert beams == rest + [(coordinate, direction)];
      if coordinate !in state {
        if wasClosed {
          DropOffGrid(geometry, trail, beams);
        }
        return rest, None;
      }
      if direction in state[coordinate] {
        if wasClosed {
          DropVisited(geometry, trail, beams);
        }
        return rest, None;
      }
      assert Supported(geometry, trail, beams[|beams| - 1]);
      rest, failure := Enter(before, wasClosed, rest, coordinate, direction);
    }

    /**
     * The rest of a turn of the `run()` loop for a beam that is new to its
     * cell: add its direction to the cell's beam set, then push one beam per
     * direction the tile sends it on, or fail on an invalid tile.
     */
    method Enter(ghost before: seq<Beam>, ghost wasClosed: bool, front: seq<Beam>, coordinate: Coordinate, direction: Direction)
      returns (rest: seq<Beam>, failure: Option<string>)
      requires Valid() && coordinate in state && direction !in state[coordinate]
      requires Progress(geometry, before, trail, front + [(coordinate, direction)], wasClosed)
      modifies this
      ensures Valid() && trail == old(trail) + [(coordinate, direction)]
      ensures (coordinate, direction) in AllBeams(geometry) && (coordinate, direction) !in old(trail)
      ensures failure.Some? ==> failure == Some("Invalid tile") && !ValidTile(geometry[coordinate.y][coordinate.x])
      ensures failure.None? ==> Progress(geometry, before, trail, rest, wasClosed)
    {
      ghost var earlier := trail;
      assert (coordinate, direction) !in trail;
      InAllBeams(geometry, (coordinate, direction));
      assert Supported(geometry, trail, (front + [(coordinate, direction)])[|front|]);
      Energize(coordinate, direction);
      var cell := geometry[coordinate.y][coordinate.x];
      var newBeamDirections := BeamDirectionsAfterTile(direction, cell);
      if newBeamDirections.Err? {
        return front, Some(newBeamDirections.message);
      }
      rest := PushDepartures(front, coordinate, newBeamDirections.value);
      VisitProgress(geometry, before, earlier, front, (coordinate, direction), wasClosed);
      failure := None;
    }

    /** `state.get(c).beams.add(d)`: one more direction in a cell's beam set, and one more beam on the trail. */
    method Energize(coordinate: Coordinate, direction: Direction)
      requires Valid() && coordinate in state && direction !in state[coordinate]
      requires Supported(geometry, trail, (coordinate, direction))
      modifies this
      ensures Valid() && trail == old(trail) + [(coordinate, direction)]
      ensures state == old(state)[coordinate := old(state)[coordinate] + {direction}]
    {
      EnergizeKeepsState(geometry, state, trail, coordinate, direction);
      state := state[coordinate := state[coordinate] + {direction}];
      trail := trail + [(coordinate, direction)];
    }

    /** `countEnergizedCells()`: how many cells hold a non-empty beam set. */
    function CountEnergizedCells(): (count: nat)
      reads this
      requires Valid()
      ensures count == |Cells(trail)|
      ensures count <= |state|
    {
      assert (set c | c in state && state[c] != {}) == Cells(trail) by {
        forall c | c in state && state[c] != {} ensures c in Cells(trail) {
          var d :| d in state[c];
          assert (c, d) in trail;
        }
      }
      CountNonEmpty(state)
    }
  }

  /**
   * The loop invariant of `run()`: the trail extends the one the run started
   * from, every beam in the worklist is supported by the trail, every newly
   * processed cell holds a valid tile, and, when the run started from a closed
   * trail, every successor of a processed beam is processed or pending.
   */
  ghost predicate Progress(geometry: seq<string>, before: seq<Beam>, trail: seq<Beam>, beams: seq<Beam>, wasClosed: bool) {
    && |before| <= |trail| && before == trail[..|before|]
    && (forall k :: 0 <= k < |beams| ==> Supported(geometry, trail, beams[k]))
    && (forall i :: |before| <= i < |trail| ==> InGrid(geometry, trail[i].0) && ValidTile(geometry[trail[i].0.y][trail[i].0.x]))
    && (wasClosed ==> Pending(geometry, trail, beams) && HasStart(geometry, Elements(trail) + Elements(beams)))
  }

  /** Processing beam `x` with a valid tile and pushing its successors keeps the loop invariant. */
  lemma {:induction false} VisitProgress(geometry: seq<string>, before: seq<Beam>, trail: seq<Beam>, front: seq<Beam>, x: Beam, wasClosed: bool)
    requires Progress(geometry, before, trail, front + [x], wasClosed)
    requires InGrid(geometry, x.0) && ValidTile(geometry[x.0.y][x.0.x])
    ensures Progress(geometry, before, trail + [x], front + Successors(geometry, x), wasClosed)
  {
    var t := trail + [x];
    var beams := front + Successors(geometry, x);
    assert t[..|before|] == trail[..|before|];
    assert forall k :: 0 <= k < |beams| ==> Supported(geometry, t, beams[k]) by {
      SupportedAfterVisit(geometry, trail, front, x);
    }
    assert forall i :: |before| <= i < |t| ==> InGrid(geometry, t[i].0) && ValidTile(geometry[t[i].0.y][t[i].0.x]) by {
      assert t[|trail|] == x;
    }
    assert wasClosed ==> Pending(geometry, t, beams) && HasStart(geometry, Elements(t) + Elements(beams)) by {
      PendingVisit(geometry, trail, front, x);
    }
  }

  /** The beams left in the worklist, and the successors of the processed beam, are supported by the longer trail. */
  lemma {:induction false} SupportedAfterVisit(geometry: seq<string>, trail: seq<Beam>, front: seq<Beam>, x: Beam)
    requires forall k :: 0 <= k < |front| + 1 ==> Supported(geometry, trail, (front + [x])[k])
    ensures forall k :: 0 <= k < |front + Successors(geometry, x)| ==> Supported(geometry, trail + [x], (front + Successors(geometry, x))[k])
  {
    var t := trail + [x];
    var beams := front + Successors(geometry, x);
    forall k | 0 <= k < |beams| ensures Supported(geometry, t, beams[k]) {
      if k < |front| {
        assert Supported(geometry, trail, (front + [x])[k]);
        SupportedGrows(geometry, trail, x, beams[k]);
      } else {
        assert t[|trail|] == x;
        SuccessorsLead(geometry, x, beams[k]);
      }
    }
  }

  /** A run that started from a closed trail and emptied its worklist has a complete trail. */
  lemma {:induction false} FinishedRunComplete(geometry: seq<string>, trail: seq<Beam>)
    requires Justified(geometry, trail) && Pending(geometry, trail, [])
    requires HasStart(geometry, Elements(trail) + Elements([]))
    ensures CompleteTrail(geometry, trail)
  {
    assert Elements(trail) + Elements([]) == Elements(trail);
  }

  /** Processing a new beam of the grid takes it out of the beams still to process. */
  lemma {:induction false} UnprocessedShrinks(geometry: seq<string>, trail: seq<Beam>, next: seq<Beam>)
    requires |next| == |trail| + 1 && next[..|trail|] == trail
    requires next[|trail|] in AllBeams(geometry) && next[|trail|] !in trail
    ensures AllBeams(geometry) - Elements(next) < AllBeams(geometry) - Elements(trail)
  {
    var x := next[|trail|];
    assert next == trail + [x];
    assert x in AllBeams(geometry) - Elements(trail);
  }

  /** Every successor inside the grid of a beam of the trail is on the trail or still in the worklist. */
  ghost predicate Pending(geometry: seq<string>, trail: seq<Beam>, beams: seq<Beam>) {
    forall b, q :: b in trail && Leads(geometry, b, q) && InGrid(geometry, q.0) ==> q in trail || q in beams
  }

  lemma {:induction false} DropOffGrid(geometry: seq<string>, trail: seq<Beam>, popped: seq<Beam>)
    requires popped != [] && !InGrid(geometry, popped[|popped| - 1].0)
    requires Pending(geometry, trail, popped)
    ensures Pending(geometry, trail, popped[..|popped| - 1])
  {
    assert popped == popped[..|popped| - 1] + [popped[|popped| - 1]];
  }

  lemma {:induction false} DropVisited(geometry: seq<string>, trail: seq<Beam>, popped: seq<Beam>)
    requires popped != [] && popped[|popped| - 1] in trail
    requires Pending(geometry, trail, popped)
    ensures Pending(geometry, trail, popped[..|popped| - 1])
  {
    assert popped == popped[..|popped| - 1] + [popped[|popped| - 1]];
  }

  /** Taking beam `x` from the worklist onto the trail and pushing its successors keeps the pending property. */
  lemma {:induction false} PendingVisit(geometry: seq<string>, trail: seq<Beam>, front: seq<Beam>, x: Beam)
    ensures Pending(geometry, trail, front + [x]) ==> Pending(geometry, trail + [x], front + Successors(geometry, x))
    ensures HasStart(geometry, Elements(trail) + Elements(front + [x]))
      ==> HasStart(geometry, Elements(trail + [x]) + Elements(front + Successors(geometry, x)))
  {
    forall q | Leads(geometry, x, q) ensures q in Successors(geometry, x) {
      SuccessorsLead(geometry, x, q);
    }
  }

  lemma {:induction false} SupportedGrows(geometry: seq<string>, trail: seq<Beam>, x: Beam, q: Beam)
    requires Supported(geometry, trail, q)
    ensures Supported(geometry, trail + [x], q)
  {
    if q != Start {
      var j :| 0 <= j < |trail| && Leads(geometry, trail[j], q);
      assert (trail + [x])[j] == trail[j];
    }
  }

  lemma {:induction false} JustifiedExtend(geometry: seq<string>, trail: seq<Beam>, x: Beam)
    requires Justified(geometry, trail) && InGrid(geometry, x.0) && Supported(geometry, trail, x)
    ensures Justified(geometry, trail + [x])
  {
    var t := trail + [x];
    forall i | 0 <= i < |t| ensures JustifiedAt(geometry, t, i) {
      if i < |trail| {
        assert JustifiedAt(geometry, trail, i);
        if trail[i] != Start {
          var j :| 0 <= j < i && Leads(geometry, trail[j], trail[i]);
          assert t[j] == trail[j];
        }
      } else if x != Start {
        var j :| 0 <= j < |trail| && Leads(geometry, trail[j], x);
        assert t[j] == trail[j];
      }
    }
  }

  lemma {:induction false} InAllBeams(geometry: seq<string>, b: Beam)
    requires InGrid(geometry, b.0)
    ensures b in AllBeams(geometry)
  {
    var c := b.0;
    assert b.1 in {U, D, L, R} by {
      match b.1
      case U =>
      case D =>
      case L =>
      case R =>
    }
    assert b == (Coordinate(c.x, c.y), b.1);
  }

  /**
   * `part1(input)`: build the world from the lines of the trimmed input, run
   * the beams, and count the energized cells; the count is that of a complete
   * run, which every worklist order agrees on.
   */
  method Part1(input: string) returns (r: Result<nat>)
    ensures r.Err? ==> r == Err("Invalid tile")
    ensures r.Err? <==> ReachesInvalidTile(Split(TrimEnd(input), "\n"))
    ensures r.Ok? ==> exists trail :: CompleteTrail(Split(TrimEnd(input), "\n"), trail) && r.value == |Cells(trail)|
  {
    var world := new World(Split(TrimEnd(input), "\n"));
    var failure := world.Run();
    if failure.Some? {
      ghost var i :| 0 <= i < |world.trail| && !ValidTile(world.geometry[world.trail[i].0.y][world.trail[i].0.x]);
      assert HitsInvalidTile(world.geometry, world.trail);
      return Err(failure.value);
    }
    ValidTilesOnly(world.geometry, world.trail);
    r := Ok(world.CountEnergizedCells());
  }

  /** Some beam of the trail stands on a cell whose tile is not one of the five. */
  ghost predicate HitsInvalidTile(geometry: seq<string>, trail: seq<Beam>) {
    exists i :: 0 <= i < |trail| && InGrid(geometry, trail[i].0) && !ValidTile(geometry[trail[i].0.y][trail[i].0.x])
  }

  /** A beam that a run from the start beam can reach stands on an invalid tile. */
  ghost predicate ReachesInvalidTile(geometry: seq<string>) {
    exists trail :: Justified(geometry, trail) && HitsInvalidTile(geometry, trail)
  }

  /**
   * When a complete run meets only valid tiles, no beam a run can reach
   * stands on an invalid tile: every justified trail lies within the
   * complete one.
   */
  lemma {:induction false} ValidTilesOnly(geometry: seq<string>, t: seq<Beam>)
    requires CompleteTrail(geometry, t)
    requires forall i :: 0 <= i < |t| ==> ValidTile(geometry[t[i].0.y][t[i].0.x])
    ensures !ReachesInvalidTile(geometry)
  {
    forall u: seq<Beam> | Justified(geometry, u) ensures !HitsInvalidTile(geometry, u) {
      JustifiedWithin(geometry, u, Elements(t));
      forall i | 0 <= i < |u| && InGrid(geometry, u[i].0) ensures ValidTile(geometry[u[i].0.y][u[i].0.x]) {
        assert u[i] in Elements(t);
        var j :| 0 <= j < |t| && t[j] == u[i];
      }
    }
  }

  /** Every in-grid (cell, direction) pair: the beams a run can process. */
  function AllBeams(geometry: seq<string>): set<Beam> {
    set y, x, d | 0 <= y < |geometry| && 0 <= x < |geometry[y]| && d in {U, D, L, R} :: (Coordinate(x, y), d)
  }
}
