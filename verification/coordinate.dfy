/**
 * The shared two-dimensional grid coordinate of lib/Coordinate.ts: an
 * immutable pair of integers with componentwise addition, structural
 * equality, a textual form `x,y`, and the Manhattan distance.
 */
module Coordinates {
  import opened Outcomes
  import opened Text

  datatype Coordinate = Coordinate(x: int, y: int)

  /** `a.add(b)`. */
  function Add(a: Coordinate, b: Coordinate): (r: Coordinate)
    ensures r.x - a.x == b.x && r.y - a.y == b.y
  {
    Coordinate(a.x + b.x, a.y + b.y)
  }

  /** `a.equals(b)`: both components match, which is value equality of the pair. */
  predicate Equals(a: Coordinate, b: Coordinate)
    ensures Equals(a, b) <==> a == b
  {
    a.x == b.x && a.y == b.y
  }

  /** `c.clone()`: a new coordinate equal to the original. */
  function Clone(c: Coordinate): (r: Coordinate)
    ensures Equals(r, c)
  {
    Coordinate(c.x, c.y)
  }

  /** `c.toString()`: the two components in decimal, separated by a comma. */
  function ToString(c: Coordinate): string {
    IntToString(c.x) + "," + IntToString(c.y)
  }

  /**
   * `Coordinate.fromString(s)`: exactly two comma-separated parts, each read
   * by `Number`. A part `Number` reads as `NaN` is the error "Invalid number.".
   */
  function FromString(s: string): (r: Result<Coordinate>)
    ensures |Split(s, ",")| != 2 <==> r == Err("Invalid coordinate string.")
    ensures r.Ok? <==> |Split(s, ",")| == 2 && NumberOf(Split(s, ",")[0]).Some? && NumberOf(Split(s, ",")[1]).Some?
    ensures r.Ok? ==> r.value == Coordinate(NumberOf(Split(s, ",")[0]).value, NumberOf(Split(s, ",")[1]).value)
  {
    var parts := Split(s, ",");
    if |parts| != 2 then Err("Invalid coordinate string.")
    else
      match (NumberOf(parts[0]), NumberOf(parts[1]))
      case (Some(x), Some(y)) => Ok(Coordinate(x, y))
      case _ => Err("Invalid number.")
  }

  /** `manhattanDistance(a, b)`. */
  function ManhattanDistance(a: Coordinate, b: Coordinate): (d: nat)
    ensures d == 0 <==> a == b
    ensures d >= (if a.x < b.x then b.x - a.x else a.x - b.x)
  {
    Abs(a.x - b.x) + Abs(a.y - b.y)
  }

  function Abs(n: int): nat {
    if n < 0 then -n else n
  }

  /** Parsing the text form of a coordinate gives the coordinate back. */
  lemma {:induction false} FromStringToString(c: Coordinate)
    ensures FromString(ToString(c)) == Ok(c)
  {
    IntToStringRoundTrip(c.x);
    IntToStringRoundTrip(c.y);
    assert ToString(c) == Join([IntToString(c.x), IntToString(c.y)], ",");
    SplitJoin([IntToString(c.x), IntToString(c.y)], ',');
  }

  /** Distinct coordinates have distinct text forms, so the text form is a faithful map key. */
  lemma {:induction false} ToStringInjective(a: Coordinate, b: Coordinate)
    ensures ToString(a) == ToString(b) <==> a == b
  {
    FromStringToString(a);
    FromStringToString(b);
  }

  lemma {:induction false} ManhattanSymmetric(a: Coordinate, b: Coordinate)
    ensures ManhattanDistance(a, b) == ManhattanDistance(b, a)
  {
  }

  lemma {:induction false} ManhattanTriangle(a: Coordinate, b: Coordinate, c: Coordinate)
    ensures ManhattanDistance(a, c) <= ManhattanDistance(a, b) + ManhattanDistance(b, c)
  {
  }

  /** Moving both ends by the same offset keeps their distance. */
  lemma {:induction false} ManhattanTranslation(a: Coordinate, b: Coordinate, d: Coordinate)
    ensures ManhattanDistance(Add(a, d), Add(b, d)) == ManhattanDistance(a, b)
  {
  }
}
