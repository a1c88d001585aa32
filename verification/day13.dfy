/**
 * day_13.ts: lines of reflection in patterns of ash and rocks. A vertical
 * line before column `i` reflects every line of the pattern as far as the
 * nearer edge; a horizontal line before row `i` reflects every column. The
 * summary of a pattern is the first vertical line, or else 100 times the
 * first horizontal line.
 *
 * Lines may differ in length: reading past the end of a line yields
 * `undefined` in the source, which compares equal to another `undefined`;
 * `CharAt` models this with `None`.
 */
module Day13 {
  import opened Outcomes
  import opened Text

  /** A pattern: its lines, as `parse` splits them (never empty). */
  type Pattern = seq<string>

  /** The error `summarizePattern` throws. */
  const NoReflection: string := "No reflection found"

  /** `line[x]`: the character, or `None` (`undefined`) outside the line. */
  function CharAt(line: string, x: int): Option<char> {
    if 0 <= x < |line| then Some(line[x]) else None
  }

  function Min(a: int, b: int): int {
    if a <= b then a else b
  }

  /** The two directions a line of reflection can run in. */
  datatype Axis = Vertical | Horizontal

  /** How many candidate positions an axis has: the width of the first line, or the number of lines. */
  function Extent(p: Pattern, axis: Axis): nat
    requires |p| >= 1
  {
    match axis
    case Vertical => |p[0]|
    case Horizontal => |p|
  }

  /** How many columns (rows) on each side of `index` are compared: up to the nearer edge. */
  function ComparisonLength(p: Pattern, axis: Axis, index: nat): int
    requires |p| >= 1
  {
    Min(index, Extent(p, axis) - index)
  }

  /** One line reads the same mirrored at `index` over `span` columns to each side. */
  predicate LineMirrors(line: string, index: nat, span: int) {
    forall x :: index - span <= x < index ==> CharAt(line, x) == CharAt(line, 2 * index - x - 1)
  }

  /** A vertical line of reflection before column `index`. */
  predicate VerticalMirror(p: Pattern, index: nat)
    requires |p| >= 1
  {
    forall y :: 0 <= y < |p| ==> LineMirrors(p[y], index, ComparisonLength(p, Vertical, index))
  }

  /** A horizontal line of reflection before row `index`: in every column of the first line's width, row `y` matches row `2 * index - y - 1`. */
  predicate HorizontalMirror(p: Pattern, index: nat)
    requires |p| >= 1
  {
    var span := ComparisonLength(p, Horizontal, index);
    forall x, y {:trigger CharAt(p[y], x)} :: 0 <= x < |p[0]| && index - span <= y < index ==>
      CharAt(p[y], x) == CharAt(p[2 * index - y - 1], x)
  }

  predicate Mirror(p: Pattern, axis: Axis, index: nat)
    requires |p| >= 1
  {
    match axis
    case Vertical => VerticalMirror(p, index)
    case Horizontal => HorizontalMirror(p, index)
  }

  /** The smallest line of reflection at `from` or later, before the extent. */
  function FirstMirrorFrom(p: Pattern, axis: Axis, from: nat): (r: Option<nat>)
    requires |p| >= 1
    ensures r.Some? ==> from <= r.value < Extent(p, axis) && Mirror(p, axis, r.value)
    ensures r.Some? ==> forall j :: from <= j < r.value ==> !Mirror(p, axis, j)
    ensures r.None? ==> forall j :: from <= j < Extent(p, axis) ==> !Mirror(p, axis, j)
    decreases Extent(p, axis) - from
  {
    if from >= Extent(p, axis) then None
    else if Mirror(p, axis, from) then Some(from)
    else FirstMirrorFrom(p, axis, from + 1)
  }

  /** The first line of reflection along an axis, searching from 1. */
  function FirstMirror(p: Pattern, axis: Axis): Option<nat>
    requires |p| >= 1
  {
    FirstMirrorFrom(p, axis, 1)
  }

  /** The search finds the smallest index in `[1, extent)` whose check holds, and nothing when there is none. */
  lemma {:induction false} FirstMirrorIsSmallest(p: Pattern, axis: Axis, i: nat)
    requires |p| >= 1 && 1 <= i < Extent(p, axis)
    ensures Mirror(p, axis, i) ==> FirstMirror(p, axis).Some? && FirstMirror(p, axis).value <= i
    ensures FirstMirror(p, axis) == Some(i) <==> Mirror(p, axis, i) && forall j :: 1 <= j < i ==> !Mirror(p, axis, j)
  {
  }

  /** A pattern whose first vertical line is `v` summarizes to `v`. */
  lemma {:induction false} SummaryIsFirstVertical(p: Pattern, v: nat)
    requires |p| >= 1 && 1 <= v < |p[0]| && VerticalMirror(p, v)
    requires forall j :: 1 <= j < v ==> !VerticalMirror(p, j)
    ensures Summary(p) == Ok(v)
  {
    FirstMirrorIsSmallest(p, Vertical, v);
  }

  /** A pattern without a vertical line whose first horizontal line is `h` summarizes to `100 * h`. */
  lemma {:induction false} SummaryIsFirstHorizontal(p: Pattern, h: nat)
    requires |p| >= 1 && 1 <= h < |p| && HorizontalMirror(p, h)
    requires forall j :: 1 <= j < |p[0]| ==> !VerticalMirror(p, j)
    requires forall j :: 1 <= j < h ==> !HorizontalMirror(p, j)
    ensures Summary(p) == Ok(100 * h)
  {
    FirstMirrorIsSmallest(p, Horizontal, h);
  }

  /** `checkVerticalReflection(pattern, index)`: every line, column by column, with an early `false`. */
  method CheckVerticalReflection(p: Pattern, index: nat) returns (mirrors: bool)
    requires |p| >= 1
    ensures mirrors <==> VerticalMirror(p, index)
  {
    var comparisonLength := Min(index, |p[0]| - index);
    for y := 0 to |p|
      invariant forall y' :: 0 <= y' < y ==> LineMirrors(p[y'], index, comparisonLength)
    {
      var line := p[y];
      var x := index - comparisonLength;
      while x < index
        invariant forall x' :: index - comparisonLength <= x' < x ==> CharAt(line, x') == CharAt(line, 2 * index - x' - 1)
      {
        if CharAt(line, x) != CharAt(line, index + index - x - 1) {
          return false;
        }
        x := x + 1;
      }
    }
    return true;
  }

  /** `findVerticalReflection(pattern)`: the first index from 1 whose check holds. */
  method FindVerticalReflection(p: Pattern) returns (r: Option<nat>)
    requires |p| >= 1
    ensures r == FirstMirror(p, Vertical)
  {
    var i := 1;
    while i < |p[0]|
      invariant 1 <= i && FirstMirror(p, Vertical) == FirstMirrorFrom(p, Vertical, i)
      decreases |p[0]| - i
    {
      var found := CheckVerticalReflection(p, i);
      if found {
        return Some(i);
      }
      i := i + 1;
    }
    return None;
  }

  /** `checkHorizontalReflection(pattern, index)`: column by column over the first line's width, row by row, with an early `false`. */
  method CheckHorizontalReflection(p: Pattern, index: nat) returns (mirrors: bool)
    requires |p| >= 1
    ensures mirrors <==> HorizontalMirror(p, index)
  {
    var comparisonLength := Min(index, |p| - index);
    for x := 0 to |p[0]|
      invariant forall x', y {:trigger CharAt(p[y], x')} :: 0 <= x' < x && index - comparisonLength <= y < index ==>
        CharAt(p[y], x') == CharAt(p[2 * index - y - 1], x')
    {
      var y := index - comparisonLength;
      while y < index
        invariant index - comparisonLength <= y
        invariant comparisonLength >= 0 ==> y <= index
        invariant comparisonLength < 0 ==> y == index - comparisonLength
        invariant forall y' {:trigger CharAt(p[y'], x)} :: index - comparisonLength <= y' < y ==>
          CharAt(p[y'], x) == CharAt(p[2 * index - y' - 1], x)
      {
        if CharAt(p[y], x) != CharAt(p[index + index - y - 1], x) {
          return false;
        }
        y := y + 1;
      }
    }
    return true;
  }

  /** `findHorizontalReflection(pattern)`: the first index from 1 whose check holds. */
  method FindHorizontalReflection(p: Pattern) returns (r: Option<nat>)
    requires |p| >= 1
    ensures r == FirstMirror(p, Horizontal)
  {
    var i := 1;
    while i < |p|
      invariant 1 <= i && FirstMirror(p, Horizontal) == FirstMirrorFrom(p, Horizontal, i)
      decreases |p| - i
    {
      var found := CheckHorizontalReflection(p, i);
      if found {
        return Some(i);
      }
      i := i + 1;
    }
    return None;
  }

  /** The summary of a pattern: the first vertical line, else 100 times the first horizontal line, else the error. */
  function Summary(p: Pattern): (r: Result<nat>)
    requires |p| >= 1
    ensures r.Err? <==> FirstMirror(p, Vertical).None? && FirstMirror(p, Horizontal).None?
    ensures r.Err? ==> r.message == NoReflection
  {
    match FirstMirror(p, Vertical)
    case Some(v) => Ok(v)
    case None =>
      match FirstMirror(p, Horizontal)
      case Some(h) => Ok(h * 100)
      case None => Err(NoReflection)
  }

  /** A pattern fails to summarize exactly when it has no line of reflection in either direction. */
  lemma {:induction false} SummaryFailsIffNoMirror(p: Pattern)
    requires |p| >= 1
    ensures Summary(p).Err? <==>
      (forall i :: 1 <= i < |p[0]| ==> !VerticalMirror(p, i)) && (forall i :: 1 <= i < |p| ==> !HorizontalMirror(p, i))
  {
    if exists i :: 1 <= i < |p[0]| && VerticalMirror(p, i) {
      var i :| 1 <= i < |p[0]| && VerticalMirror(p, i);
      FirstMirrorIsSmallest(p, Vertical, i);
    } else if exists i :: 1 <= i < |p| && HorizontalMirror(p, i) {
      var i :| 1 <= i < |p| && HorizontalMirror(p, i);
      FirstMirrorIsSmallest(p, Horizontal, i);
    }
  }

  /** `summarizePattern(pattern)`. */
  method SummarizePattern(p: Pattern) returns (r: Result<nat>)
    requires |p| >= 1
    ensures r == Summary(p)
  {
    var verticalReflectionIndex := FindVerticalReflection(p);
    if verticalReflectionIndex.Some? {
      return Ok(verticalReflectionIndex.value);
    }
    var horizontalReflectionIndex := FindHorizontalReflection(p);
    if horizontalReflectionIndex.Some? {
      return Ok(horizontalReflectionIndex.value * 100);
    }
    return Err(NoReflection);
  }

  /** `parse(input)`: the trimmed input split at blank lines, each chunk split into its lines. */
  function Parse(input: string): (patterns: seq<Pattern>)
    ensures |patterns| == |Split(TrimEnd(input), "\n\n")|
    ensures forall i :: 0 <= i < |patterns| ==> patterns[i] == Split(Split(TrimEnd(input), "\n\n")[i], "\n")
  {
    var chunks := Split(TrimEnd(input), "\n\n");
    seq(|chunks|, i requires 0 <= i < |chunks| => Split(chunks[i], "\n"))
  }

  /** The summaries of the patterns, summed; the first pattern without a line of reflection aborts with its error. */
  function SumOfSummaries(patterns: seq<Pattern>): (r: Result<nat>)
    requires forall i :: 0 <= i < |patterns| ==> |patterns[i]| >= 1
    ensures r.Ok? <==> forall i :: 0 <= i < |patterns| ==> Summary(patterns[i]).Ok?
    ensures r.Err? ==> r.message == NoReflection
  {
    if patterns == [] then Ok(0)
    else
      match Summary(patterns[0])
      case Err(e) => Err(e)
      case Ok(s) =>
        match SumOfSummaries(patterns[1..])
        case Err(e) => Err(e)
        case Ok(rest) => Ok(s + rest)
  }

  /** `part1(input)`. */
  function Part1(input: string): Result<nat> {
    var patterns := Parse(input);
    SumOfSummaries(patterns)
  }

  // The worked example: the first pattern folds vertically before column 5,
  // the second horizontally before row 4.

  const Pattern1: Pattern := ["#.##..##.", "..#.##.#.", "##......#", "##......#", "..#.##.#.", "..##..##.", "#.#.##.#."]
  const Pattern2: Pattern := ["#...##..#", "#....#..#", "..##..###", "#####.##.", "#####.##.", "..##..###", "#....#..#"]

  /** A line with a mismatch at `x` does not mirror at `index`. */
  lemma {:induction false} MismatchBreaksLine(line: string, index: nat, span: int, x: int)
    requires index - span <= x < index && CharAt(line, x) != CharAt(line, 2 * index - x - 1)
    ensures !LineMirrors(line, index, span)
  {
  }

  lemma {:induction false} Pattern1NoVerticalBefore5()
    ensures forall i :: 1 <= i < 5 ==> !VerticalMirror(Pattern1, i)
  {
    var line := Pattern1[0];
    assert |Pattern1[0]| == 9;
    forall i | 1 <= i < 5 ensures !VerticalMirror(Pattern1, i) {
      var span := ComparisonLength(Pattern1, Vertical, i);
      if i == 1 {
        MismatchBreaksLine(line, i, span, 0);
      } else if i == 2 {
        MismatchBreaksLine(line, i, span, 1);
      } else if i == 3 {
        MismatchBreaksLine(line, i, span, 0);
      } else {
        MismatchBreaksLine(line, i, span, 1);
      }
    }
  }

  lemma {:induction false} Pattern1VerticalAt5()
    ensures VerticalMirror(Pattern1, 5)
  {
    assert |Pattern1[0]| == 9;
    forall y | 0 <= y < |Pattern1| ensures LineMirrors(Pattern1[y], 5, 4) {
      forall x | 1 <= x < 5 ensures CharAt(Pattern1[y], x) == CharAt(Pattern1[y], 9 - x) {
        assert x == 1 || x == 2 || x == 3 || x == 4;
        assert y == 0 || y == 1 || y == 2 || y == 3 || y == 4 || y == 5 || y == 6;
      }
    }
  }

  /** The first pattern summarizes to 5. */
  lemma {:induction false} ExamplePattern1()
    ensures Summary(Pattern1) == Ok(5)
  {
    Pattern1NoVerticalBefore5();
    Pattern1VerticalAt5();
    SummaryIsFirstVertical(Pattern1, 5);
  }

  /** Two rows that differ in column `x` rule out a horizontal line at `index`. */
  lemma {:induction false} MismatchBreaksRows(p: Pattern, index: nat, x: nat, y: int)
    requires |p| >= 1 && x < |p[0]|
    requires index - ComparisonLength(p, Horizontal, index) <= y < index
    requires CharAt(p[y], x) != CharAt(p[2 * index - y - 1], x)
    ensures !HorizontalMirror(p, index)
  {
  }

  lemma {:induction false} Pattern2NoVertical()
    ensures forall i :: 1 <= i < |Pattern2[0]| ==> !VerticalMirror(Pattern2, i)
  {
    assert |Pattern2[0]| == 9;
    forall i | 1 <= i < 9 ensures !VerticalMirror(Pattern2, i) {
      var span := ComparisonLength(Pattern2, Vertical, i);
      if i == 1 || i == 2 || i == 4 {
        MismatchBreaksLine(Pattern2[0], i, span, 0);
      } else if i == 3 || i == 5 {
        MismatchBreaksLine(Pattern2[0], i, span, 1);
      } else if i == 6 {
        MismatchBreaksLine(Pattern2[0], i, span, 3);
      } else if i == 7 {
        MismatchBreaksLine(Pattern2[2], i, span, 5);
      } else {
        MismatchBreaksLine(Pattern2[0], i, span, 7);
      }
    }
  }

  lemma {:induction false} Pattern2NoHorizontalBefore4()
    ensures forall i :: 1 <= i < 4 ==> !HorizontalMirror(Pattern2, i)
  {
    assert |Pattern2[0]| == 9;
    MismatchBreaksRows(Pattern2, 1, 4, 0);
    MismatchBreaksRows(Pattern2, 2, 0, 1);
    MismatchBreaksRows(Pattern2, 3, 0, 0);
  }

  lemma {:induction false} Pattern2HorizontalAt4()
    ensures HorizontalMirror(Pattern2, 4)
  {
    assert |Pattern2[0]| == 9;
    assert Pattern2[1] == Pattern2[6] && Pattern2[2] == Pattern2[5] && Pattern2[3] == Pattern2[4];
  }

  /** The second pattern has no vertical line and summarizes to 400. */
  lemma {:induction false} ExamplePattern2()
    ensures Summary(Pattern2) == Ok(400)
  {
    Pattern2NoVertical();
    Pattern2NoHorizontalBefore4();
    Pattern2HorizontalAt4();
    SummaryIsFirstHorizontal(Pattern2, 4);
  }

  /** Two summarizable patterns sum to their two summaries. */
  lemma {:induction false} SumOfTwo(p: Pattern, q: Pattern)
    requires |p| >= 1 && |q| >= 1 && Summary(p).Ok? && Summary(q).Ok?
    ensures SumOfSummaries([p, q]) == Ok(Summary(p).value + Summary(q).value)
  {
    assert [q][1..] == [];
    assert SumOfSummaries([q]) == Ok(Summary(q).value);
    assert [p, q][1..] == [q];
  }

  /** `part1` of the example: 5 + 400. */
  lemma {:induction false} ExamplePart1()
    ensures SumOfSummaries([Pattern1, Pattern2]) == Ok(405)
  {
    ExamplePattern1();
    ExamplePattern2();
    SumOfTwo(Pattern1, Pattern2);
  }
}
