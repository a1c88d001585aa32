/**
 * day_8.ts: a network of nodes, each with a left and a right child, and a
 * cyclic list of left/right instructions. Part 1 counts the steps from `AAA`
 * to `ZZZ`. Part 2 moves one pather from every node whose name ends in `A`,
 * all in step, until they all stand on nodes ending in `Z`, or until each has
 * seen its goals recur, in which case the answer is the least common multiple
 * of the intervals.
 */
module Day8 {
  import opened Outcomes
  import opened Text
  import opened Multiples

  /**
   * The parsed input: the instruction line, the node names in the order they
   * were first defined (the order of `Object.keys`), and each node's children.
   */
  datatype Network = Network(path: string, names: seq<string>, nodes: map<string, seq<string>>)

  /** The `TypeError` the JavaScript runtime throws on reading `property` of `undefined`. */
  function UndefinedRead(property: string): string {
    "Cannot read properties of undefined (reading '" + property + "')"
  }

  /** A node line without ` = `: its children are undefined, and `children.slice` throws. */
  const MissingChildrenMessage := UndefinedRead("slice")

  /** `isPositionGoal` of a position that is `undefined`: `position.endsWith` throws. */
  const EndsWithMessage := UndefinedRead("endsWith")

  // Parsing

  /** `s.slice(1, -1)`: the text without its first and last characters. */
  function Inner(s: string): string {
    if |s| >= 2 then s[1..|s| - 1] else ""
  }

  /** `children.slice(1, -1).split(", ").map((child) => child.trim())`. */
  function ChildNames(children: string): (names: seq<string>)
    ensures |names| >= 1
  {
    var parts := Split(Inner(children), ", ");
    seq(|parts|, i requires 0 <= i < |parts| => Trim(parts[i]))
  }

  /** One node line, `parent = (left, right)`, split at the first ` = `. */
  function ParseNodeLine(line: string): (r: Result<(string, seq<string>)>)
    ensures r.Err? <==> Find(line, " = ").None?
    ensures r.Err? ==> r.message == MissingChildrenMessage
    ensures r.Ok? ==> r.value.0 == line[..Find(line, " = ").value] && |r.value.1| >= 1
  {
    var parts := Split(line, " = ");
    if |parts| < 2 then Err(MissingChildrenMessage)
    else Ok((parts[0], ChildNames(parts[1])))
  }

  /** The node lines: `lines.slice(2)`. */
  function BodyLines(lines: seq<string>): seq<string> {
    if |lines| >= 2 then lines[2..] else []
  }

  /** The node lines parsed in order; the first line that fails gives the error. */
  function ParseNodeLines(body: seq<string>): (r: Result<seq<(string, seq<string>)>>)
    ensures r.Ok? ==> |r.value| == |body| && forall i :: 0 <= i < |body| ==> ParseNodeLine(body[i]) == Ok(r.value[i])
    ensures r.Err? ==> r.message == MissingChildrenMessage && exists i :: 0 <= i < |body| && ParseNodeLine(body[i]).Err?
  {
    if body == [] then Ok([])
    else
      var front := body[..|body| - 1];
      var last := ParseNodeLine(body[|body| - 1]);
      var r := ParseNodeLines(front);
      if r.Err? then
        var i :| 0 <= i < |front| && ParseNodeLine(front[i]).Err?;
        assert body[i] == front[i];
        r
      else if last.Err? then Err(last.message)
      else
        assert forall i :: 0 <= i < |front| ==> front[i] == body[i];
        Ok(r.value + [last.value])
  }

  /** `nodes[parent] = children`: a name defined again keeps its place in the order. */
  function Define(names: seq<string>, nodes: map<string, seq<string>>, parent: string, children: seq<string>): (seq<string>, map<string, seq<string>>) {
    (if parent in nodes then names else names + [parent], nodes[parent := children])
  }

  /** The node table after the node lines, applied from the first to the last. */
  function Collect(entries: seq<(string, seq<string>)>): (seq<string>, map<string, seq<string>>) {
    if entries == [] then ([], map[])
    else
      var (names, nodes) := Collect(entries[..|entries| - 1]);
      Define(names, nodes, entries[|entries| - 1].0, entries[|entries| - 1].1)
  }

  /** The names are distinct and are exactly the defined nodes. */
  ghost predicate Listed(names: seq<string>, nodes: map<string, seq<string>>) {
    && (forall i, j :: 0 <= i < j < |names| ==> names[i] != names[j])
    && (forall p :: p in nodes <==> p in names)
  }

  /**
   * After the node lines, the defined nodes are exactly the parents of the
   * lines, listed once each, and each maps to the children of its last line.
   */
  lemma {:induction false} CollectDefines(entries: seq<(string, seq<string>)>)
    ensures Listed(Collect(entries).0, Collect(entries).1)
    ensures forall p :: p in Collect(entries).1 <==> exists i :: 0 <= i < |entries| && entries[i].0 == p
    ensures forall i :: 0 <= i < |entries| && (forall j :: i < j < |entries| ==> entries[j].0 != entries[i].0) ==>
      entries[i].0 in Collect(entries).1 && Collect(entries).1[entries[i].0] == entries[i].1
  {
    CollectListed(entries);
    CollectDomain(entries);
    CollectLast(entries);
  }

  /** The names list every defined node once. */
  lemma {:induction false} CollectListed(entries: seq<(string, seq<string>)>)
    ensures Listed(Collect(entries).0, Collect(entries).1)
  {
    if entries != [] {
      CollectListed(entries[..|entries| - 1]);
    }
  }

  /** The defined nodes are the parents of the lines. */
  lemma {:induction false} CollectDomain(entries: seq<(string, seq<string>)>)
    ensures forall p :: p in Collect(entries).1 <==> exists i :: 0 <= i < |entries| && entries[i].0 == p
  {
    if entries != [] {
      var front := entries[..|entries| - 1];
      CollectDomain(front);
      assert forall i :: 0 <= i < |front| ==> front[i] == entries[i];
      forall p | p in Collect(entries).1 ensures exists i :: 0 <= i < |entries| && entries[i].0 == p {
        if p != entries[|entries| - 1].0 {
          var i :| 0 <= i < |front| && front[i].0 == p;
          assert entries[i].0 == p;
        }
      }
    }
  }

  /** A parent maps to the children of its last line. */
  lemma {:induction false} CollectLast(entries: seq<(string, seq<string>)>)
    ensures forall i :: 0 <= i < |entries| && (forall j :: i < j < |entries| ==> entries[j].0 != entries[i].0) ==>
      entries[i].0 in Collect(entries).1 && Collect(entries).1[entries[i].0] == entries[i].1
  {
    if entries != [] {
      var front := entries[..|entries| - 1];
      CollectLast(front);
      assert forall i :: 0 <= i < |front| ==> front[i] == entries[i];
    }
  }

  /** `parse(input)`: the first line is the path, the node lines start at the third. */
  function NetworkOf(input: string): (r: Result<Network>)
    ensures r.Ok? ==> Listed(r.value.names, r.value.nodes)
  {
    var lines := Split(TrimEnd(input), "\n");
    match ParseNodeLines(BodyLines(lines))
    case Err(m) => Err(m)
    case Ok(entries) =>
      CollectDefines(entries);
      var (names, nodes) := Collect(entries);
      Ok(Network(lines[0], names, nodes))
  }

  /** A failing line fails the whole body from there on. */
  lemma {:induction false} ParseErrorPersists(body: seq<string>, k: nat)
    requires k < |body| && ParseNodeLines(body[..k]).Ok? && ParseNodeLine(body[k]).Err?
    ensures ParseNodeLines(body) == Err(MissingChildrenMessage)
  {
  }

  /** One more line that parses extends the entries, and the table by one definition. */
  lemma {:induction false} ParseNodeLinesExtend(body: seq<string>, k: nat)
    requires k < |body| && ParseNodeLines(body[..k]).Ok? && ParseNodeLine(body[k]).Ok?
    ensures ParseNodeLines(body[..k + 1]) == Ok(ParseNodeLines(body[..k]).value + [ParseNodeLine(body[k]).value])
    ensures Collect(ParseNodeLines(body[..k + 1]).value) ==
      Define(Collect(ParseNodeLines(body[..k]).value).0, Collect(ParseNodeLines(body[..k]).value).1, ParseNodeLine(body[k]).value.0, ParseNodeLine(body[k]).value.1)
  {
    assert body[..k + 1][..k] == body[..k];
    var entries := ParseNodeLines(body[..k + 1]).value;
    assert entries[..|entries| - 1] == ParseNodeLines(body[..k]).value;
  }

  /** `parse(input)`: the loop over the node lines, filling in the record. */
  method Parse(input: string) returns (r: Result<Network>)
    ensures r == NetworkOf(input)
  {
    var lines := Split(TrimEnd(input), "\n");
    var body := BodyLines(lines);
    var names: seq<string> := [];
    var nodes: map<string, seq<string>> := map[];
    for k := 0 to |body|
      invariant ParseNodeLines(body[..k]).Ok?
      invariant (names, nodes) == Collect(ParseNodeLines(body[..k]).value)
    {
      var parsed := ParseNodeLine(body[k]);
      if parsed.Err? {
        ParseErrorPersists(body, k);
        return Err(parsed.message);
      }
      var (parent, children) := parsed.value;
      ParseNodeLinesExtend(body, k);
      if parent !in nodes {
        names := names + [parent];
      }
      nodes := nodes[parent := children];
    }
    assert body[..|body|] == body;
    r := Ok(Network(lines[0], names, nodes));
  }

  // Part 1

  /** The instruction index after `n` steps: `(i + 1) % path.length` from 0 (an empty path always reads past its end). */
  function IndexAfter(path: string, n: nat): (i: nat)
    ensures |path| > 0 ==> i < |path|
  {
    if |path| == 0 then 0 else n % |path|
  }

  /** Advancing the index modulo the path length is counting steps modulo the path length. */
  lemma {:induction false} IndexAdvances(path: string, n: nat)
    requires |path| > 0
    ensures (IndexAfter(path, n) + 1) % |path| == IndexAfter(path, n + 1)
  {
    var m := |path|;
    var q := n / m;
    var r := n % m;
    assert n == q * m + r;
    if r + 1 < m {
      assert n + 1 == q * m + (r + 1);
      ModOfSum(q, m, r + 1);
      ModOfSum(0, m, r + 1);
    } else {
      assert n + 1 == (q + 1) * m + 0;
      ModOfSum(q + 1, m, 0);
      ModOfSum(1, m, 0);
    }
  }

  /**
   * `stepPathIndex = (stepPathIndex + 1) % input.path.length`, which keeps
   * the index at the step count modulo the path length (an empty path,
   * whose index is not a number, keeps 0 here).
   */
  method NextPathIndex(path: string, ghost n: nat, i: nat) returns (j: nat)
    requires i == IndexAfter(path, n)
    ensures j == IndexAfter(path, n + 1)
  {
    j := i;
    if |path| > 0 {
      IndexAdvances(path, n);
      j := (i + 1) % |path|;
    }
  }

  /** `(q * m + r) % m == r` for `0 <= r < m`. */
  lemma {:induction false} ModOfSum(q: nat, m: nat, r: nat)
    requires m > 0 && r < m
    ensures (q * m + r) % m == r
  {
    var a := q * m + r;
    assert a == (a / m) * m + a % m;
    assert (q - a / m) * m == a % m - r;
    ProductBounds(m, q - a / m);
  }

  /** `step === "L"`: the instruction at the index is `L` (reading past the end gives no instruction). */
  predicate GoesLeft(path: string, index: nat) {
    index < |path| && path[index] == 'L'
  }

  /**
   * Where the walk or a pather stands: a node name, or JavaScript's
   * `undefined` (`None`) after taking a child that the node does not have.
   */
  type Position = Option<string>

  /** The key `input.nodes[position]` looks up: `undefined` becomes the text `"undefined"`. */
  function Key(position: Position): (key: string)
    ensures position.Some? ==> key == position.value
  {
    if position.Some? then position.value else "undefined"
  }

  /**
   * One move: `children = input.nodes[position]`, then `children[0]` on `L`
   * and `children[1]` otherwise. The children of a node that is not defined
   * are undefined, and reading their index throws; a child the node does not
   * have is `undefined`, which becomes the new position.
   */
  function Move(net: Network, position: Position, index: nat): (r: Result<Position>)
    ensures r.Err? <==> Key(position) !in net.nodes
    ensures r.Err? ==> r.message == UndefinedRead(if GoesLeft(net.path, index) then "0" else "1")
    ensures r.Ok? && GoesLeft(net.path, index) ==>
      (r.value.Some? <==> |net.nodes[Key(position)]| > 0) && (r.value.Some? ==> r.value.value == net.nodes[Key(position)][0])
    ensures r.Ok? && !GoesLeft(net.path, index) ==>
      (r.value.Some? <==> |net.nodes[Key(position)]| > 1) && (r.value.Some? ==> r.value.value == net.nodes[Key(position)][1])
  {
    var k := if GoesLeft(net.path, index) then 0 else 1;
    if Key(position) !in net.nodes then Err(UndefinedRead(if k == 0 then "0" else "1"))
    else
      var children := net.nodes[Key(position)];
      Ok(if k < |children| then Some(children[k]) else None)
  }

  /** Where the walk from `AAA` stands after `n` steps, or the error of the step that threw. */
  function PositionAfter(net: Network, n: nat): Result<Position> {
    if n == 0 then Ok(Some("AAA"))
    else match PositionAfter(net, n - 1)
      case Err(m) => Err(m)
      case Ok(p) => Move(net, p, IndexAfter(net.path, n - 1))
  }

  /** The first `n` steps of the walk did not throw, and none of them stood on `ZZZ`. */
  ghost predicate StillWalking(net: Network, n: nat) {
    forall j :: 0 <= j < n ==> PositionAfter(net, j).Ok? && PositionAfter(net, j).value != Some("ZZZ")
  }

  /** The walk reaches `ZZZ` for the first time after `k` steps. */
  ghost predicate ArrivesAt(net: Network, k: nat) {
    StillWalking(net, k) && PositionAfter(net, k) == Ok(Some("ZZZ"))
  }

  /** The walk throws at step `k`, before it has reached `ZZZ`. */
  ghost predicate BreaksAt(net: Network, k: nat) {
    StillWalking(net, k) && PositionAfter(net, k).Err?
  }

  /** The walk has at most one outcome: one arrival step, and no break besides. */
  lemma {:induction false} OneOutcome(net: Network, k: nat, k': nat)
    requires ArrivesAt(net, k) || BreaksAt(net, k)
    requires ArrivesAt(net, k') || BreaksAt(net, k')
    ensures k == k' && (ArrivesAt(net, k) <==> ArrivesAt(net, k'))
  {
  }

  /**
   * A child that is not there does not stop the walk at once: the walk stands
   * on `undefined`, and the next step looks up the node `"undefined"`, which
   * throws unless the network defines a node of that name.
   */
  lemma {:induction false} UndefinedThrowsNext(net: Network, n: nat)
    requires PositionAfter(net, n) == Ok(None) && "undefined" !in net.nodes
    ensures PositionAfter(net, n + 1) == Err(UndefinedRead(if GoesLeft(net.path, IndexAfter(net.path, n)) then "0" else "1"))
  {
  }

  /**
   * The loop of `part1`: from `AAA`, follow the instructions until `ZZZ`,
   * counting the steps. The walk is cut off after `fuel` steps, with `None`.
   */
  method Walk(net: Network, fuel: nat) returns (r: Option<Result<nat>>)
    ensures r.Some? && r.value.Ok? ==> ArrivesAt(net, r.value.value)
    ensures r.Some? && r.value.Err? ==> exists k :: BreaksAt(net, k) && r.value.message == PositionAfter(net, k).message
    ensures r.None? ==> StillWalking(net, fuel + 1)
  {
    var stepCount: nat := 0;
    var stepPathIndex: nat := 0;
    var position: Position := Some("AAA");
    while position != Some("ZZZ")
      invariant stepCount <= fuel
      invariant PositionAfter(net, stepCount) == Ok(position)
      invariant StillWalking(net, stepCount)
      invariant stepPathIndex == IndexAfter(net.path, stepCount)
      decreases fuel - stepCount
    {
      if stepCount == fuel {
        return None;
      }
      var next := Move(net, position, stepPathIndex);
      if next.Err? {
        assert BreaksAt(net, stepCount + 1);
        return Some(Err(next.message));
      }
      position := next.value;
      stepCount := stepCount + 1;
      stepPathIndex := NextPathIndex(net.path, stepCount - 1, stepPathIndex);
    }
    r := Some(Ok(stepCount));
  }

  /** `part1(input)`: parse, then walk. */
  method Part1(input: string, fuel: nat) returns (r: Option<Result<nat>>)
    ensures NetworkOf(input).Err? ==> r == Some(Err(NetworkOf(input).message))
    ensures NetworkOf(input).Ok? && r.Some? && r.value.Ok? ==> ArrivesAt(NetworkOf(input).value, r.value.value)
    ensures NetworkOf(input).Ok? && r.Some? && r.value.Err? ==>
      exists k :: BreaksAt(NetworkOf(input).value, k) && r.value.message == PositionAfter(NetworkOf(input).value, k).message
    ensures NetworkOf(input).Ok? && r.None? ==> StillWalking(NetworkOf(input).value, fuel + 1)
  {
    var parsed := Parse(input);
    if parsed.Err? {
      return Some(Err(parsed.message));
    }
    r := Walk(parsed.value, fuel);
  }

  // Recurring encounters

  /** A goal first reached at one step and then again every `stepsUntilRevisit` steps. */
  datatype RecurringEncounter = RecurringEncounter(firstEncounterStep: int, stepsUntilRevisit: int)

  const FixedIntervalMessage := "This implementation only supports goals that are re-encountered at a fixed interval."

  const SingleGoalMessage := "This implementation only supports paths that encounter a single goal repeatedly."

  function Intervals(encounters: seq<RecurringEncounter>): (xs: seq<int>)
    ensures |xs| == |encounters| && forall i :: 0 <= i < |xs| ==> xs[i] == encounters[i].stepsUntilRevisit
  {
    seq(|encounters|, i requires 0 <= i < |encounters| => encounters[i].stepsUntilRevisit)
  }

  /** The goal of `e` is reached at step `m`: its first step, or a whole number of intervals after it. */
  predicate RecursAt(e: RecurringEncounter, m: int) {
    e.stepsUntilRevisit > 0 && m >= e.firstEncounterStep && (m - e.firstEncounterStep) % e.stepsUntilRevisit == 0
  }

  /**
   * `calculateFirstCommonEncounter`: refused unless every goal is first
   * reached after exactly one interval; then the least common multiple of the
   * intervals.
   */
  function CalculateFirstCommonEncounter(encounters: seq<RecurringEncounter>): (r: Result<int>)
    ensures r.Err? <==> exists i :: 0 <= i < |encounters| && encounters[i].firstEncounterStep != encounters[i].stepsUntilRevisit
    ensures r.Err? ==> r.message == FixedIntervalMessage
    ensures r.Ok? && NonZero(Intervals(encounters)) ==>
      r.value > 0 && forall i :: 0 <= i < |encounters| ==> Divides(Abs(encounters[i].stepsUntilRevisit), r.value)
  {
    if exists i :: 0 <= i < |encounters| && encounters[i].firstEncounterStep != encounters[i].stepsUntilRevisit then
      Err(FixedIntervalMessage)
    else
      var xs := Intervals(encounters);
      if NonZero(xs) then
        LcmAllIsCommonMultiple(xs);
        Ok(LcmAll(xs))
      else
        Ok(LcmAll(xs))
  }

  /** With the first step equal to the interval, a goal recurs at a positive step exactly when the interval divides it. */
  lemma {:induction false} RecursAtMultiples(e: RecurringEncounter, m: int)
    requires e.firstEncounterStep == e.stepsUntilRevisit > 0 && m > 0
    ensures RecursAt(e, m) <==> Divides(e.stepsUntilRevisit, m)
  {
    var s := e.stepsUntilRevisit;
    var q := m / s;
    assert m == q * s + m % s;
    assert m - s == (q - 1) * s + m % s;
    if m >= s {
      ModOfSum(q - 1, s, m % s);
    } else {
      assert m % s == m;
    }
  }

  /**
   * The answer of `calculateFirstCommonEncounter` is the first step at which
   * every goal is reached at once: each recurs there, and no earlier positive
   * step has them all.
   */
  lemma {:induction false} FirstCommonEncounterIsFirst(encounters: seq<RecurringEncounter>, m: int)
    requires forall i :: 0 <= i < |encounters| ==> encounters[i].stepsUntilRevisit > 0
    requires CalculateFirstCommonEncounter(encounters).Ok?
    ensures forall i :: 0 <= i < |encounters| ==> RecursAt(encounters[i], CalculateFirstCommonEncounter(encounters).value)
    ensures m > 0 && (forall i :: 0 <= i < |encounters| ==> RecursAt(encounters[i], m)) ==> CalculateFirstCommonEncounter(encounters).value <= m
  {
    var xs := Intervals(encounters);
    var answer := CalculateFirstCommonEncounter(encounters).value;
    forall i | 0 <= i < |encounters| ensures RecursAt(encounters[i], answer) {
      RecursAtMultiples(encounters[i], answer);
    }
    if m > 0 && (forall i :: 0 <= i < |encounters| ==> RecursAt(encounters[i], m)) {
      forall i | 0 <= i < |xs| ensures Divides(Abs(xs[i]), m) {
        RecursAtMultiples(encounters[i], m);
      }
      LcmAllIsLeast(xs, m);
    }
  }

  /** `e[0]` of every pather's list of recurring encounters, each holding exactly one. */
  function FirstEncounters(byPather: seq<seq<RecurringEncounter>>): (firsts: seq<RecurringEncounter>)
    requires forall i :: 0 <= i < |byPather| ==> |byPather[i]| == 1
    ensures |firsts| == |byPather|
    ensures forall i :: 0 <= i < |byPather| ==> firsts[i] == byPather[i][0]
  {
    seq(|byPather|, i requires 0 <= i < |byPather| => byPather[i][0])
  }

  /**
   * `calculateFirstCommonEncounterAmongPathers`: refused unless every pather
   * recurs on exactly one goal; then the first common encounter of those goals.
   */
  function CalculateFirstCommonEncounterAmongPathers(byPather: seq<seq<RecurringEncounter>>): (r: Result<int>)
    ensures (exists i :: 0 <= i < |byPather| && |byPather[i]| != 1) ==> r == Err(SingleGoalMessage)
    ensures (forall i :: 0 <= i < |byPather| ==> |byPather[i]| == 1) ==> r == CalculateFirstCommonEncounter(FirstEncounters(byPather))
    ensures r.Err? ==> r.message == SingleGoalMessage || r.message == FixedIntervalMessage
    ensures r.Ok? ==> forall i :: 0 <= i < |byPather| ==> |byPather[i]| == 1 && byPather[i][0].firstEncounterStep == byPather[i][0].stepsUntilRevisit
  {
    if exists i :: 0 <= i < |byPather| && |byPather[i]| != 1 then Err(SingleGoalMessage)
    else
      var firsts := FirstEncounters(byPather);
      var r := CalculateFirstCommonEncounter(firsts);
      if r.Ok? then
        assert forall i :: 0 <= i < |byPather| ==> |byPather[i]| == 1 && firsts[i] == byPather[i][0];
        r
      else
        r
  }

  /**
   * The answer among the pathers is the first step at which every pather is
   * on its goal at once: each goal recurs there, and no earlier positive step
   * has them all.
   */
  lemma {:induction false} AmongPathersIsFirst(byPather: seq<seq<RecurringEncounter>>, m: int)
    requires CalculateFirstCommonEncounterAmongPathers(byPather).Ok?
    requires forall i, j :: 0 <= i < |byPather| && 0 <= j < |byPather[i]| ==> byPather[i][j].stepsUntilRevisit > 0
    ensures forall i :: 0 <= i < |byPather| ==> RecursAt(byPather[i][0], CalculateFirstCommonEncounterAmongPathers(byPather).value)
    ensures m > 0 && (forall i :: 0 <= i < |byPather| ==> RecursAt(byPather[i][0], m)) ==>
      CalculateFirstCommonEncounterAmongPathers(byPather).value <= m
  {
    var firsts := FirstEncounters(byPather);
    FirstCommonEncounterIsFirst(firsts, m);
  }


  // Part 2

  /** `isPositionGoal`: the node name ends in `Z`. */
  function IsPositionGoal(position: string): (b: bool)
    ensures b <==> exists prefix :: position == prefix + "Z"
  {
    if |position| > 0 && position[|position| - 1] == 'Z' then
      assert position == position[..|position| - 1] + "Z";
      true
    else
      false
  }

  /** `isPositionGoal(position)` holds: the position is a node name ending in `Z`. */
  predicate OnGoal(position: Position) {
    position.Some? && IsPositionGoal(position.value)
  }

  /** `key.endsWith("A")`: a node where a pather starts. */
  predicate IsStart(name: string) {
    |name| > 0 && name[|name| - 1] == 'A'
  }

  /**
   * A pather as a value: where it stands, the step at which it first reached
   * each goal (a JavaScript `Map`, in insertion order), and, once it has come
   * back to a goal, the recurring encounters of all its goals.
   */
  datatype Pather = Pather(position: Position, firstGoalEncounters: seq<(string, int)>, recurringGoalEncounters: Option<seq<(string, RecurringEncounter)>>)

  /** `Map.prototype.get`: the step recorded for `key`, if any. */
  function Get(entries: seq<(string, int)>, key: string): (r: Option<int>)
    ensures r.None? <==> forall i :: 0 <= i < |entries| ==> entries[i].0 != key
    ensures r.Some? ==> exists i :: 0 <= i < |entries| && entries[i] == (key, r.value)
  {
    if entries == [] then None
    else if entries[0].0 == key then Some(entries[0].1)
    else
      var r := Get(entries[1..], key);
      assert forall i :: 1 <= i < |entries| ==> entries[i] == entries[1..][i - 1];
      if r.Some? then
        var i :| 0 <= i < |entries[1..]| && entries[1..][i] == (key, r.value);
        assert entries[i + 1] == (key, r.value);
        r
      else
        r
  }

  /** Every goal recorded so far, with its first step, as an encounter that recurs every `interval` steps. */
  function Recurrences(firstGoalEncounters: seq<(string, int)>, interval: int): (r: seq<(string, RecurringEncounter)>)
    ensures |r| == |firstGoalEncounters|
    ensures forall i :: 0 <= i < |r| ==> r[i] == (firstGoalEncounters[i].0, RecurringEncounter(firstGoalEncounters[i].1, interval))
  {
    seq(|firstGoalEncounters|, i requires 0 <= i < |firstGoalEncounters| =>
      (firstGoalEncounters[i].0, RecurringEncounter(firstGoalEncounters[i].1, interval)))
  }

  /**
   * A pather arrives at `next` at step `stepCount`: until its encounters
   * recur, a goal seen for the first time is recorded, and a goal seen again
   * turns all recorded goals into recurring encounters at the interval since
   * that goal was first seen.
   */
  function Visit(p: Pather, next: Position, stepCount: int): (q: Pather)
    ensures q.position == next
  {
    var moved := p.(position := next);
    if p.recurringGoalEncounters.None? && OnGoal(next) then
      match Get(p.firstGoalEncounters, next.value)
      case None => moved.(firstGoalEncounters := p.firstGoalEncounters + [(next.value, stepCount)])
      case Some(firstEncounterStep) => moved.(recurringGoalEncounters := Some(Recurrences(p.firstGoalEncounters, stepCount - firstEncounterStep)))
    else
      moved
  }

  /**
   * The body of the inner loop of `part2` for one pather: it moves, and,
   * unless its encounters already recur, `isPositionGoal` tests where it now
   * stands, which throws when that is `undefined`. A pather whose encounters
   * recur skips the test, so it may stand on `undefined` without failing.
   */
  function Step(net: Network, p: Pather, index: nat, stepCount: int): (r: Result<Pather>)
    ensures r.Err? <==> Move(net, p.position, index).Err? || (p.recurringGoalEncounters.None? && Move(net, p.position, index) == Ok(None))
    ensures r.Err? && Move(net, p.position, index).Err? ==> r.message == Move(net, p.position, index).message
    ensures r.Err? && Move(net, p.position, index).Ok? ==> r.message == EndsWithMessage
    ensures r.Ok? ==> r.value == Visit(p, Move(net, p.position, index).value, stepCount)
  {
    match Move(net, p.position, index)
    case Err(m) => Err(m)
    case Ok(next) =>
      if p.recurringGoalEncounters.None? && next.None? then Err(EndsWithMessage)
      else Ok(Visit(p, next, stepCount))
  }

  /**
   * What a pather has recorded after `n` rounds: a `Map` of goals, so each
   * goal once, each a goal, first reached at increasing steps between 1 and
   * `n`; and, once set, a recurring encounter for each recorded goal, in the
   * same order.
   */
  ghost predicate Recorded(p: Pather, n: nat) {
    var firsts := p.firstGoalEncounters;
    (forall i, j :: 0 <= i < j < |firsts| ==> firsts[i].0 != firsts[j].0 && firsts[i].1 < firsts[j].1)
    && (forall i :: 0 <= i < |firsts| ==> IsPositionGoal(firsts[i].0) && 1 <= firsts[i].1 <= n)
    && (p.recurringGoalEncounters.Some? ==>
          |p.recurringGoalEncounters.value| == |firsts| &&
          forall i :: 0 <= i < |firsts| ==> p.recurringGoalEncounters.value[i].0 == firsts[i].0)
  }

  /** Arriving somewhere at step `n + 1` keeps the record of a pather after `n` rounds. */
  lemma {:induction false} VisitKeepsRecorded(p: Pather, next: Position, n: nat)
    requires Recorded(p, n)
    ensures Recorded(Visit(p, next, n + 1), n + 1)
  {
    var q := Visit(p, next, n + 1);
    if p.recurringGoalEncounters.None? && OnGoal(next) && Get(p.firstGoalEncounters, next.value).None? {
      var firsts := q.firstGoalEncounters;
      var olds := p.firstGoalEncounters;
      assert firsts == olds + [(next.value, n + 1)];
      forall i, j | 0 <= i < j < |firsts| ensures firsts[i].0 != firsts[j].0 && firsts[i].1 < firsts[j].1 {
        assert firsts[i] == olds[i];
        if j < |olds| {
          assert firsts[j] == olds[j];
        }
      }
      forall i | 0 <= i < |firsts| ensures IsPositionGoal(firsts[i].0) && 1 <= firsts[i].1 <= n + 1 {
        if i < |olds| {
          assert firsts[i] == olds[i];
        }
      }
    }
  }

  /**
   * Once a pather's encounters recur, they and its first encounters stay as
   * they are; only its position changes.
   */
  lemma {:induction false} VisitKeepsRecurring(p: Pather, next: Position, stepCount: int)
    requires p.recurringGoalEncounters.Some?
    ensures Visit(p, next, stepCount) == p.(position := next)
  {
  }

  /**
   * A pather whose encounters recur and that takes a child its node does not
   * have moves onto `undefined` without failing: the test at the goal is
   * skipped for it.
   */
  lemma {:induction false} RecurringMovesToUndefined(net: Network, p: Pather, index: nat, stepCount: int)
    requires p.recurringGoalEncounters.Some? && Move(net, p.position, index) == Ok(None)
    ensures Step(net, p, index, stepCount) == Ok(p.(position := None))
  {
  }

  /**
   * The first goal a pather comes back to sets its recurring encounters:
   * every goal it has recorded, with its first step, recurring at the
   * interval since that goal was first reached.
   */
  lemma {:induction false} VisitRecurs(p: Pather, next: string, stepCount: int, first: int)
    requires p.recurringGoalEncounters.None? && IsPositionGoal(next)
    requires Get(p.firstGoalEncounters, next) == Some(first)
    ensures var q := Visit(p, Some(next), stepCount);
      q.recurringGoalEncounters.Some? && q.firstGoalEncounters == p.firstGoalEncounters &&
      forall i :: 0 <= i < |p.firstGoalEncounters| ==>
        q.recurringGoalEncounters.value[i].1 == RecurringEncounter(p.firstGoalEncounters[i].1, stepCount - first)
  {
  }

  /** A goal reached for the first time is recorded at the current step, after the others. */
  lemma {:induction false} VisitRecordsFirst(p: Pather, next: string, stepCount: int)
    requires p.recurringGoalEncounters.None? && IsPositionGoal(next)
    requires Get(p.firstGoalEncounters, next).None?
    ensures var q := Visit(p, Some(next), stepCount);
      q.recurringGoalEncounters.None? && q.firstGoalEncounters == p.firstGoalEncounters + [(next, stepCount)]
  {
  }

  /** A `PathFollower`: the record part 2 keeps for each pather and updates in place. */
  class PathFollower {
    var position: Position
    var firstGoalEncounters: seq<(string, int)>
    var recurringGoalEncounters: Option<seq<(string, RecurringEncounter)>>

    /** A pather on a start node, with nothing recorded. */
    constructor (start: string)
      ensures State() == Pather(Some(start), [], None)
    {
      position := Some(start);
      firstGoalEncounters := [];
      recurringGoalEncounters := None;
    }

    function State(): Pather
      reads this
    {
      Pather(position, firstGoalEncounters, recurringGoalEncounters)
    }

    /**
     * The body of the inner loop of `part2` for this pather, once its next
     * position is known: the position is stored, then, unless the encounters
     * recur, the goal test runs, and throws on `undefined`.
     */
    method Follow(next: Position, stepCount: int) returns (r: Result<()>)
      modifies this
      ensures r.Err? <==> old(recurringGoalEncounters).None? && next.None?
      ensures r.Err? ==> r.message == EndsWithMessage && State() == old(State()).(position := next)
      ensures r.Ok? ==> State() == Visit(old(State()), next, stepCount)
    {
      position := next;
      if recurringGoalEncounters.None? {
        if position.None? {
          return Err(EndsWithMessage);
        }
        if IsPositionGoal(position.value) {
          var firstEncounterStep := Get(firstGoalEncounters, position.value);
          if firstEncounterStep.None? {
            firstGoalEncounters := firstGoalEncounters + [(position.value, stepCount)];
          } else {
            recurringGoalEncounters := Some(Recurrences(firstGoalEncounters, stepCount - firstEncounterStep.value));
          }
        }
      }
      return Ok(());
    }
  }

  /** The pathers at the start: one on each node whose name ends in `A`, in the order of the names. */
  function Starts(names: seq<string>): (ps: seq<Pather>)
    ensures forall i :: 0 <= i < |ps| ==> ps[i].position.Some? && IsStart(ps[i].position.value) && ps[i].position.value in names
    ensures forall i :: 0 <= i < |ps| ==> ps[i].firstGoalEncounters == [] && ps[i].recurringGoalEncounters.None?
  {
    if names == [] then []
    else
      var front := Starts(names[..|names| - 1]);
      var last := names[|names| - 1];
      if IsStart(last) then front + [Pather(Some(last), [], None)] else front
  }

  /** The starting pathers of two runs of names are those of the first run, then those of the second. */
  lemma {:induction false} StartsAppend(xs: seq<string>, ys: seq<string>)
    ensures Starts(xs + ys) == Starts(xs) + Starts(ys)
    decreases |ys|
  {
    if ys != [] {
      var front := ys[..|ys| - 1];
      assert (xs + ys)[..|xs + ys| - 1] == xs + front;
      StartsAppend(xs, front);
    } else {
      assert xs + ys == xs;
    }
  }

  /** The first pather whose step throws, given that one does. */
  function FirstThrow(net: Network, ps: seq<Pather>, index: nat, stepCount: int): (k: nat)
    requires exists i :: 0 <= i < |ps| && Step(net, ps[i], index, stepCount).Err?
    ensures k < |ps| && Step(net, ps[k], index, stepCount).Err?
    ensures forall j :: 0 <= j < k ==> Step(net, ps[j], index, stepCount).Ok?
  {
    if Step(net, ps[0], index, stepCount).Err? then 0
    else
      var i :| 0 <= i < |ps| && Step(net, ps[i], index, stepCount).Err?;
      assert ps[1..][i - 1] == ps[i];
      var k := FirstThrow(net, ps[1..], index, stepCount);
      assert forall j :: 1 <= j < k + 1 ==> ps[j] == ps[1..][j - 1];
      k + 1
  }

  /**
   * One round: the pathers take the same instruction one after the other;
   * the first pather whose step throws ends the round with its error.
   */
  function Round(net: Network, ps: seq<Pather>, index: nat, stepCount: int): (r: Result<seq<Pather>>)
    ensures r.Ok? <==> forall i :: 0 <= i < |ps| ==> Step(net, ps[i], index, stepCount).Ok?
    ensures r.Ok? ==> |r.value| == |ps| && forall i :: 0 <= i < |ps| ==> Step(net, ps[i], index, stepCount) == Ok(r.value[i])
    ensures r.Err? ==> r == Err(Step(net, ps[FirstThrow(net, ps, index, stepCount)], index, stepCount).message)
  {
    if forall i :: 0 <= i < |ps| ==> Step(net, ps[i], index, stepCount).Ok? then
      Ok(seq(|ps|, i requires 0 <= i < |ps| && Step(net, ps[i], index, stepCount).Ok? => Step(net, ps[i], index, stepCount).value))
    else
      Err(Step(net, ps[FirstThrow(net, ps, index, stepCount)], index, stepCount).message)
  }

  /** The pather at which a round throws is the first one whose step throws, whichever that is. */
  lemma {:induction false} RoundThrowsAt(net: Network, ps: seq<Pather>, index: nat, stepCount: int, k: nat)
    requires k < |ps| && Step(net, ps[k], index, stepCount).Err?
    requires forall j :: 0 <= j < k ==> Step(net, ps[j], index, stepCount).Ok?
    ensures Round(net, ps, index, stepCount) == Err(Step(net, ps[k], index, stepCount).message)
  {
    var f := FirstThrow(net, ps, index, stepCount);
    assert f == k;
  }

  /** The pathers after `n` rounds, or the error of the round that threw. */
  function StatesAfter(net: Network, n: nat): Result<seq<Pather>> {
    if n == 0 then Ok(Starts(net.names))
    else match StatesAfter(net, n - 1)
      case Err(m) => Err(m)
      case Ok(ps) => Round(net, ps, IndexAfter(net.path, n - 1), n)
  }

  /** `Array.from(map.values())`. */
  function Values(entries: seq<(string, RecurringEncounter)>): (vs: seq<RecurringEncounter>)
    ensures |vs| == |entries| && forall i :: 0 <= i < |vs| ==> vs[i] == entries[i].1
  {
    seq(|entries|, i requires 0 <= i < |entries| => entries[i].1)
  }

  /** The recurring encounters of every pather, all of which are set. */
  function RecurringByPather(ps: seq<Pather>): (byPather: seq<seq<RecurringEncounter>>)
    requires forall i :: 0 <= i < |ps| ==> ps[i].recurringGoalEncounters.Some?
    ensures |byPather| == |ps|
  {
    seq(|ps|, i requires 0 <= i < |ps| && ps[i].recurringGoalEncounters.Some? => Values(ps[i].recurringGoalEncounters.value))
  }

  /**
   * `pathers.every((pos) => isPositionGoal(pos.position))`: it stops at the
   * first pather that is not on a goal, and throws on a pather that stands on
   * `undefined` before any such pather.
   */
  function EveryOnGoal(ps: seq<Pather>): (r: Result<bool>)
    ensures r == Ok(true) <==> forall i :: 0 <= i < |ps| ==> OnGoal(ps[i].position)
    ensures r.Err? <==> exists k :: 0 <= k < |ps| && ps[k].position.None? && OnGoalBefore(ps, k)
    ensures r.Err? ==> r.message == EndsWithMessage
  {
    if ps == [] then Ok(true)
    else if ps[0].position.None? then
      assert OnGoalBefore(ps, 0);
      Err(EndsWithMessage)
    else if !IsPositionGoal(ps[0].position.value) then
      assert forall k :: 0 < k < |ps| ==> !OnGoalBefore(ps, k);
      Ok(false)
    else
      EveryOnGoalShift(ps);
      EveryOnGoal(ps[1..])
  }

  /** Every pather before the `k`-th is on a goal. */
  ghost predicate OnGoalBefore(ps: seq<Pather>, k: nat)
    requires k <= |ps|
  {
    forall j :: 0 <= j < k ==> OnGoal(ps[j].position)
  }

  /** Past a first pather on a goal, `every` goes on with the others. */
  lemma {:induction false} EveryOnGoalShift(ps: seq<Pather>)
    requires |ps| > 0 && OnGoal(ps[0].position)
    ensures (forall i :: 0 <= i < |ps| ==> OnGoal(ps[i].position)) <==> (forall i :: 0 <= i < |ps[1..]| ==> OnGoal(ps[1..][i].position))
    ensures (exists k :: 0 <= k < |ps| && ps[k].position.None? && OnGoalBefore(ps, k)) <==>
      (exists k :: 0 <= k < |ps[1..]| && ps[1..][k].position.None? && OnGoalBefore(ps[1..], k))
  {
    var rest := ps[1..];
    assert forall i :: 1 <= i < |ps| ==> ps[i] == rest[i - 1];
    forall k | 0 <= k < |ps| && ps[k].position.None? && OnGoalBefore(ps, k)
      ensures 0 <= k - 1 < |rest| && rest[k - 1].position.None? && OnGoalBefore(rest, k - 1)
    {
      assert k != 0;
      assert forall j :: 0 <= j < k - 1 ==> rest[j] == ps[j + 1];
    }
    forall k | 0 <= k < |rest| && rest[k].position.None? && OnGoalBefore(rest, k)
      ensures ps[k + 1].position.None? && OnGoalBefore(ps, k + 1)
    {
      assert forall j :: 1 <= j < k + 1 ==> ps[j] == rest[j - 1];
    }
  }

  /**
   * The two checks at the top of the loop of `part2`, after `n` steps: all
   * pathers on goals ends with `n`; all pathers recurring ends with their
   * first common encounter (or its refusal); otherwise the loop goes on.
   * The first check throws on a pather on `undefined` that it reaches.
   */
  function Decision(ps: seq<Pather>, n: nat): Option<Result<int>> {
    match EveryOnGoal(ps)
    case Err(m) => Some(Err(m))
    case Ok(allOnGoals) =>
      if allOnGoals then Some(Ok(n))
      else if forall i :: 0 <= i < |ps| ==> ps[i].recurringGoalEncounters.Some? then
        Some(CalculateFirstCommonEncounterAmongPathers(RecurringByPather(ps)))
      else None
  }

  /**
   * A pather on `undefined` does not stop the checks when a pather before it
   * stands on a node that is not a goal: once every pather recurs, `part2`
   * answers their first common encounter.
   */
  lemma {:induction false} DecisionPastUndefined(ps: seq<Pather>, n: nat, k: nat)
    requires k < |ps| && ps[k].position.Some? && !IsPositionGoal(ps[k].position.value)
    requires OnGoalBefore(ps, k)
    requires forall i :: 0 <= i < |ps| ==> ps[i].recurringGoalEncounters.Some?
    ensures Decision(ps, n) == Some(CalculateFirstCommonEncounterAmongPathers(RecurringByPather(ps)))
  {
    EveryStopsAt(ps, k);
  }

  /**
   * `every` stops at the first pather that stands on a node that is not a
   * goal, whatever the pathers after it stand on, `undefined` included.
   */
  lemma {:induction false} EveryStopsAt(ps: seq<Pather>, k: nat)
    requires k < |ps| && ps[k].position.Some? && !IsPositionGoal(ps[k].position.value)
    requires OnGoalBefore(ps, k)
    ensures EveryOnGoal(ps) == Ok(false)
  {
    assert !OnGoal(ps[k].position);
    forall j | 0 <= j < k
      ensures ps[j].position.Some?
    {
      assert OnGoal(ps[j].position);
    }
    forall j | k < j <= |ps|
      ensures !OnGoalBefore(ps, j)
    {
    }
    var r := EveryOnGoal(ps);
    assert !(exists j :: 0 <= j < |ps| && ps[j].position.None? && OnGoalBefore(ps, j));
    assert r != Ok(true);
    assert r.Ok? && !r.value;
  }

  /** How `part2` ends at the top of its loop after `n` rounds, if it ends there. */
  function Outcome(net: Network, n: nat): Option<Result<int>> {
    match StatesAfter(net, n)
    case Err(m) => Some(Err(m))
    case Ok(ps) => Decision(ps, n)
  }

  /** The loop of `part2` goes on through its first `n` checks. */
  ghost predicate Undecided(net: Network, n: nat) {
    forall j :: 0 <= j < n ==> Outcome(net, j).None?
  }

  /** `part2` ends at its check after `n` rounds. */
  ghost predicate DecidedAt(net: Network, n: nat) {
    Undecided(net, n) && Outcome(net, n).Some?
  }

  /** `part2` ends at most once. */
  lemma {:induction false} DecidedOnce(net: Network, n: nat, n': nat)
    requires DecidedAt(net, n) && DecidedAt(net, n')
    ensures n == n'
  {
  }

  /** A round keeps every pather's record. */
  lemma {:induction false} RoundKeepsRecorded(net: Network, ps: seq<Pather>, qs: seq<Pather>, index: nat, n: nat)
    requires forall i :: 0 <= i < |ps| ==> Recorded(ps[i], n)
    requires Round(net, ps, index, n + 1) == Ok(qs)
    ensures forall i :: 0 <= i < |qs| ==> Recorded(qs[i], n + 1)
  {
    forall i | 0 <= i < |qs| ensures Recorded(qs[i], n + 1) {
      VisitKeepsRecorded(ps[i], Move(net, ps[i].position, index).value, n);
    }
  }

  /** Every pather, after every round the loop of `part2` gets through, has a well-formed record. */
  lemma {:induction false} StatesRecorded(net: Network, n: nat, qs: seq<Pather>)
    requires StatesAfter(net, n) == Ok(qs)
    ensures forall i :: 0 <= i < |qs| ==> Recorded(qs[i], n)
  {
    if n > 0 {
      var ps := StatesAfter(net, n - 1).value;
      StatesRecorded(net, n - 1, ps);
      StepOn(net, n - 1, ps);
      RoundKeepsRecorded(net, ps, qs, IndexAfter(net.path, n - 1), n - 1);
    }
  }

  /** The number of pathers never changes. */
  lemma {:induction false} StatesKeepCount(net: Network, n: nat)
    requires StatesAfter(net, n).Ok?
    ensures |StatesAfter(net, n).value| == |Starts(net.names)|
  {
    if n > 0 {
      StatesKeepCount(net, n - 1);
    }
  }

  /** A round reached after `m` rounds was reached after every earlier number of rounds, with as many pathers. */
  lemma {:induction false} EarlierStates(net: Network, n: nat, m: nat)
    requires n <= m && StatesAfter(net, m).Ok?
    ensures StatesAfter(net, n).Ok?
    ensures |StatesAfter(net, n).value| == |StatesAfter(net, m).value| == |Starts(net.names)|
    decreases m
  {
    StatesKeepCount(net, m);
    if n < m {
      EarlierStates(net, n, m - 1);
    }
  }

  /** Pather `i` after `n` rounds. */
  ghost function PatherAfter(net: Network, n: nat, i: nat): Pather
    requires StatesAfter(net, n).Ok? && i < |StatesAfter(net, n).value|
  {
    StatesAfter(net, n).value[i]
  }

  /** Pather `i` after `n + 1` rounds has made its step of round `n + 1`. */
  lemma {:induction false} PatherSteps(net: Network, n: nat, i: nat)
    requires StatesAfter(net, n + 1).Ok? && i < |Starts(net.names)|
    ensures StatesAfter(net, n).Ok? && i < |StatesAfter(net, n).value| && i < |StatesAfter(net, n + 1).value|
    ensures var p := PatherAfter(net, n, i);
      Move(net, p.position, IndexAfter(net.path, n)).Ok? &&
      PatherAfter(net, n + 1, i) == Visit(p, Move(net, p.position, IndexAfter(net.path, n)).value, n + 1)
  {
    EarlierStates(net, n, n + 1);
  }

  /** Once a pather's goal encounters recur, they never change again. */
  lemma {:induction false} RecurringNeverChanges(net: Network, n: nat, m: nat, i: nat)
    requires n <= m && StatesAfter(net, m).Ok? && i < |Starts(net.names)|
    ensures StatesAfter(net, n).Ok? && i < |StatesAfter(net, n).value| && i < |StatesAfter(net, m).value|
    ensures PatherAfter(net, n, i).recurringGoalEncounters.Some? ==>
      PatherAfter(net, m, i).recurringGoalEncounters == PatherAfter(net, n, i).recurringGoalEncounters
    decreases m
  {
    EarlierStates(net, n, m);
    if n < m {
      RecurringNeverChanges(net, n, m - 1, i);
      PatherSteps(net, m - 1, i);
    }
  }

  /** `Map.prototype.get` on a longer record agrees where the shorter one has the key. */
  lemma {:induction false} GetPrefix(a: seq<(string, int)>, b: seq<(string, int)>, key: string)
    requires a <= b && Get(a, key).Some?
    ensures Get(b, key) == Get(a, key)
    decreases |a|
  {
    if a[0].0 != key {
      assert a[1..] <= b[1..];
      GetPrefix(a[1..], b[1..], key);
    }
  }

  /** A key set for the first time is found with its value. */
  lemma {:induction false} GetAppended(a: seq<(string, int)>, key: string, value: int)
    requires Get(a, key).None?
    ensures Get(a + [(key, value)], key) == Some(value)
    decreases |a|
  {
    if a != [] {
      assert (a + [(key, value)])[1..] == a[1..] + [(key, value)];
      GetAppended(a[1..], key, value);
    }
  }

  /**
   * The states of one pather after 0, 1, 2, ... rounds: it starts with
   * nothing recorded, and after round `t` it has made its visit of round `t`
   * to where it then stands.
   */
  ghost predicate Follows(tr: seq<Pather>) {
    && |tr| > 0
    && tr[0].firstGoalEncounters == [] && tr[0].recurringGoalEncounters.None?
    && forall t :: 1 <= t < |tr| ==> tr[t] == Visit(tr[t - 1], tr[t].position, t)
  }

  /** The first states of a trajectory are one too. */
  lemma {:induction false} FollowsPrefix(tr: seq<Pather>, k: nat)
    requires Follows(tr) && 1 <= k <= |tr|
    ensures Follows(tr[..k])
  {
    assert forall t :: 0 <= t < k ==> tr[..k][t] == tr[t];
  }

  /** A trajectory goes on with the visit of the next round. */
  lemma {:induction false} FollowsExtend(tr: seq<Pather>, q: Pather)
    requires Follows(tr) && q == Visit(tr[|tr| - 1], q.position, |tr|)
    ensures Follows(tr + [q])
  {
    assert forall t :: 0 <= t < |tr| ==> (tr + [q])[t] == tr[t];
  }

  /** Pather `i`'s states through the first `n` rounds, as a trajectory. */
  lemma {:induction false} TrajectoryOf(net: Network, n: nat, i: nat) returns (tr: seq<Pather>)
    requires StatesAfter(net, n).Ok? && i < |Starts(net.names)|
    ensures |tr| == n + 1 && Follows(tr)
    ensures forall t :: 0 <= t <= n ==> StatesAfter(net, t).Ok? && i < |StatesAfter(net, t).value| && tr[t] == PatherAfter(net, t, i)
  {
    if n == 0 {
      tr := TrajectoryStart(net, i);
    } else {
      var m := n - 1;
      assert StatesAfter(net, m).Ok? by {
        EarlierStates(net, m, m + 1);
      }
      var front := TrajectoryOf(net, m, i);
      tr := TrajectoryStep(net, m, i, front);
    }
  }

  /** Pather `i` at the start, as a trajectory of one state. */
  lemma {:induction false} TrajectoryStart(net: Network, i: nat) returns (tr: seq<Pather>)
    requires i < |Starts(net.names)|
    ensures |tr| == 1 && Follows(tr)
    ensures StatesAfter(net, 0).Ok? && i < |StatesAfter(net, 0).value| && tr[0] == PatherAfter(net, 0, i)
  {
    tr := [Starts(net.names)[i]];
  }

  /** Pather `i`'s trajectory through `n` rounds goes on with its state after round `n + 1`. */
  lemma {:induction false} TrajectoryStep(net: Network, n: nat, i: nat, front: seq<Pather>) returns (tr: seq<Pather>)
    requires StatesAfter(net, n + 1).Ok? && i < |Starts(net.names)|
    requires |front| == n + 1 && Follows(front)
    requires forall t :: 0 <= t <= n ==> StatesAfter(net, t).Ok? && i < |StatesAfter(net, t).value| && front[t] == PatherAfter(net, t, i)
    ensures |tr| == n + 2 && Follows(tr)
    ensures forall t :: 0 <= t <= n + 1 ==> StatesAfter(net, t).Ok? && i < |StatesAfter(net, t).value| && tr[t] == PatherAfter(net, t, i)
  {
    PatherSteps(net, n, i);
    var q := PatherAfter(net, n + 1, i);
    FollowsExtend(front, q);
    tr := front + [q];
    assert forall t :: 0 <= t <= n ==> tr[t] == front[t];
  }

  /** Along a trajectory, the first encounters only ever grow, at the end. */
  lemma {:induction false} FirstsGrow(tr: seq<Pather>, t: nat, u: nat)
    requires Follows(tr) && t <= u < |tr|
    ensures tr[t].firstGoalEncounters <= tr[u].firstGoalEncounters
  {
    if t < u {
      FirstsGrow(tr, t, u - 1);
      assert tr[u] == Visit(tr[u - 1], tr[u].position, u);
    }
  }

  /** Along a trajectory, recurring encounters, once set, stay as they are. */
  lemma {:induction false} RecurringStays(tr: seq<Pather>, t: nat, u: nat)
    requires Follows(tr) && t <= u < |tr| && tr[t].recurringGoalEncounters.Some?
    ensures tr[u].recurringGoalEncounters == tr[t].recurringGoalEncounters
  {
    if t < u {
      RecurringStays(tr, t, u - 1);
      assert tr[u] == Visit(tr[u - 1], tr[u].position, u);
    }
  }

  /** Along a trajectory, every state has a well-formed record. */
  lemma {:induction false} TrajectoryRecorded(tr: seq<Pather>, t: nat)
    requires Follows(tr) && t < |tr|
    ensures Recorded(tr[t], t)
  {
    if t > 0 {
      TrajectoryRecorded(tr, t - 1);
      VisitKeepsRecorded(tr[t - 1], tr[t].position, t - 1);
    }
  }

  /**
   * Each first encounter `(goal, step)` of the last state was recorded when
   * the pather arrived at `goal` in round `step`, while its encounters did
   * not recur yet.
   */
  lemma {:induction false} RecordedOnArrival(tr: seq<Pather>, k: nat)
    requires Follows(tr) && k < |tr[|tr| - 1].firstGoalEncounters|
    ensures var (goal, step) := tr[|tr| - 1].firstGoalEncounters[k];
      1 <= step < |tr| && tr[step].position == Some(goal) && tr[step - 1].recurringGoalEncounters.None?
    decreases |tr|
  {
    if |tr| > 1 {
      var front := tr[..|tr| - 1];
      FollowsPrefix(tr, |tr| - 1);
      var p := tr[|tr| - 2];
      if k < |p.firstGoalEncounters| {
        assert tr[|tr| - 1].firstGoalEncounters[k] == p.firstGoalEncounters[k];
        RecordedOnArrival(front, k);
      }
    }
  }

  /**
   * A pather that arrives at a goal in round `t`, before its encounters
   * recur, has that goal recorded by then, at step `t` or earlier.
   */
  lemma {:induction false} ArrivalRecorded(tr: seq<Pather>, t: nat)
    requires Follows(tr) && 1 <= t < |tr|
    requires tr[t - 1].recurringGoalEncounters.None? && OnGoal(tr[t].position)
    ensures Get(tr[t].firstGoalEncounters, tr[t].position.value).Some?
    ensures Get(tr[t].firstGoalEncounters, tr[t].position.value).value <= t
  {
    var p := tr[t - 1];
    var goal := tr[t].position.value;
    var first := Get(p.firstGoalEncounters, goal);
    if first.None? {
      GetAppended(p.firstGoalEncounters, goal, t);
    } else {
      TrajectoryRecorded(tr, t - 1);
      var k :| 0 <= k < |p.firstGoalEncounters| && p.firstGoalEncounters[k] == (goal, first.value);
    }
  }

  /**
   * A goal held with step `s` at the end of a trajectory was not stood on
   * after a round `t` before `s`: the goal would have been recorded then.
   */
  lemma {:induction false} NotBeforeFirstVisit(tr: seq<Pather>, goal: string, s: int, t: nat)
    requires Follows(tr) && Get(tr[|tr| - 1].firstGoalEncounters, goal) == Some(s)
    requires IsPositionGoal(goal) && 1 <= t < s < |tr| && tr[s - 1].recurringGoalEncounters.None?
    ensures tr[t].position != Some(goal)
  {
    if tr[t].position == Some(goal) {
      if tr[t - 1].recurringGoalEncounters.Some? {
        RecurringStays(tr, t - 1, s - 1);
      }
      ArrivalRecorded(tr, t);
      FirstsGrow(tr, t, |tr| - 1);
      GetPrefix(tr[t].firstGoalEncounters, tr[|tr| - 1].firstGoalEncounters, goal);
    }
  }

  /**
   * A pather records the step of its first visit to each goal: a goal held
   * with step `s` is where the pather stood after round `s`, and it stood
   * there after no earlier round.
   */
  lemma {:induction false} FirstVisit(tr: seq<Pather>, goal: string, s: int)
    requires Follows(tr) && Get(tr[|tr| - 1].firstGoalEncounters, goal) == Some(s)
    ensures 1 <= s < |tr| && tr[s].position == Some(goal)
    ensures forall t :: 1 <= t < s ==> tr[t].position != Some(goal)
  {
    var last := tr[|tr| - 1];
    var k :| 0 <= k < |last.firstGoalEncounters| && last.firstGoalEncounters[k] == (goal, s);
    RecordedOnArrival(tr, k);
    TrajectoryRecorded(tr, |tr| - 1);
    assert IsPositionGoal(goal);
    forall t | 1 <= t < s ensures tr[t].position != Some(goal) {
      NotBeforeFirstVisit(tr, goal, s, t);
    }
  }

  /**
   * A pather's encounters start to recur only on coming back to a goal it
   * first stood on after an earlier round `s`, and every recorded goal then
   * recurs at the interval since round `s`.
   */
  lemma {:induction false} RecurringSetOnRevisit(tr: seq<Pather>, t: nat)
    requires Follows(tr) && 1 <= t < |tr|
    requires tr[t - 1].recurringGoalEncounters.None? && tr[t].recurringGoalEncounters.Some?
    ensures OnGoal(tr[t].position)
    ensures exists s ::
      && 1 <= s < t && tr[s].position == tr[t].position
      && tr[t].recurringGoalEncounters == Some(Recurrences(tr[t - 1].firstGoalEncounters, t - s))
  {
    var goal := tr[t].position.value;
    var s := Get(tr[t - 1].firstGoalEncounters, goal).value;
    FollowsPrefix(tr, t);
    FirstVisit(tr[..t], goal, s);
    assert tr[..t][s] == tr[s];
  }

  /**
   * In `part2`, the step a pather holds for a goal is the round after which
   * it first stood there.
   */
  lemma {:induction false} RecordsFirstVisit(net: Network, n: nat, i: nat, goal: string, s: int)
    requires StatesAfter(net, n).Ok? && i < |StatesAfter(net, n).value|
    requires Get(PatherAfter(net, n, i).firstGoalEncounters, goal) == Some(s)
    ensures 1 <= s <= n && StatesAfter(net, s).Ok? && i < |StatesAfter(net, s).value|
    ensures PatherAfter(net, s, i).position == Some(goal)
    ensures forall t :: 1 <= t < s ==> StatesAfter(net, t).Ok? && i < |StatesAfter(net, t).value| && PatherAfter(net, t, i).position != Some(goal)
  {
    StatesKeepCount(net, n);
    var tr := TrajectoryOf(net, n, i);
    FirstVisit(tr, goal, s);
  }

  /** The pathers as values. */
  function States(pathers: seq<PathFollower>): (ps: seq<Pather>)
    reads pathers
    ensures |ps| == |pathers| && forall i :: 0 <= i < |pathers| ==> ps[i] == pathers[i].State()
  {
    seq(|pathers|, i reads pathers requires 0 <= i < |pathers| => pathers[i].State())
  }

  /** No pather appears twice. */
  ghost predicate Distinct(pathers: seq<PathFollower>) {
    forall i, j :: 0 <= i < j < |pathers| ==> pathers[i] != pathers[j]
  }

  /** `Object.keys(input.nodes).filter(...).map(...)`: a fresh pather on every start node. */
  method StartPathers(names: seq<string>) returns (pathers: seq<PathFollower>)
    ensures Distinct(pathers) && forall i :: 0 <= i < |pathers| ==> fresh(pathers[i])
    ensures States(pathers) == Starts(names)
  {
    pathers := [];
    for k := 0 to |names|
      invariant Distinct(pathers) && forall i :: 0 <= i < |pathers| ==> fresh(pathers[i])
      invariant States(pathers) == Starts(names[..k])
    {
      assert names[..k + 1][..k] == names[..k];
      if IsStart(names[k]) {
        var pather := new PathFollower(names[k]);
        pathers := pathers + [pather];
      }
    }
    assert names[..|names|] == names;
  }

  /**
   * The inner loop of `part2`: each pather in turn takes the instruction at
   * `index`; the first one whose step throws ends the loop with its error.
   */
  method MoveAll(net: Network, pathers: seq<PathFollower>, index: nat, stepCount: int, ghost before: seq<Pather>) returns (r: Result<()>)
    requires Distinct(pathers) && States(pathers) == before
    modifies pathers
    ensures r.Ok? ==> Round(net, before, index, stepCount) == Ok(States(pathers))
    ensures r.Err? ==> Round(net, before, index, stepCount) == Err(r.message)
  {
    for k := 0 to |pathers|
      invariant forall i :: 0 <= i < k ==> Step(net, before[i], index, stepCount) == Ok(pathers[i].State())
      invariant forall i :: k <= i < |pathers| ==> pathers[i].State() == before[i]
    {
      var pather := pathers[k];
      var next := Move(net, pather.position, index);
      if next.Err? {
        RoundThrowsAt(net, before, index, stepCount, k);
        return Err(next.message);
      }
      var followed := pather.Follow(next.value, stepCount);
      if followed.Err? {
        RoundThrowsAt(net, before, index, stepCount, k);
        return Err(followed.message);
      }
    }
    assert States(pathers) == Round(net, before, index, stepCount).value;
    return Ok(());
  }

  /**
   * How the loop of `part2` ends from its check after `n` rounds on, when it
   * is cut off after `fuel` rounds: the first check that ends it, or `None`.
   */
  function Runs(net: Network, n: nat, fuel: nat): Option<Result<int>>
    decreases fuel - n
  {
    if Outcome(net, n).Some? then Outcome(net, n)
    else if n >= fuel then None
    else Runs(net, n + 1, fuel)
  }

  /**
   * From a check the loop reaches, it ends where `part2` is decided, with
   * that check's outcome; or, cut off, it has gone on through every check
   * up to the one after `fuel` rounds.
   */
  lemma {:induction false} RunsDecides(net: Network, n: nat, fuel: nat)
    requires Undecided(net, n) && n <= fuel
    ensures Runs(net, n, fuel).Some? ==> exists m :: n <= m <= fuel && DecidedAt(net, m) && Runs(net, n, fuel) == Outcome(net, m)
    ensures Runs(net, n, fuel).None? ==> Undecided(net, fuel + 1)
    decreases fuel - n
  {
    if Outcome(net, n).Some? {
      assert DecidedAt(net, n);
    } else {
      assert Undecided(net, n + 1);
      if n < fuel {
        RunsDecides(net, n + 1, fuel);
      }
    }
  }

  /** The pathers after one more round are those of one round from the pathers before it. */
  lemma {:induction false} StepOn(net: Network, n: nat, ps: seq<Pather>)
    requires StatesAfter(net, n) == Ok(ps)
    ensures StatesAfter(net, n + 1) == Round(net, ps, IndexAfter(net.path, n), n + 1)
  {
  }

  /** The two checks at the top of the loop of `part2`. */
  method Check(pathers: seq<PathFollower>, stepCount: nat, ghost ps: seq<Pather>) returns (decision: Option<Result<int>>)
    requires States(pathers) == ps
    ensures decision == Decision(ps, stepCount)
  {
    var allOnGoals := EveryOnGoal(States(pathers));
    if allOnGoals.Err? {
      return Some(Err(allOnGoals.message));
    }
    if allOnGoals.value {
      return Some(Ok(stepCount));
    }
    if forall i :: 0 <= i < |pathers| ==> pathers[i].recurringGoalEncounters.Some? {
      return Some(CalculateFirstCommonEncounterAmongPathers(RecurringByPather(States(pathers))));
    }
    return None;
  }

  /**
   * The loop of `part2`. It is cut off after `fuel` rounds, with `None`.
   */
  method Run(net: Network, fuel: nat) returns (r: Option<Result<int>>)
    ensures r == Runs(net, 0, fuel)
  {
    var pathers := StartPathers(net.names);
    var stepCount: nat := 0;
    var stepPathIndex: nat := 0;
    while true
      invariant Distinct(pathers) && forall i :: 0 <= i < |pathers| ==> fresh(pathers[i])
      invariant StatesAfter(net, stepCount) == Ok(States(pathers))
      invariant Runs(net, stepCount, fuel) == Runs(net, 0, fuel)
      invariant stepPathIndex == IndexAfter(net.path, stepCount)
      invariant stepCount <= fuel
      decreases fuel - stepCount
    {
      var done;
      done, stepPathIndex := Iterate(net, pathers, stepCount, stepPathIndex, fuel);
      if done.Some? {
        return done.value;
      }
      stepCount := stepCount + 1;
    }
  }

  /**
   * One pass through the body of the loop of `part2`: the two checks, the
   * cut-off, and one round. `Some(r)` when the loop returns `r` here.
   */
  method Iterate(net: Network, pathers: seq<PathFollower>, stepCount: nat, stepPathIndex: nat, fuel: nat)
    returns (done: Option<Option<Result<int>>>, nextPathIndex: nat)
    requires Distinct(pathers) && StatesAfter(net, stepCount) == Ok(States(pathers))
    requires stepPathIndex == IndexAfter(net.path, stepCount) && stepCount <= fuel
    modifies pathers
    ensures done.Some? ==> done.value == Runs(net, stepCount, fuel)
    ensures done.None? ==> stepCount < fuel && Runs(net, stepCount + 1, fuel) == Runs(net, stepCount, fuel)
    ensures done.None? ==> StatesAfter(net, stepCount + 1) == Ok(States(pathers)) && nextPathIndex == IndexAfter(net.path, stepCount + 1)
  {
    ghost var ps := States(pathers);
    var decision := Check(pathers, stepCount, ps);
    RunsEnds(net, stepCount, fuel, ps);
    if decision.Some? {
      return Some(decision), stepPathIndex;
    }
    if stepCount == fuel {
      return Some(None), stepPathIndex;
    }
    done, nextPathIndex := Proceed(net, pathers, stepCount, stepPathIndex, fuel, ps);
  }

  /**
   * The body of the loop of `part2` past its checks: one round, which either
   * throws, and the loop ends with its error, or leads to the next check.
   */
  method Proceed(net: Network, pathers: seq<PathFollower>, stepCount: nat, stepPathIndex: nat, fuel: nat, ghost ps: seq<Pather>)
    returns (done: Option<Option<Result<int>>>, nextPathIndex: nat)
    requires Distinct(pathers) && States(pathers) == ps && StatesAfter(net, stepCount) == Ok(ps)
    requires stepPathIndex == IndexAfter(net.path, stepCount)
    modifies pathers
    ensures done.Some? ==> done.value == Runs(net, stepCount + 1, fuel)
    ensures done.None? ==> StatesAfter(net, stepCount + 1) == Ok(States(pathers)) && nextPathIndex == IndexAfter(net.path, stepCount + 1)
  {
    var moved;
    moved, nextPathIndex := Advance(net, pathers, stepCount, stepPathIndex, ps);
    if moved.Err? {
      RunsFails(net, stepCount + 1, fuel);
      return Some(Some(Err(moved.message))), nextPathIndex;
    }
    done := None;
  }

  /**
   * The rest of the body of the loop of `part2`: read the instruction,
   * advance the index, and move every pather by it.
   */
  method Advance(net: Network, pathers: seq<PathFollower>, stepCount: nat, stepPathIndex: nat, ghost ps: seq<Pather>)
    returns (r: Result<()>, nextPathIndex: nat)
    requires Distinct(pathers) && States(pathers) == ps && StatesAfter(net, stepCount) == Ok(ps)
    requires stepPathIndex == IndexAfter(net.path, stepCount)
    modifies pathers
    ensures nextPathIndex == IndexAfter(net.path, stepCount + 1)
    ensures r.Ok? ==> StatesAfter(net, stepCount + 1) == Ok(States(pathers))
    ensures r.Err? ==> StatesAfter(net, stepCount + 1) == Err(r.message)
  {
    var index := stepPathIndex;
    nextPathIndex := NextPathIndex(net.path, stepCount, stepPathIndex);
    r := MoveAll(net, pathers, index, stepCount + 1, ps);
    StepOn(net, stepCount, ps);
  }

  /** The check after `n` rounds ends the loop with its decision, or lets it go on. */
  lemma {:induction false} RunsEnds(net: Network, n: nat, fuel: nat, ps: seq<Pather>)
    requires StatesAfter(net, n) == Ok(ps)
    ensures Decision(ps, n).Some? ==> Runs(net, n, fuel) == Decision(ps, n)
    ensures Decision(ps, n).None? && n >= fuel ==> Runs(net, n, fuel).None?
    ensures Decision(ps, n).None? && n < fuel ==> Runs(net, n, fuel) == Runs(net, n + 1, fuel)
  {
  }

  /** A round that throws ends the loop with the runtime's error. */
  lemma {:induction false} RunsFails(net: Network, n: nat, fuel: nat)
    requires StatesAfter(net, n).Err?
    ensures Runs(net, n, fuel) == Some(Err(StatesAfter(net, n).message))
  {
  }

  /** `part2(input)`: parse, then run the pathers. */
  method Part2(input: string, fuel: nat) returns (r: Option<Result<int>>)
    ensures NetworkOf(input).Err? ==> r == Some(Err(NetworkOf(input).message))
    ensures NetworkOf(input).Ok? && r.Some? ==> exists n :: DecidedAt(NetworkOf(input).value, n) && r == Outcome(NetworkOf(input).value, n)
    ensures NetworkOf(input).Ok? && r.None? ==> Undecided(NetworkOf(input).value, fuel + 1)
  {
    var parsed := Parse(input);
    if parsed.Err? {
      return Some(Err(parsed.message));
    }
    r := Run(parsed.value, fuel);
    RunsDecides(parsed.value, 0, fuel);
  }
}
