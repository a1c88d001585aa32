/**
 * day_2.ts: the cube game. Each game lists subsets of red, green and blue
 * cubes drawn from a bag; the first part sums the ids of the games possible
 * with 12 red, 13 green and 14 blue cubes, the second sums the powers of the
 * smallest bag that makes each game possible.
 */
module Day2 {
  import opened Outcomes

  datatype Colour = Red | Green | Blue

  /** A subset of cubes: one count per colour. */
  datatype Subset = Subset(red: nat, green: nat, blue: nat)

  datatype Game = Game(id: int, subsets: seq<Subset>)

  const Colours: seq<Colour> := [Red, Green, Blue]

  /** `subset[colour]`. */
  function Component(s: Subset, c: Colour): nat {
    match c
    case Red => s.red
    case Green => s.green
    case Blue => s.blue
  }

  /** `subset[colour] = n`: only that colour changes. */
  function WithComponent(s: Subset, c: Colour, n: nat): (t: Subset)
    ensures Component(t, c) == n
    ensures forall d :: d != c ==> Component(t, d) == Component(s, d)
  {
    match c
    case Red => s.(red := n)
    case Green => s.(green := n)
    case Blue => s.(blue := n)
  }

  /** The colour a name in the input stands for; any other name is stored under a key no answer reads. */
  function ColourNamed(name: string): Option<Colour> {
    if name == "red" then Some(Red)
    else if name == "green" then Some(Green)
    else if name == "blue" then Some(Blue)
    else None
  }

  /** The count given to colour c by the last of `parts` that names it, or 0 when none does. */
  function LastCount(parts: seq<(nat, string)>, c: Colour): nat {
    if parts == [] then 0
    else if ColourNamed(parts[|parts| - 1].1) == Some(c) then parts[|parts| - 1].0
    else LastCount(parts[..|parts| - 1], c)
  }

  /**
   * The subset-filling loop of `parse`: start from all zeros and store each
   * `count colour` part under its colour.
   */
  method ParseSubset(parts: seq<(nat, string)>) returns (subset: Subset)
    ensures forall c :: Component(subset, c) == LastCount(parts, c)
  {
    subset := Subset(0, 0, 0);
    for k := 0 to |parts|
      invariant forall c :: Component(subset, c) == LastCount(parts[..k], c)
    {
      assert parts[..k + 1][..k] == parts[..k];
      var (count, name) := parts[k];
      match ColourNamed(name)
      case Some(c) => subset := WithComponent(subset, c, count);
      case None =>
    }
    assert parts[..|parts|] == parts;
  }

  /** A colour that no part names is 0; a named colour takes the count of a part naming it. */
  lemma {:induction false} LastCountSource(parts: seq<(nat, string)>, c: Colour)
    ensures (forall k :: 0 <= k < |parts| ==> ColourNamed(parts[k].1) != Some(c)) ==> LastCount(parts, c) == 0
    ensures (exists k :: 0 <= k < |parts| && ColourNamed(parts[k].1) == Some(c))
      ==> exists k :: 0 <= k < |parts| && ColourNamed(parts[k].1) == Some(c) && LastCount(parts, c) == parts[k].0
  {
    if parts != [] {
      var init := parts[..|parts| - 1];
      LastCountSource(init, c);
      assert forall k :: 0 <= k < |init| ==> init[k] == parts[k];
      if ColourNamed(parts[|parts| - 1].1) != Some(c) && exists k :: 0 <= k < |parts| && ColourNamed(parts[k].1) == Some(c) {
        var k :| 0 <= k < |parts| && ColourNamed(parts[k].1) == Some(c);
        assert k < |init|;
      }
    }
  }

  /** Whether a subset could be drawn from 12 red, 13 green and 14 blue cubes. */
  predicate WithinLimits(s: Subset) {
    s.red <= 12 && s.green <= 13 && s.blue <= 14
  }

  predicate Possible(g: Game) {
    forall k :: 0 <= k < |g.subsets| ==> WithinLimits(g.subsets[k])
  }

  /** `part1`: the ids of the possible games, summed. */
  function Part1(games: seq<Game>): int {
    if games == [] then 0
    else Part1(games[..|games| - 1]) + (if Possible(games[|games| - 1]) then games[|games| - 1].id else 0)
  }

  /** The filter-and-sum splits over a concatenation of game lists. */
  lemma {:induction false} Part1Append(a: seq<Game>, b: seq<Game>)
    ensures Part1(a + b) == Part1(a) + Part1(b)
    decreases |b|
  {
    if b == [] {
      assert a + b == a;
    } else {
      assert (a + b)[..|a + b| - 1] == a + b[..|b| - 1];
      Part1Append(a, b[..|b| - 1]);
    }
  }

  /** With non-negative ids, the answer is at most the sum of all ids, and equal to it when every game is possible. */
  lemma {:induction false} Part1Bound(games: seq<Game>)
    requires forall k :: 0 <= k < |games| ==> games[k].id >= 0
    ensures 0 <= Part1(games) <= SumIds(games)
    ensures (forall k :: 0 <= k < |games| ==> Possible(games[k])) ==> Part1(games) == SumIds(games)
  {
    if games != [] {
      var init := games[..|games| - 1];
      assert forall k :: 0 <= k < |init| ==> init[k] == games[k];
      Part1Bound(init);
    }
  }

  function SumIds(games: seq<Game>): int {
    if games == [] then 0 else SumIds(games[..|games| - 1]) + games[|games| - 1].id
  }

  function Max(a: nat, b: nat): nat {
    if a < b then b else a
  }

  /** The componentwise maximum of the subsets, starting from all zeros. */
  function MinimumOf(subsets: seq<Subset>): Subset {
    if subsets == [] then Subset(0, 0, 0)
    else
      var m := MinimumOf(subsets[..|subsets| - 1]);
      var s := subsets[|subsets| - 1];
      Subset(Max(m.red, s.red), Max(m.green, s.green), Max(m.blue, s.blue))
  }

  /**
   * The smallest bag that makes the game possible: every subset fits in it,
   * and each colour is either 0 or reached by some subset, so no smaller bag works.
   */
  lemma {:induction false} MinimumOfIsLeast(subsets: seq<Subset>, c: Colour)
    ensures forall k :: 0 <= k < |subsets| ==> Component(subsets[k], c) <= Component(MinimumOf(subsets), c)
    ensures Component(MinimumOf(subsets), c) == 0
      || exists k :: 0 <= k < |subsets| && Component(subsets[k], c) == Component(MinimumOf(subsets), c)
  {
    if subsets != [] {
      var init := subsets[..|subsets| - 1];
      MinimumOfIsLeast(init, c);
      assert forall k :: 0 <= k < |init| ==> init[k] == subsets[k];
      var m := Component(MinimumOf(init), c);
      if m != 0 && m > Component(subsets[|subsets| - 1], c) {
        var k :| 0 <= k < |init| && Component(init[k], c) == m;
        assert Component(subsets[k], c) == m;
      }
    }
  }

  /** `minimumSubset(game)`: the nested loops of the source, over the subsets and then over the three colours. */
  method MinimumSubset(game: Game) returns (minimum: Subset)
    ensures minimum == MinimumOf(game.subsets)
  {
    minimum := Subset(0, 0, 0);
    for k := 0 to |game.subsets|
      invariant minimum == MinimumOf(game.subsets[..k])
    {
      assert game.subsets[..k + 1][..k] == game.subsets[..k];
      var subset := game.subsets[k];
      ghost var before := minimum;
      assert Colours[0] == Red && Colours[1] == Green && Colours[2] == Blue;
      for i := 0 to |Colours|
        invariant forall j :: 0 <= j < i ==> Component(minimum, Colours[j]) == Max(Component(before, Colours[j]), Component(subset, Colours[j]))
        invariant forall j :: i <= j < |Colours| ==> Component(minimum, Colours[j]) == Component(before, Colours[j])
      {
        var colour := Colours[i];
        minimum := WithComponent(minimum, colour, Max(Component(minimum, colour), Component(subset, colour)));
      }
      assert Component(minimum, Red) == Max(before.red, subset.red);
      assert Component(minimum, Green) == Max(before.green, subset.green);
      assert Component(minimum, Blue) == Max(before.blue, subset.blue);
    }
    assert game.subsets[..|game.subsets|] == game.subsets;
  }

  /** `power(subset)`. */
  function Power(s: Subset): (p: nat)
    ensures p == 0 <==> s.red == 0 || s.green == 0 || s.blue == 0
  {
    ProductZero(s.red, s.green, s.blue);
    s.red * s.green * s.blue
  }

  /** No subset shows any cube of colour c. */
  predicate Missing(subsets: seq<Subset>, c: Colour) {
    forall k :: 0 <= k < |subsets| ==> Component(subsets[k], c) == 0
  }

  /** The power of the smallest bag is 0 exactly when some colour never appears in any subset. */
  lemma {:induction false} PowerZeroIffColourMissing(subsets: seq<Subset>)
    ensures Power(MinimumOf(subsets)) == 0 <==> exists c :: Missing(subsets, c)
  {
    var m := MinimumOf(subsets);
    ProductZero(m.red, m.green, m.blue);
    MinimumOfIsLeast(subsets, Red);
    MinimumOfIsLeast(subsets, Green);
    MinimumOfIsLeast(subsets, Blue);
    if Power(m) == 0 {
      var c := if m.red == 0 then Red else if m.green == 0 then Green else Blue;
      assert Component(m, c) == 0;
      assert Missing(subsets, c);
    } else {
      forall c ensures !Missing(subsets, c) {
        assert Component(m, c) != 0;
      }
    }
  }

  lemma {:induction false} ProductZero(a: nat, b: nat, c: nat)
    ensures a * b * c == 0 <==> a == 0 || b == 0 || c == 0
  {
    if a > 0 && b > 0 && c > 0 {
      assert a * b >= 1;
      assert a * b * c >= 1;
    }
  }

  /** `part2`: the powers of the smallest bags of all games, summed. */
  function Part2(games: seq<Game>): nat {
    if games == [] then 0 else Part2(games[..|games| - 1]) + Power(MinimumOf(games[|games| - 1].subsets))
  }

  /** The five games of the worked example, each subset as red, green and blue counts. */
  const ExampleGames: seq<Game> := [
    Game(1, [Subset(4, 0, 3), Subset(1, 2, 6), Subset(0, 2, 0)]),
    Game(2, [Subset(0, 2, 1), Subset(1, 3, 4), Subset(0, 1, 1)]),
    Game(3, [Subset(20, 8, 6), Subset(4, 13, 5), Subset(1, 5, 0)]),
    Game(4, [Subset(3, 1, 6), Subset(6, 3, 0), Subset(14, 3, 15)]),
    Game(5, [Subset(6, 3, 1), Subset(1, 2, 2)])
  ]

  lemma {:induction false} ExamplePart1()
    ensures Part1(ExampleGames) == 8
  {
    var g := ExampleGames;
    assert Possible(g[0]) && Possible(g[1]) && Possible(g[4]);
    assert !WithinLimits(g[2].subsets[0]) && !WithinLimits(g[3].subsets[2]);
    assert Part1(g[..1]) == 1 by { assert g[..1][..0] == []; }
    assert Part1(g[..2]) == 3 by { assert g[..2][..1] == g[..1]; }
    assert Part1(g[..3]) == 3 by { assert g[..3][..2] == g[..2]; }
    assert Part1(g[..4]) == 3 by { assert g[..4][..3] == g[..3]; }
    assert Part1(g[..5]) == 8 by { assert g[..5][..4] == g[..4]; }
    assert g[..5] == g;
  }

  /** The smallest bag of each example game. */
  lemma {:induction false} ExampleMinimums()
    ensures MinimumOf(ExampleGames[0].subsets) == Subset(4, 2, 6)
    ensures MinimumOf(ExampleGames[1].subsets) == Subset(1, 3, 4)
    ensures MinimumOf(ExampleGames[2].subsets) == Subset(20, 13, 6)
    ensures MinimumOf(ExampleGames[3].subsets) == Subset(14, 3, 15)
    ensures MinimumOf(ExampleGames[4].subsets) == Subset(6, 3, 2)
  {
    ExampleMinimum0();
    ExampleMinimum1();
    ExampleMinimum2();
    ExampleMinimum3();
    ExampleMinimum4();
  }

  lemma {:induction false} ExampleMinimum0()
    ensures MinimumOf(ExampleGames[0].subsets) == Subset(4, 2, 6)
  {
    var g := ExampleGames;
    assert g[0].subsets[..1][..0] == [];
    assert MinimumOf(g[0].subsets[..1]) == Subset(4, 0, 3);
    assert g[0].subsets[..2][..1] == g[0].subsets[..1];
    assert MinimumOf(g[0].subsets[..2]) == Subset(4, 2, 6);
    assert g[0].subsets[..3][..2] == g[0].subsets[..2];
    assert MinimumOf(g[0].subsets[..3]) == Subset(4, 2, 6);
    assert g[0].subsets[..3] == g[0].subsets;
  }

  lemma {:induction false} ExampleMinimum1()
    ensures MinimumOf(ExampleGames[1].subsets) == Subset(1, 3, 4)
  {
    var g := ExampleGames;
    assert g[1].subsets[..1][..0] == [];
    assert MinimumOf(g[1].subsets[..1]) == Subset(0, 2, 1);
    assert g[1].subsets[..2][..1] == g[1].subsets[..1];
    assert MinimumOf(g[1].subsets[..2]) == Subset(1, 3, 4);
    assert g[1].subsets[..3][..2] == g[1].subsets[..2];
    assert MinimumOf(g[1].subsets[..3]) == Subset(1, 3, 4);
    assert g[1].subsets[..3] == g[1].subsets;
  }

  lemma {:induction false} ExampleMinimum2()
    ensures MinimumOf(ExampleGames[2].subsets) == Subset(20, 13, 6)
  {
    var g := ExampleGames;
    assert g[2].subsets[..1][..0] == [];
    assert MinimumOf(g[2].subsets[..1]) == Subset(20, 8, 6);
    assert g[2].subsets[..2][..1] == g[2].subsets[..1];
    assert MinimumOf(g[2].subsets[..2]) == Subset(20, 13, 6);
    assert g[2].subsets[..3][..2] == g[2].subsets[..2];
    assert MinimumOf(g[2].subsets[..3]) == Subset(20, 13, 6);
    assert g[2].subsets[..3] == g[2].subsets;
  }

  lemma {:induction false} ExampleMinimum3()
    ensures MinimumOf(ExampleGames[3].subsets) == Subset(14, 3, 15)
  {
    var g := ExampleGames;
    assert g[3].subsets[..1][..0] == [];
    assert MinimumOf(g[3].subsets[..1]) == Subset(3, 1, 6);
    assert g[3].subsets[..2][..1] == g[3].subsets[..1];
    assert MinimumOf(g[3].subsets[..2]) == Subset(6, 3, 6);
    assert g[3].subsets[..3][..2] == g[3].subsets[..2];
    assert MinimumOf(g[3].subsets[..3]) == Subset(14, 3, 15);
    assert g[3].subsets[..3] == g[3].subsets;
  }

  lemma {:induction false} ExampleMinimum4()
    ensures MinimumOf(ExampleGames[4].subsets) == Subset(6, 3, 2)
  {
    var g := ExampleGames;
    assert g[4].subsets[..1][..0] == [];
    assert MinimumOf(g[4].subsets[..1]) == Subset(6, 3, 1);
    assert g[4].subsets[..2][..1] == g[4].subsets[..1];
    assert MinimumOf(g[4].subsets[..2]) == Subset(6, 3, 2);
    assert g[4].subsets[..2] == g[4].subsets;
  }

  lemma {:induction false} ExamplePart2()
    ensures Part2(ExampleGames) == 2286
  {
    var g := ExampleGames;
    ExampleMinimums();
    assert Part2(g[..1]) == 48 by { assert g[..1][..0] == []; }
    assert Part2(g[..2]) == 60 by { assert g[..2][..1] == g[..1]; }
    assert Part2(g[..3]) == 1620 by { assert g[..3][..2] == g[..2]; }
    assert Part2(g[..4]) == 2250 by { assert g[..4][..3] == g[..3]; }
    assert Part2(g[..5]) == 2286 by { assert g[..5][..4] == g[..4]; }
    assert g[..5] == g;
  }
}
