/**
 * The examples of day 8, on networks as `parse` produces them: the walks of
 * part 1, the least common multiples of `calculateFirstCommonEncounter`, and
 * the pathers of part 2.
 */
module Day8Examples {
  import opened Outcomes
  import opened Multiples
  import opened Day8

  // Part 1

  /** The first example network: `RL`, and seven nodes. */
  const Walk1 := Network("RL", ["AAA", "BBB", "CCC", "DDD", "EEE", "GGG", "ZZZ"],
    map["AAA" := ["BBB", "CCC"], "BBB" := ["DDD", "EEE"], "CCC" := ["ZZZ", "GGG"],
        "DDD" := ["DDD", "DDD"], "EEE" := ["EEE", "EEE"], "GGG" := ["GGG", "GGG"],
        "ZZZ" := ["ZZZ", "ZZZ"]])

  /** The second example network: `LLR`, and three nodes. */
  const Walk2 := Network("LLR", ["AAA", "BBB", "ZZZ"],
    map["AAA" := ["BBB", "BBB"], "BBB" := ["AAA", "ZZZ"], "ZZZ" := ["ZZZ", "ZZZ"]])

  /** The first walk goes `AAA`, `CCC`, `ZZZ`: part 1 answers 2, and nothing else. */
  lemma {:induction false} Walk1Answer(k: nat)
    requires ArrivesAt(Walk1, k) || BreaksAt(Walk1, k)
    ensures ArrivesAt(Walk1, 2) && k == 2
  {
    assert PositionAfter(Walk1, 1) == Ok(Some("CCC"));
    assert PositionAfter(Walk1, 2) == Ok(Some("ZZZ"));
    OneOutcome(Walk1, k, 2);
  }

  /** The second walk goes round `AAA`, `BBB` twice before `ZZZ`: part 1 answers 6, and nothing else. */
  lemma {:induction false} Walk2Answer(k: nat)
    requires ArrivesAt(Walk2, k) || BreaksAt(Walk2, k)
    ensures ArrivesAt(Walk2, 6) && k == 6
  {
    assert PositionAfter(Walk2, 1) == Ok(Some("BBB"));
    assert PositionAfter(Walk2, 2) == Ok(Some("AAA"));
    assert PositionAfter(Walk2, 3) == Ok(Some("BBB"));
    assert PositionAfter(Walk2, 4) == Ok(Some("AAA"));
    assert PositionAfter(Walk2, 5) == Ok(Some("BBB"));
    assert PositionAfter(Walk2, 6) == Ok(Some("ZZZ"));
    OneOutcome(Walk2, k, 6);
  }

  // calculateFirstCommonEncounter

  /** The least common multiple of two positive numbers, given their greatest common divisor. */
  lemma {:induction false} LcmOf(a: int, b: int, g: nat, l: nat)
    requires a > 0 && b > 0 && Gcd(a, b) == g && g > 0 && l == (a / g) * b
    ensures Lcm(a, b) == l
  {
  }

  /** Goals recurring every 2 and every 3 steps meet first at step 6. */
  lemma {:induction false} CommonEncounterBasic()
    ensures CalculateFirstCommonEncounter([RecurringEncounter(2, 2), RecurringEncounter(3, 3)]) == Ok(6)
  {
    var es := [RecurringEncounter(2, 2), RecurringEncounter(3, 3)];
    assert Intervals(es) == [2, 3];
    assert LcmAll([3]) == 3 by {
      LcmOf(3, 1, 1, 3);
    }
    assert [2, 3][1..] == [3];
    LcmOf(2, 3, 1, 6);
  }

  /** One more value in front of a fold whose least common multiple is known. */
  lemma {:induction false} LcmAllCons(x: int, xs: seq<int>, rest: nat, g: nat, l: nat)
    requires LcmAll(xs) == rest && x > 0 && rest > 0 && Gcd(x, rest) == g && g > 0 && l == (x / g) * rest
    ensures LcmAll([x] + xs) == l
  {
    assert ([x] + xs)[1..] == xs;
    LcmOf(x, rest, g, l);
  }

  /** The intervals of the large example share the factor 271, folded from the right. */
  lemma {:induction false} LargeFold2()
    ensures LcmAll([19241, 19783]) == 1404593
  {
    assert LcmAll([19783]) == 19783 by {
      LcmOf(19783, 1, 1, 19783);
    }
    LcmAllCons(19241, [19783], 19783, 271, 1404593);
  }

  lemma {:induction false} LargeFold3()
    ensures LcmAll([16531, 19241, 19783]) == 85680173
  {
    LargeFold2();
    LcmAllCons(16531, [19241, 19783], 1404593, 271, 85680173);
  }

  lemma {:induction false} LargeFold4()
    ensures LcmAll([15989, 16531, 19241, 19783]) == 5055130207
  {
    LargeFold3();
    LcmAllCons(15989, [16531, 19241, 19783], 85680173, 271, 5055130207);
  }

  lemma {:induction false} LargeFold5()
    ensures LcmAll([14363, 15989, 16531, 19241, 19783]) == 267921900971
  {
    LargeFold4();
    LcmAllCons(14363, [15989, 16531, 19241, 19783], 5055130207, 271, 267921900971);
  }

  /** Six goals whose intervals share the factor 271 meet first at step 21165830176709. */
  lemma {:induction false} CommonEncounterLarge()
    ensures CalculateFirstCommonEncounter([
      RecurringEncounter(21409, 21409), RecurringEncounter(14363, 14363), RecurringEncounter(15989, 15989),
      RecurringEncounter(16531, 16531), RecurringEncounter(19241, 19241), RecurringEncounter(19783, 19783)])
      == Ok(21165830176709)
  {
    var es := [
      RecurringEncounter(21409, 21409), RecurringEncounter(14363, 14363), RecurringEncounter(15989, 15989),
      RecurringEncounter(16531, 16531), RecurringEncounter(19241, 19241), RecurringEncounter(19783, 19783)];
    assert forall i :: 0 <= i < |es| ==> es[i].firstEncounterStep == es[i].stepsUntilRevisit;
    assert Intervals(es) == [21409, 14363, 15989, 16531, 19241, 19783];
    LargeFold5();
    LcmAllCons(21409, [14363, 15989, 16531, 19241, 19783], 267921900971, 271, 21165830176709);
  }

  // Part 2

  /** The third example network: two pathers, on loops of two and three steps. */
  const Ghosts1 := Network("LR", ["11A", "11B", "11Z", "22A", "22B", "22C", "22Z", "XXX"],
    map["11A" := ["11B", "XXX"], "11B" := ["XXX", "11Z"], "11Z" := ["11B", "XXX"],
        "22A" := ["22B", "XXX"], "22B" := ["22C", "22C"], "22C" := ["22Z", "22Z"],
        "22Z" := ["22B", "22B"], "XXX" := ["XXX", "XXX"]])

  /** The fourth example network: the second pather takes three steps before its loop. */
  const Ghosts2 := Network("LR", ["11A", "11B", "11Z", "22A", "22M", "22N", "22B", "22C", "22Z", "XXX"],
    map["11A" := ["11B", "XXX"], "11B" := ["XXX", "11Z"], "11Z" := ["11B", "XXX"],
        "22A" := ["22M", "22M"], "22M" := ["22N", "22N"], "22N" := ["22B", "XXX"],
        "22B" := ["22C", "22C"], "22C" := ["22Z", "22Z"], "22Z" := ["22B", "22B"],
        "XXX" := ["XXX", "XXX"]])

  /** A round of two pathers whose steps both succeed. */
  lemma {:induction false} RoundOfTwo(net: Network, p: Pather, q: Pather, index: nat, n: int, p': Pather, q': Pather)
    requires Step(net, p, index, n) == Ok(p') && Step(net, q, index, n) == Ok(q')
    ensures Round(net, [p, q], index, n) == Ok([p', q'])
  {
    var ps := [p, q];
    assert forall i :: 0 <= i < |ps| ==> Step(net, ps[i], index, n).Ok? by {
      forall i | 0 <= i < |ps| ensures Step(net, ps[i], index, n).Ok? {
        if i == 0 { assert ps[i] == p; } else { assert ps[i] == q; }
      }
    }
    var r := Round(net, ps, index, n).value;
    assert Step(net, ps[0], index, n) == Ok(r[0]);
    assert Step(net, ps[1], index, n) == Ok(r[1]);
    assert r == [p', q'];
  }

  /** Names of which at most the first ends in `A` give at most one starting pather. */
  lemma {:induction false} StartsLeading(names: seq<string>)
    requires forall k :: 1 <= k < |names| ==> !IsStart(names[k])
    ensures Starts(names) == if |names| > 0 && IsStart(names[0]) then [Pather(Some(names[0]), [], None)] else []
    decreases |names|
  {
    if |names| > 1 {
      StartsLeading(names[..|names| - 1]);
    }
  }

  /** A pather that recorded only `goal`, at step `s`, and comes back to it at step `n` recurs every `n - s` steps. */
  lemma {:induction false} VisitAgain(p: Pather, goal: string, s: int, n: int)
    requires p.firstGoalEncounters == [(goal, s)] && p.recurringGoalEncounters.None? && IsPositionGoal(goal)
    ensures Visit(p, Some(goal), n) == Pather(Some(goal), [(goal, s)], Some([(goal, RecurringEncounter(s, n - s))]))
  {
    assert Get(p.firstGoalEncounters, goal) == Some(s);
    var r := Recurrences(p.firstGoalEncounters, n - s);
    assert r[0] == (goal, RecurringEncounter(s, n - s));
    assert r == [(goal, RecurringEncounter(s, n - s))];
  }

  /** A pather that has not recorded `goal` and reaches it at step `n`, before any encounter recurs, records it. */
  lemma {:induction false} VisitFirst(p: Pather, goal: string, n: int)
    requires p.firstGoalEncounters == [] && p.recurringGoalEncounters.None? && IsPositionGoal(goal)
    ensures Visit(p, Some(goal), n) == Pather(Some(goal), [(goal, n)], None)
  {
    assert Get(p.firstGoalEncounters, goal).None?;
    assert p.firstGoalEncounters + [(goal, n)] == [(goal, n)];
  }

  /** A pather whose move succeeds steps, unless it lands on `undefined` before its encounters recur. */
  lemma {:induction false} StepTo(net: Network, p: Pather, index: nat, n: int, next: Position)
    requires Move(net, p.position, index) == Ok(next) && (next.Some? || p.recurringGoalEncounters.Some?)
    ensures Step(net, p, index, n) == Ok(Visit(p, next, n))
  {
  }

  /** A pather whose encounters recur, or that moves off the goals, only changes its position. */
  lemma {:induction false} VisitOff(p: Pather, next: Position, n: int)
    requires p.recurringGoalEncounters.Some? || !OnGoal(next)
    ensures Visit(p, next, n) == p.(position := next)
  {
  }

  /** The check after `n` rounds goes on when one of two pathers on nodes is off its goals and one has no recurring encounters. */
  lemma {:induction false} GoesOnWithTwo(net: Network, n: nat, fuel: nat, p: Pather, q: Pather)
    requires StatesAfter(net, n) == Ok([p, q]) && n < fuel
    requires p.position.Some? && q.position.Some?
    requires !IsPositionGoal(p.position.value) || !IsPositionGoal(q.position.value)
    requires p.recurringGoalEncounters.None? || q.recurringGoalEncounters.None?
    ensures Runs(net, n, fuel) == Runs(net, n + 1, fuel)
  {
    var ps := [p, q];
    assert ps[0] == p && ps[1] == q;
    RunsEnds(net, n, fuel, ps);
  }

  /** The check after `n` rounds ends the loop with `n` when both pathers are on goals. */
  lemma {:induction false} BothOnGoals(net: Network, n: nat, fuel: nat, p: Pather, q: Pather)
    requires StatesAfter(net, n) == Ok([p, q])
    requires OnGoal(p.position) && OnGoal(q.position)
    ensures Runs(net, n, fuel) == Some(Ok(n))
  {
    var ps := [p, q];
    assert forall i :: 0 <= i < |ps| ==> OnGoal(ps[i].position) by {
      forall i | 0 <= i < |ps| ensures OnGoal(ps[i].position) {
        if i == 0 { assert ps[i] == p; } else { assert ps[i] == q; }
      }
    }
    RunsEnds(net, n, fuel, ps);
  }

  /** The third example starts with a pather on `11A` and one on `22A`. */
  lemma {:induction false} Ghosts1Starts()
    ensures StatesAfter(Ghosts1, 0) == Ok([Pather(Some("11A"), [], None), Pather(Some("22A"), [], None)])
  {
    var g1, g2, g3 := ["11A", "11B", "11Z"], ["22A", "22B", "22C", "22Z"], ["XXX"];
    assert Ghosts1.names == g1 + g2 + g3;
    assert Starts(g1) == [Pather(Some("11A"), [], None)] by {
      StartsLeading(g1);
    }
    assert Starts(g2) == [Pather(Some("22A"), [], None)] by {
      StartsLeading(g2);
    }
    assert Starts(g3) == [] by {
      StartsLeading(g3);
    }
    StartsAppend(g1 + g2, g3);
    StartsAppend(g1, g2);
    assert Starts(g1 + g2 + g3) == [Pather(Some("11A"), [], None), Pather(Some("22A"), [], None)];
  }

  /** The steps of round 1. */
  lemma {:induction false} Ghosts1Steps1()
    ensures Round(Ghosts1, [Pather(Some("11A"), [], None),
      Pather(Some("22A"), [], None)], 0, 1) == Ok([Pather(Some("11B"), [], None),
      Pather(Some("22B"), [], None)])
  {
    assert Move(Ghosts1, Some("11A"), 0) == Ok(Some("11B"));
    assert Move(Ghosts1, Some("22A"), 0) == Ok(Some("22B"));
    StepTo(Ghosts1, Pather(Some("11A"), [], None), 0, 1, Some("11B"));
    StepTo(Ghosts1, Pather(Some("22A"), [], None), 0, 1, Some("22B"));
    VisitOff(Pather(Some("11A"), [], None), Some("11B"), 1);
    VisitOff(Pather(Some("22A"), [], None), Some("22B"), 1);
    RoundOfTwo(Ghosts1, Pather(Some("11A"), [], None), Pather(Some("22A"), [], None), 0, 1, Pather(Some("11B"), [], None), Pather(Some("22B"), [], None));
  }

  /** Round 1 of the third example: `11A` to `11B`, `22A` to `22B`. */
  lemma {:induction false} Ghosts1Round1()
    ensures StatesAfter(Ghosts1, 1) == Ok([Pather(Some("11B"), [], None), Pather(Some("22B"), [], None)])
  {
    assert IndexAfter(Ghosts1.path, 0) == 0;
    Ghosts1Starts();
    StepOn(Ghosts1, 0, [Pather(Some("11A"), [], None), Pather(Some("22A"), [], None)]);
    Ghosts1Steps1();
  }

  /** The steps of round 2. */
  lemma {:induction false} Ghosts1Steps2()
    ensures Round(Ghosts1, [Pather(Some("11B"), [], None),
      Pather(Some("22B"), [], None)], 1, 2) == Ok([Pather(Some("11Z"), [("11Z", 2)], None),
      Pather(Some("22C"), [], None)])
  {
    assert Move(Ghosts1, Some("11B"), 1) == Ok(Some("11Z"));
    assert Move(Ghosts1, Some("22B"), 1) == Ok(Some("22C"));
    StepTo(Ghosts1, Pather(Some("11B"), [], None), 1, 2, Some("11Z"));
    StepTo(Ghosts1, Pather(Some("22B"), [], None), 1, 2, Some("22C"));
    VisitFirst(Pather(Some("11B"), [], None), "11Z", 2);
    VisitOff(Pather(Some("22B"), [], None), Some("22C"), 2);
    RoundOfTwo(Ghosts1, Pather(Some("11B"), [], None), Pather(Some("22B"), [], None), 1, 2, Pather(Some("11Z"), [("11Z", 2)], None), Pather(Some("22C"), [], None));
  }

  /** Round 2: the first pather reaches `11Z` and records it. */
  lemma {:induction false} Ghosts1Round2()
    ensures StatesAfter(Ghosts1, 2) == Ok([Pather(Some("11Z"), [("11Z", 2)], None), Pather(Some("22C"), [], None)])
  {
    assert IndexAfter(Ghosts1.path, 1) == 1;
    Ghosts1Round1();
    StepOn(Ghosts1, 1, [Pather(Some("11B"), [], None), Pather(Some("22B"), [], None)]);
    Ghosts1Steps2();
  }

  /** The steps of round 3. */
  lemma {:induction false} Ghosts1Steps3()
    ensures Round(Ghosts1, [Pather(Some("11Z"), [("11Z", 2)], None),
      Pather(Some("22C"), [], None)], 0, 3) == Ok([Pather(Some("11B"), [("11Z", 2)], None),
      Pather(Some("22Z"), [("22Z", 3)], None)])
  {
    assert Move(Ghosts1, Some("11Z"), 0) == Ok(Some("11B"));
    assert Move(Ghosts1, Some("22C"), 0) == Ok(Some("22Z"));
    StepTo(Ghosts1, Pather(Some("11Z"), [("11Z", 2)], None), 0, 3, Some("11B"));
    StepTo(Ghosts1, Pather(Some("22C"), [], None), 0, 3, Some("22Z"));
    VisitFirst(Pather(Some("22C"), [], None), "22Z", 3);
    VisitOff(Pather(Some("11Z"), [("11Z", 2)], None), Some("11B"), 3);
    RoundOfTwo(Ghosts1, Pather(Some("11Z"), [("11Z", 2)], None), Pather(Some("22C"), [], None), 0, 3, Pather(Some("11B"), [("11Z", 2)], None), Pather(Some("22Z"), [("22Z", 3)], None));
  }

  /** Round 3: the second pather reaches `22Z` and records it. */
  lemma {:induction false} Ghosts1Round3()
    ensures StatesAfter(Ghosts1, 3) == Ok([Pather(Some("11B"), [("11Z", 2)], None), Pather(Some("22Z"), [("22Z", 3)], None)])
  {
    assert IndexAfter(Ghosts1.path, 2) == 0;
    Ghosts1Round2();
    StepOn(Ghosts1, 2, [Pather(Some("11Z"), [("11Z", 2)], None), Pather(Some("22C"), [], None)]);
    Ghosts1Steps3();
  }

  /** The steps of round 4. */
  lemma {:induction false} Ghosts1Steps4()
    ensures Round(Ghosts1, [Pather(Some("11B"), [("11Z", 2)], None),
      Pather(Some("22Z"), [("22Z", 3)], None)], 1, 4) == Ok([Pather(Some("11Z"), [("11Z", 2)], Some([("11Z", RecurringEncounter(2, 2))])),
      Pather(Some("22B"), [("22Z", 3)], None)])
  {
    assert Move(Ghosts1, Some("11B"), 1) == Ok(Some("11Z"));
    assert Move(Ghosts1, Some("22Z"), 1) == Ok(Some("22B"));
    StepTo(Ghosts1, Pather(Some("11B"), [("11Z", 2)], None), 1, 4, Some("11Z"));
    StepTo(Ghosts1, Pather(Some("22Z"), [("22Z", 3)], None), 1, 4, Some("22B"));
    VisitAgain(Pather(Some("11B"), [("11Z", 2)], None), "11Z", 2, 4);
    VisitOff(Pather(Some("22Z"), [("22Z", 3)], None), Some("22B"), 4);
    RoundOfTwo(Ghosts1, Pather(Some("11B"), [("11Z", 2)], None), Pather(Some("22Z"), [("22Z", 3)], None), 1, 4, Pather(Some("11Z"), [("11Z", 2)], Some([("11Z", RecurringEncounter(2, 2))])), Pather(Some("22B"), [("22Z", 3)], None));
  }

  /** Round 4: the first pather is back on `11Z`, which recurs every 2 steps from step 2. */
  lemma {:induction false} Ghosts1Round4()
    ensures StatesAfter(Ghosts1, 4) == Ok([Pather(Some("11Z"), [("11Z", 2)], Some([("11Z", RecurringEncounter(2, 2))])), Pather(Some("22B"), [("22Z", 3)], None)])
  {
    assert IndexAfter(Ghosts1.path, 3) == 1;
    Ghosts1Round3();
    StepOn(Ghosts1, 3, [Pather(Some("11B"), [("11Z", 2)], None), Pather(Some("22Z"), [("22Z", 3)], None)]);
    Ghosts1Steps4();
  }

  /** The steps of round 5. */
  lemma {:induction false} Ghosts1Steps5()
    ensures Round(Ghosts1, [Pather(Some("11Z"), [("11Z", 2)], Some([("11Z", RecurringEncounter(2, 2))])),
      Pather(Some("22B"), [("22Z", 3)], None)], 0, 5) == Ok([Pather(Some("11B"), [("11Z", 2)], Some([("11Z", RecurringEncounter(2, 2))])),
      Pather(Some("22C"), [("22Z", 3)], None)])
  {
    assert Move(Ghosts1, Some("11Z"), 0) == Ok(Some("11B"));
    assert Move(Ghosts1, Some("22B"), 0) == Ok(Some("22C"));
    StepTo(Ghosts1, Pather(Some("11Z"), [("11Z", 2)], Some([("11Z", RecurringEncounter(2, 2))])), 0, 5, Some("11B"));
    StepTo(Ghosts1, Pather(Some("22B"), [("22Z", 3)], None), 0, 5, Some("22C"));
    VisitOff(Pather(Some("11Z"), [("11Z", 2)], Some([("11Z", RecurringEncounter(2, 2))])), Some("11B"), 5);
    VisitOff(Pather(Some("22B"), [("22Z", 3)], None), Some("22C"), 5);
    RoundOfTwo(Ghosts1, Pather(Some("11Z"), [("11Z", 2)], Some([("11Z", RecurringEncounter(2, 2))])), Pather(Some("22B"), [("22Z", 3)], None), 0, 5, Pather(Some("11B"), [("11Z", 2)], Some([("11Z", RecurringEncounter(2, 2))])), Pather(Some("22C"), [("22Z", 3)], None));
  }

  /** Round 5. */
  lemma {:induction false} Ghosts1Round5()
    ensures StatesAfter(Ghosts1, 5) == Ok([Pather(Some("11B"), [("11Z", 2)], Some([("11Z", RecurringEncounter(2, 2))])), Pather(Some("22C"), [("22Z", 3)], None)])
  {
    assert IndexAfter(Ghosts1.path, 4) == 0;
    Ghosts1Round4();
    StepOn(Ghosts1, 4, [Pather(Some("11Z"), [("11Z", 2)], Some([("11Z", RecurringEncounter(2, 2))])), Pather(Some("22B"), [("22Z", 3)], None)]);
    Ghosts1Steps5();
  }

  /** The steps of round 6. */
  lemma {:induction false} Ghosts1Steps6()
    ensures Round(Ghosts1, [Pather(Some("11B"), [("11Z", 2)], Some([("11Z", RecurringEncounter(2, 2))])),
      Pather(Some("22C"), [("22Z", 3)], None)], 1, 6) == Ok([Pather(Some("11Z"), [("11Z", 2)], Some([("11Z", RecurringEncounter(2, 2))])),
      Pather(Some("22Z"), [("22Z", 3)], Some([("22Z", RecurringEncounter(3, 3))]))])
  {
    assert Move(Ghosts1, Some("11B"), 1) == Ok(Some("11Z"));
    assert Move(Ghosts1, Some("22C"), 1) == Ok(Some("22Z"));
    StepTo(Ghosts1, Pather(Some("11B"), [("11Z", 2)], Some([("11Z", RecurringEncounter(2, 2))])), 1, 6, Some("11Z"));
    StepTo(Ghosts1, Pather(Some("22C"), [("22Z", 3)], None), 1, 6, Some("22Z"));
    VisitAgain(Pather(Some("22C"), [("22Z", 3)], None), "22Z", 3, 6);
    VisitOff(Pather(Some("11B"), [("11Z", 2)], Some([("11Z", RecurringEncounter(2, 2))])), Some("11Z"), 6);
    RoundOfTwo(Ghosts1, Pather(Some("11B"), [("11Z", 2)], Some([("11Z", RecurringEncounter(2, 2))])), Pather(Some("22C"), [("22Z", 3)], None), 1, 6, Pather(Some("11Z"), [("11Z", 2)], Some([("11Z", RecurringEncounter(2, 2))])), Pather(Some("22Z"), [("22Z", 3)], Some([("22Z", RecurringEncounter(3, 3))])));
  }

  /** Round 6: the second pather is back on `22Z`, which recurs every 3 steps from step 3. */
  lemma {:induction false} Ghosts1Round6()
    ensures StatesAfter(Ghosts1, 6) == Ok([Pather(Some("11Z"), [("11Z", 2)], Some([("11Z", RecurringEncounter(2, 2))])),
      Pather(Some("22Z"), [("22Z", 3)], Some([("22Z", RecurringEncounter(3, 3))]))])
  {
    assert IndexAfter(Ghosts1.path, 5) == 1;
    Ghosts1Round5();
    StepOn(Ghosts1, 5, [Pather(Some("11B"), [("11Z", 2)], Some([("11Z", RecurringEncounter(2, 2))])), Pather(Some("22C"), [("22Z", 3)], None)]);
    Ghosts1Steps6();
  }

  /** The check before the first round of the third example goes on: no pather is on a goal. */
  lemma {:induction false} Ghosts1GoesOnTo1(fuel: nat)
    requires fuel >= 6
    ensures Runs(Ghosts1, 0, fuel) == Runs(Ghosts1, 1, fuel)
  {
    Ghosts1Starts();
    GoesOnWithTwo(Ghosts1, 0, fuel, Pather(Some("11A"), [], None), Pather(Some("22A"), [], None));
  }

  /** The check after round 1 goes on: no pather is on a goal. */
  lemma {:induction false} Ghosts1GoesOnTo2(fuel: nat)
    requires fuel >= 6
    ensures Runs(Ghosts1, 1, fuel) == Runs(Ghosts1, 2, fuel)
  {
    Ghosts1Round1();
    GoesOnWithTwo(Ghosts1, 1, fuel, Pather(Some("11B"), [], None), Pather(Some("22B"), [], None));
  }

  /** The checks after rounds 2 and 3 go on: one pather is off its goals and no encounter recurs. */
  lemma {:induction false} Ghosts1GoesOnTo4(fuel: nat)
    requires fuel >= 6
    ensures Runs(Ghosts1, 2, fuel) == Runs(Ghosts1, 4, fuel)
  {
    Ghosts1Round2();
    Ghosts1Round3();
    GoesOnWithTwo(Ghosts1, 2, fuel, Pather(Some("11Z"), [("11Z", 2)], None), Pather(Some("22C"), [], None));
    GoesOnWithTwo(Ghosts1, 3, fuel, Pather(Some("11B"), [("11Z", 2)], None), Pather(Some("22Z"), [("22Z", 3)], None));
  }

  /** The checks after rounds 4 and 5 go on: one pather is off its goals and the second does not recur yet. */
  lemma {:induction false} Ghosts1GoesOnTo6(fuel: nat)
    requires fuel >= 6
    ensures Runs(Ghosts1, 4, fuel) == Runs(Ghosts1, 6, fuel)
  {
    var recurs := Some([("11Z", RecurringEncounter(2, 2))]);
    Ghosts1Round4();
    Ghosts1Round5();
    GoesOnWithTwo(Ghosts1, 4, fuel, Pather(Some("11Z"), [("11Z", 2)], recurs), Pather(Some("22B"), [("22Z", 3)], None));
    GoesOnWithTwo(Ghosts1, 5, fuel, Pather(Some("11B"), [("11Z", 2)], recurs), Pather(Some("22C"), [("22Z", 3)], None));
  }

  /** The check after round 6 ends the loop: both pathers are on goals. */
  lemma {:induction false} Ghosts1EndsAt6(fuel: nat)
    ensures Runs(Ghosts1, 6, fuel) == Some(Ok(6))
  {
    Ghosts1Round6();
    BothOnGoals(Ghosts1, 6, fuel, Pather(Some("11Z"), [("11Z", 2)], Some([("11Z", RecurringEncounter(2, 2))])),
      Pather(Some("22Z"), [("22Z", 3)], Some([("22Z", RecurringEncounter(3, 3))])));
  }

  /**
   * In the third example, the first pather stands on `11Z` after every
   * second round from round 2, the second on `22Z` after every third round
   * from round 3: both are on goals after round 6, and part 2 answers 6.
   */
  lemma {:induction false} Ghosts1Answer(fuel: nat)
    requires fuel >= 6
    ensures Runs(Ghosts1, 0, fuel) == Some(Ok(6))
  {
    Ghosts1GoesOnTo1(fuel);
    Ghosts1GoesOnTo2(fuel);
    Ghosts1GoesOnTo4(fuel);
    Ghosts1GoesOnTo6(fuel);
    Ghosts1EndsAt6(fuel);
  }

  /** The fourth example starts with a pather on `11A` and one on `22A`. */
  lemma {:induction false} Ghosts2Starts()
    ensures StatesAfter(Ghosts2, 0) == Ok([Pather(Some("11A"), [], None), Pather(Some("22A"), [], None)])
  {
    var g1, g2, g3 := ["11A", "11B", "11Z"], ["22A", "22M", "22N", "22B", "22C", "22Z"], ["XXX"];
    assert Ghosts2.names == g1 + g2 + g3;
    assert Starts(g1) == [Pather(Some("11A"), [], None)] by {
      StartsLeading(g1);
    }
    assert Starts(g2) == [Pather(Some("22A"), [], None)] by {
      StartsLeading(g2);
    }
    assert Starts(g3) == [] by {
      StartsLeading(g3);
    }
    StartsAppend(g1 + g2, g3);
    StartsAppend(g1, g2);
    assert Starts(g1 + g2 + g3) == [Pather(Some("11A"), [], None), Pather(Some("22A"), [], None)];
  }

  /** The steps of round 1. */
  lemma {:induction false} Ghosts2Steps1()
    ensures Round(Ghosts2, [Pather(Some("11A"), [], None),
      Pather(Some("22A"), [], None)], 0, 1) == Ok([Pather(Some("11B"), [], None),
      Pather(Some("22M"), [], None)])
  {
    assert Move(Ghosts2, Some("11A"), 0) == Ok(Some("11B"));
    assert Move(Ghosts2, Some("22A"), 0) == Ok(Some("22M"));
    StepTo(Ghosts2, Pather(Some("11A"), [], None), 0, 1, Some("11B"));
    StepTo(Ghosts2, Pather(Some("22A"), [], None), 0, 1, Some("22M"));
    VisitOff(Pather(Some("11A"), [], None), Some("11B"), 1);
    VisitOff(Pather(Some("22A"), [], None), Some("22M"), 1);
    RoundOfTwo(Ghosts2, Pather(Some("11A"), [], None), Pather(Some("22A"), [], None), 0, 1, Pather(Some("11B"), [], None), Pather(Some("22M"), [], None));
  }

  /** Round 1 of the fourth example: `11A` to `11B`, `22A` to `22M`. */
  lemma {:induction false} Ghosts2Round1()
    ensures StatesAfter(Ghosts2, 1) == Ok([Pather(Some("11B"), [], None),
      Pather(Some("22M"), [], None)])
  {
    assert IndexAfter(Ghosts2.path, 0) == 0;
    Ghosts2Starts();
    StepOn(Ghosts2, 0, [Pather(Some("11A"), [], None), Pather(Some("22A"), [], None)]);
    Ghosts2Steps1();
  }

  /** The steps of round 2. */
  lemma {:induction false} Ghosts2Steps2()
    ensures Round(Ghosts2, [Pather(Some("11B"), [], None),
      Pather(Some("22M"), [], None)], 1, 2) == Ok([Pather(Some("11Z"), [("11Z", 2)], None),
      Pather(Some("22N"), [], None)])
  {
    assert Move(Ghosts2, Some("11B"), 1) == Ok(Some("11Z"));
    assert Move(Ghosts2, Some("22M"), 1) == Ok(Some("22N"));
    StepTo(Ghosts2, Pather(Some("11B"), [], None), 1, 2, Some("11Z"));
    StepTo(Ghosts2, Pather(Some("22M"), [], None), 1, 2, Some("22N"));
    VisitFirst(Pather(Some("11B"), [], None), "11Z", 2);
    VisitOff(Pather(Some("22M"), [], None), Some("22N"), 2);
    RoundOfTwo(Ghosts2, Pather(Some("11B"), [], None), Pather(Some("22M"), [], None), 1, 2, Pather(Some("11Z"), [("11Z", 2)], None), Pather(Some("22N"), [], None));
  }

  /** Round 2: the first pather reaches `11Z` and records it. */
  lemma {:induction false} Ghosts2Round2()
    ensures StatesAfter(Ghosts2, 2) == Ok([Pather(Some("11Z"), [("11Z", 2)], None),
      Pather(Some("22N"), [], None)])
  {
    assert IndexAfter(Ghosts2.path, 1) == 1;
    Ghosts2Round1();
    StepOn(Ghosts2, 1, [Pather(Some("11B"), [], None), Pather(Some("22M"), [], None)]);
    Ghosts2Steps2();
  }

  /** The steps of round 3. */
  lemma {:induction false} Ghosts2Steps3()
    ensures Round(Ghosts2, [Pather(Some("11Z"), [("11Z", 2)], None),
      Pather(Some("22N"), [], None)], 0, 3) == Ok([Pather(Some("11B"), [("11Z", 2)], None),
      Pather(Some("22B"), [], None)])
  {
    assert Move(Ghosts2, Some("11Z"), 0) == Ok(Some("11B"));
    assert Move(Ghosts2, Some("22N"), 0) == Ok(Some("22B"));
    StepTo(Ghosts2, Pather(Some("11Z"), [("11Z", 2)], None), 0, 3, Some("11B"));
    StepTo(Ghosts2, Pather(Some("22N"), [], None), 0, 3, Some("22B"));
    VisitOff(Pather(Some("11Z"), [("11Z", 2)], None), Some("11B"), 3);
    VisitOff(Pather(Some("22N"), [], None), Some("22B"), 3);
    RoundOfTwo(Ghosts2, Pather(Some("11Z"), [("11Z", 2)], None), Pather(Some("22N"), [], None), 0, 3, Pather(Some("11B"), [("11Z", 2)], None), Pather(Some("22B"), [], None));
  }

  /** Round 3: the second pather enters its loop at `22B`. */
  lemma {:induction false} Ghosts2Round3()
    ensures StatesAfter(Ghosts2, 3) == Ok([Pather(Some("11B"), [("11Z", 2)], None),
      Pather(Some("22B"), [], None)])
  {
    assert IndexAfter(Ghosts2.path, 2) == 0;
    Ghosts2Round2();
    StepOn(Ghosts2, 2, [Pather(Some("11Z"), [("11Z", 2)], None), Pather(Some("22N"), [], None)]);
    Ghosts2Steps3();
  }

  /** The steps of round 4. */
  lemma {:induction false} Ghosts2Steps4()
    ensures Round(Ghosts2, [Pather(Some("11B"), [("11Z", 2)], None),
      Pather(Some("22B"), [], None)], 1, 4) == Ok([Pather(Some("11Z"), [("11Z", 2)], Some([("11Z", RecurringEncounter(2, 2))])),
      Pather(Some("22C"), [], None)])
  {
    assert Move(Ghosts2, Some("11B"), 1) == Ok(Some("11Z"));
    assert Move(Ghosts2, Some("22B"), 1) == Ok(Some("22C"));
    StepTo(Ghosts2, Pather(Some("11B"), [("11Z", 2)], None), 1, 4, Some("11Z"));
    StepTo(Ghosts2, Pather(Some("22B"), [], None), 1, 4, Some("22C"));
    VisitAgain(Pather(Some("11B"), [("11Z", 2)], None), "11Z", 2, 4);
    VisitOff(Pather(Some("22B"), [], None), Some("22C"), 4);
    RoundOfTwo(Ghosts2, Pather(Some("11B"), [("11Z", 2)], None), Pather(Some("22B"), [], None), 1, 4, Pather(Some("11Z"), [("11Z", 2)], Some([("11Z", RecurringEncounter(2, 2))])), Pather(Some("22C"), [], None));
  }

  /** Round 4: the first pather is back on `11Z`, which recurs every 2 steps from step 2. */
  lemma {:induction false} Ghosts2Round4()
    ensures StatesAfter(Ghosts2, 4) == Ok([Pather(Some("11Z"), [("11Z", 2)], Some([("11Z", RecurringEncounter(2, 2))])),
      Pather(Some("22C"), [], None)])
  {
    assert IndexAfter(Ghosts2.path, 3) == 1;
    Ghosts2Round3();
    StepOn(Ghosts2, 3, [Pather(Some("11B"), [("11Z", 2)], None), Pather(Some("22B"), [], None)]);
    Ghosts2Steps4();
  }

  /** The steps of round 5. */
  lemma {:induction false} Ghosts2Steps5()
    ensures Round(Ghosts2, [Pather(Some("11Z"), [("11Z", 2)], Some([("11Z", RecurringEncounter(2, 2))])),
      Pather(Some("22C"), [], None)], 0, 5) == Ok([Pather(Some("11B"), [("11Z", 2)], Some([("11Z", RecurringEncounter(2, 2))])),
      Pather(Some("22Z"), [("22Z", 5)], None)])
  {
    assert Move(Ghosts2, Some("11Z"), 0) == Ok(Some("11B"));
    assert Move(Ghosts2, Some("22C"), 0) == Ok(Some("22Z"));
    StepTo(Ghosts2, Pather(Some("11Z"), [("11Z", 2)], Some([("11Z", RecurringEncounter(2, 2))])), 0, 5, Some("11B"));
    StepTo(Ghosts2, Pather(Some("22C"), [], None), 0, 5, Some("22Z"));
    VisitFirst(Pather(Some("22C"), [], None), "22Z", 5);
    VisitOff(Pather(Some("11Z"), [("11Z", 2)], Some([("11Z", RecurringEncounter(2, 2))])), Some("11B"), 5);
    RoundOfTwo(Ghosts2, Pather(Some("11Z"), [("11Z", 2)], Some([("11Z", RecurringEncounter(2, 2))])), Pather(Some("22C"), [], None), 0, 5, Pather(Some("11B"), [("11Z", 2)], Some([("11Z", RecurringEncounter(2, 2))])), Pather(Some("22Z"), [("22Z", 5)], None));
  }

  /** Round 5: the second pather reaches `22Z` and records it. */
  lemma {:induction false} Ghosts2Round5()
    ensures StatesAfter(Ghosts2, 5) == Ok([Pather(Some("11B"), [("11Z", 2)], Some([("11Z", RecurringEncounter(2, 2))])),
      Pather(Some("22Z"), [("22Z", 5)], None)])
  {
    assert IndexAfter(Ghosts2.path, 4) == 0;
    Ghosts2Round4();
    StepOn(Ghosts2, 4, [Pather(Some("11Z"), [("11Z", 2)], Some([("11Z", RecurringEncounter(2, 2))])), Pather(Some("22C"), [], None)]);
    Ghosts2Steps5();
  }

  /** The steps of round 6. */
  lemma {:induction false} Ghosts2Steps6()
    ensures Round(Ghosts2, [Pather(Some("11B"), [("11Z", 2)], Some([("11Z", RecurringEncounter(2, 2))])),
      Pather(Some("22Z"), [("22Z", 5)], None)], 1, 6) == Ok([Pather(Some("11Z"), [("11Z", 2)], Some([("11Z", RecurringEncounter(2, 2))])),
      Pather(Some("22B"), [("22Z", 5)], None)])
  {
    assert Move(Ghosts2, Some("11B"), 1) == Ok(Some("11Z"));
    assert Move(Ghosts2, Some("22Z"), 1) == Ok(Some("22B"));
    StepTo(Ghosts2, Pather(Some("11B"), [("11Z", 2)], Some([("11Z", RecurringEncounter(2, 2))])), 1, 6, Some("11Z"));
    StepTo(Ghosts2, Pather(Some("22Z"), [("22Z", 5)], None), 1, 6, Some("22B"));
    VisitOff(Pather(Some("11B"), [("11Z", 2)], Some([("11Z", RecurringEncounter(2, 2))])), Some("11Z"), 6);
    VisitOff(Pather(Some("22Z"), [("22Z", 5)], None), Some("22B"), 6);
    RoundOfTwo(Ghosts2, Pather(Some("11B"), [("11Z", 2)], Some([("11Z", RecurringEncounter(2, 2))])), Pather(Some("22Z"), [("22Z", 5)], None), 1, 6, Pather(Some("11Z"), [("11Z", 2)], Some([("11Z", RecurringEncounter(2, 2))])), Pather(Some("22B"), [("22Z", 5)], None));
  }

  /** Round 6: the first pather, already recurring, records nothing more. */
  lemma {:induction false} Ghosts2Round6()
    ensures StatesAfter(Ghosts2, 6) == Ok([Pather(Some("11Z"), [("11Z", 2)], Some([("11Z", RecurringEncounter(2, 2))])),
      Pather(Some("22B"), [("22Z", 5)], None)])
  {
    assert IndexAfter(Ghosts2.path, 5) == 1;
    Ghosts2Round5();
    StepOn(Ghosts2, 5, [Pather(Some("11B"), [("11Z", 2)], Some([("11Z", RecurringEncounter(2, 2))])), Pather(Some("22Z"), [("22Z", 5)], None)]);
    Ghosts2Steps6();
  }

  /** The steps of round 7. */
  lemma {:induction false} Ghosts2Steps7()
    ensures Round(Ghosts2, [Pather(Some("11Z"), [("11Z", 2)], Some([("11Z", RecurringEncounter(2, 2))])),
      Pather(Some("22B"), [("22Z", 5)], None)], 0, 7) == Ok([Pather(Some("11B"), [("11Z", 2)], Some([("11Z", RecurringEncounter(2, 2))])),
      Pather(Some("22C"), [("22Z", 5)], None)])
  {
    assert Move(Ghosts2, Some("11Z"), 0) == Ok(Some("11B"));
    assert Move(Ghosts2, Some("22B"), 0) == Ok(Some("22C"));
    StepTo(Ghosts2, Pather(Some("11Z"), [("11Z", 2)], Some([("11Z", RecurringEncounter(2, 2))])), 0, 7, Some("11B"));
    StepTo(Ghosts2, Pather(Some("22B"), [("22Z", 5)], None), 0, 7, Some("22C"));
    VisitOff(Pather(Some("11Z"), [("11Z", 2)], Some([("11Z", RecurringEncounter(2, 2))])), Some("11B"), 7);
    VisitOff(Pather(Some("22B"), [("22Z", 5)], None), Some("22C"), 7);
    RoundOfTwo(Ghosts2, Pather(Some("11Z"), [("11Z", 2)], Some([("11Z", RecurringEncounter(2, 2))])), Pather(Some("22B"), [("22Z", 5)], None), 0, 7, Pather(Some("11B"), [("11Z", 2)], Some([("11Z", RecurringEncounter(2, 2))])), Pather(Some("22C"), [("22Z", 5)], None));
  }

  /** Round 7. */
  lemma {:induction false} Ghosts2Round7()
    ensures StatesAfter(Ghosts2, 7) == Ok([Pather(Some("11B"), [("11Z", 2)], Some([("11Z", RecurringEncounter(2, 2))])),
      Pather(Some("22C"), [("22Z", 5)], None)])
  {
    assert IndexAfter(Ghosts2.path, 6) == 0;
    Ghosts2Round6();
    StepOn(Ghosts2, 6, [Pather(Some("11Z"), [("11Z", 2)], Some([("11Z", RecurringEncounter(2, 2))])), Pather(Some("22B"), [("22Z", 5)], None)]);
    Ghosts2Steps7();
  }

  /** The steps of round 8. */
  lemma {:induction false} Ghosts2Steps8()
    ensures Round(Ghosts2, [Pather(Some("11B"), [("11Z", 2)], Some([("11Z", RecurringEncounter(2, 2))])),
      Pather(Some("22C"), [("22Z", 5)], None)], 1, 8) == Ok([Pather(Some("11Z"), [("11Z", 2)], Some([("11Z", RecurringEncounter(2, 2))])),
      Pather(Some("22Z"), [("22Z", 5)], Some([("22Z", RecurringEncounter(5, 3))]))])
  {
    assert Move(Ghosts2, Some("11B"), 1) == Ok(Some("11Z"));
    assert Move(Ghosts2, Some("22C"), 1) == Ok(Some("22Z"));
    StepTo(Ghosts2, Pather(Some("11B"), [("11Z", 2)], Some([("11Z", RecurringEncounter(2, 2))])), 1, 8, Some("11Z"));
    StepTo(Ghosts2, Pather(Some("22C"), [("22Z", 5)], None), 1, 8, Some("22Z"));
    VisitAgain(Pather(Some("22C"), [("22Z", 5)], None), "22Z", 5, 8);
    VisitOff(Pather(Some("11B"), [("11Z", 2)], Some([("11Z", RecurringEncounter(2, 2))])), Some("11Z"), 8);
    RoundOfTwo(Ghosts2, Pather(Some("11B"), [("11Z", 2)], Some([("11Z", RecurringEncounter(2, 2))])), Pather(Some("22C"), [("22Z", 5)], None), 1, 8, Pather(Some("11Z"), [("11Z", 2)], Some([("11Z", RecurringEncounter(2, 2))])), Pather(Some("22Z"), [("22Z", 5)], Some([("22Z", RecurringEncounter(5, 3))])));
  }

  /** Round 8: the second pather is back on `22Z`, which recurs every 3 steps from step 5. */
  lemma {:induction false} Ghosts2Round8()
    ensures StatesAfter(Ghosts2, 8) == Ok([Pather(Some("11Z"), [("11Z", 2)], Some([("11Z", RecurringEncounter(2, 2))])),
      Pather(Some("22Z"), [("22Z", 5)], Some([("22Z", RecurringEncounter(5, 3))]))])
  {
    assert IndexAfter(Ghosts2.path, 7) == 1;
    Ghosts2Round7();
    StepOn(Ghosts2, 7, [Pather(Some("11B"), [("11Z", 2)], Some([("11Z", RecurringEncounter(2, 2))])), Pather(Some("22C"), [("22Z", 5)], None)]);
    Ghosts2Steps8();
  }

  /** The check before the first round of the fourth example goes on: no pather is on a goal. */
  lemma {:induction false} Ghosts2GoesOnTo1(fuel: nat)
    requires fuel >= 8
    ensures Runs(Ghosts2, 0, fuel) == Runs(Ghosts2, 1, fuel)
  {
    Ghosts2Starts();
    GoesOnWithTwo(Ghosts2, 0, fuel, Pather(Some("11A"), [], None), Pather(Some("22A"), [], None));
  }

  /** The check after round 1 goes on: no pather is on a goal. */
  lemma {:induction false} Ghosts2GoesOnTo2(fuel: nat)
    requires fuel >= 8
    ensures Runs(Ghosts2, 1, fuel) == Runs(Ghosts2, 2, fuel)
  {
    Ghosts2Round1();
    GoesOnWithTwo(Ghosts2, 1, fuel, Pather(Some("11B"), [], None), Pather(Some("22M"), [], None));
  }

  /** The checks after rounds 2 and 3 of the fourth example go on: a pather is off its goals and one does not recur yet. */
  lemma {:induction false} Ghosts2GoesOnTo4(fuel: nat)
    requires fuel >= 8
    ensures Runs(Ghosts2, 2, fuel) == Runs(Ghosts2, 4, fuel)
  {
    Ghosts2Round2();
    Ghosts2Round3();
    GoesOnWithTwo(Ghosts2, 2, fuel, Pather(Some("11Z"), [("11Z", 2)], None), Pather(Some("22N"), [], None));
    GoesOnWithTwo(Ghosts2, 3, fuel, Pather(Some("11B"), [("11Z", 2)], None), Pather(Some("22B"), [], None));
  }

  /** The checks after rounds 4 and 5 of the fourth example go on: a pather is off its goals and one does not recur yet. */
  lemma {:induction false} Ghosts2GoesOnTo6(fuel: nat)
    requires fuel >= 8
    ensures Runs(Ghosts2, 4, fuel) == Runs(Ghosts2, 6, fuel)
  {
    Ghosts2Round4();
    Ghosts2Round5();
    GoesOnWithTwo(Ghosts2, 4, fuel, Pather(Some("11Z"), [("11Z", 2)], Some([("11Z", RecurringEncounter(2, 2))])), Pather(Some("22C"), [], None));
    GoesOnWithTwo(Ghosts2, 5, fuel, Pather(Some("11B"), [("11Z", 2)], Some([("11Z", RecurringEncounter(2, 2))])), Pather(Some("22Z"), [("22Z", 5)], None));
  }

  /** The checks after rounds 6 and 7 of the fourth example go on: a pather is off its goals and one does not recur yet. */
  lemma {:induction false} Ghosts2GoesOnTo8(fuel: nat)
    requires fuel >= 8
    ensures Runs(Ghosts2, 6, fuel) == Runs(Ghosts2, 8, fuel)
  {
    Ghosts2Round6();
    Ghosts2Round7();
    GoesOnWithTwo(Ghosts2, 6, fuel, Pather(Some("11Z"), [("11Z", 2)], Some([("11Z", RecurringEncounter(2, 2))])), Pather(Some("22B"), [("22Z", 5)], None));
    GoesOnWithTwo(Ghosts2, 7, fuel, Pather(Some("11B"), [("11Z", 2)], Some([("11Z", RecurringEncounter(2, 2))])), Pather(Some("22C"), [("22Z", 5)], None));
  }

  /** The check after round 8 ends the loop: both pathers are on goals. */
  lemma {:induction false} Ghosts2EndsAt8(fuel: nat)
    ensures Runs(Ghosts2, 8, fuel) == Some(Ok(8))
  {
    Ghosts2Round8();
    BothOnGoals(Ghosts2, 8, fuel, Pather(Some("11Z"), [("11Z", 2)], Some([("11Z", RecurringEncounter(2, 2))])),
      Pather(Some("22Z"), [("22Z", 5)], Some([("22Z", RecurringEncounter(5, 3))])));
  }

  /**
   * In the fourth example the second pather takes three steps to reach its
   * loop, stands on `22Z` after rounds 5 and 8, and both pathers are on goals
   * after round 8: part 2 answers 8.
   */
  lemma {:induction false} Ghosts2Answer(fuel: nat)
    requires fuel >= 8
    ensures Runs(Ghosts2, 0, fuel) == Some(Ok(8))
  {
    Ghosts2GoesOnTo1(fuel);
    Ghosts2GoesOnTo2(fuel);
    Ghosts2GoesOnTo4(fuel);
    Ghosts2GoesOnTo6(fuel);
    Ghosts2GoesOnTo8(fuel);
    Ghosts2EndsAt8(fuel);
  }
}
