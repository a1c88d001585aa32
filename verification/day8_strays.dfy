/**
 * An example of day 8 in which a pather walks off the network: a node with
 * one child sends the pather that takes its right branch to `undefined`,
 * and `part2` still answers once the pathers' goals recur.
 */
module Day8Strays {
  import opened Outcomes
  import opened Multiples
  import opened Day8
  import opened Day8Examples

  /**
   * A network where `BQ` has one child: the second pather, whose goal
   * already recurs, steps to `undefined` on `R` and the loop goes on.
   */
  const Strays := Network("LRLLLR", ["AA", "AZ", "AQ", "BA", "BZ", "BQ", "CA", "C1", "C2", "CZ", "C4", "C5"],
    map["AA" := ["AZ", "AZ"], "AZ" := ["AQ", "AZ"], "AQ" := ["AQ", "AQ"],
        "BA" := ["BZ", "BZ"], "BZ" := ["BQ", "BZ"], "BQ" := ["BQ"],
        "CA" := ["C1", "C1"], "C1" := ["C2", "C2"], "C2" := ["CZ", "CZ"],
        "CZ" := ["C4", "C4"], "C4" := ["C5", "C5"], "C5" := ["CZ", "CZ"]])

  /** A round of three pathers whose steps all succeed. */
  lemma {:induction false} RoundOfThree(net: Network, p: Pather, q: Pather, t: Pather, index: nat, n: int, p': Pather, q': Pather, t': Pather)
    requires Step(net, p, index, n) == Ok(p') && Step(net, q, index, n) == Ok(q') && Step(net, t, index, n) == Ok(t')
    ensures Round(net, [p, q, t], index, n) == Ok([p', q', t'])
  {
    var ps := [p, q, t];
    assert forall i :: 0 <= i < |ps| ==> Step(net, ps[i], index, n).Ok? by {
      forall i | 0 <= i < |ps| ensures Step(net, ps[i], index, n).Ok? {
        if i == 0 { assert ps[i] == p; } else if i == 1 { assert ps[i] == q; } else { assert ps[i] == t; }
      }
    }
    var r := Round(net, ps, index, n).value;
    assert Step(net, ps[0], index, n) == Ok(r[0]);
    assert Step(net, ps[1], index, n) == Ok(r[1]);
    assert Step(net, ps[2], index, n) == Ok(r[2]);
    assert r == [p', q', t'];
  }

  /**
   * The check after `n` rounds decides nothing when the `k`-th pather stands
   * on a node that is not a goal, every pather before it is on a goal, and
   * the `j`-th pather has no recurring encounters.
   */
  lemma {:induction false} OpenPast(ps: seq<Pather>, n: nat, k: nat, j: nat)
    requires k < |ps| && ps[k].position.Some? && !IsPositionGoal(ps[k].position.value) && OnGoalBefore(ps, k)
    requires j < |ps| && ps[j].recurringGoalEncounters.None?
    ensures Decision(ps, n).None?
  {
    EveryStopsAt(ps, k);
  }

  /** Three groups of names, each led by the only name in it that ends in `A`, start one pather each. */
  lemma {:induction false} StartsOfGroups(g1: seq<string>, g2: seq<string>, g3: seq<string>)
    requires |g1| > 0 && IsStart(g1[0]) && forall k :: 1 <= k < |g1| ==> !IsStart(g1[k])
    requires |g2| > 0 && IsStart(g2[0]) && forall k :: 1 <= k < |g2| ==> !IsStart(g2[k])
    requires |g3| > 0 && IsStart(g3[0]) && forall k :: 1 <= k < |g3| ==> !IsStart(g3[k])
    ensures Starts(g1 + g2 + g3) == [Pather(Some(g1[0]), [], None), Pather(Some(g2[0]), [], None), Pather(Some(g3[0]), [], None)]
  {
    StartsLeading(g1);
    StartsLeading(g2);
    StartsLeading(g3);
    StartsAppend(g1 + g2, g3);
    StartsAppend(g1, g2);
  }

  /** The fifth example starts with pathers on `AA`, `BA` and `CA`. */
  lemma {:induction false} StraysStarts()
    ensures StatesAfter(Strays, 0) == Ok([Pather(Some("AA"), [], None), Pather(Some("BA"), [], None), Pather(Some("CA"), [], None)])
  {
    var g1, g2, g3 := ["AA", "AZ", "AQ"], ["BA", "BZ", "BQ"], ["CA", "C1", "C2", "CZ", "C4", "C5"];
    assert Strays.names == g1 + g2 + g3;
    StartsOfGroups(g1, g2, g3);
  }

  /** The steps of round 1, on `L`. */
  lemma {:induction false} StraysSteps1()
    ensures Round(Strays, [Pather(Some("AA"), [], None), Pather(Some("BA"), [], None),
      Pather(Some("CA"), [], None)], 0, 1) == Ok([Pather(Some("AZ"), [("AZ", 1)], None), Pather(Some("BZ"), [("BZ", 1)], None),
      Pather(Some("C1"), [], None)])
  {
    var p, q, t := Pather(Some("AA"), [], None), Pather(Some("BA"), [], None), Pather(Some("CA"), [], None);
    assert Move(Strays, Some("AA"), 0) == Ok(Some("AZ"));
    assert Move(Strays, Some("BA"), 0) == Ok(Some("BZ"));
    assert Move(Strays, Some("CA"), 0) == Ok(Some("C1"));
    StepTo(Strays, p, 0, 1, Some("AZ"));
    StepTo(Strays, q, 0, 1, Some("BZ"));
    StepTo(Strays, t, 0, 1, Some("C1"));
    VisitFirst(p, "AZ", 1);
    VisitFirst(q, "BZ", 1);
    VisitOff(t, Some("C1"), 1);
    RoundOfThree(Strays, p, q, t, 0, 1, Pather(Some("AZ"), [("AZ", 1)], None), Pather(Some("BZ"), [("BZ", 1)], None), Pather(Some("C1"), [], None));
  }

  /** Round 1: the first two pathers reach `AZ` and `BZ` and record them. */
  lemma {:induction false} StraysRound1()
    ensures StatesAfter(Strays, 1) == Ok([Pather(Some("AZ"), [("AZ", 1)], None), Pather(Some("BZ"), [("BZ", 1)], None),
      Pather(Some("C1"), [], None)])
  {
    assert IndexAfter(Strays.path, 0) == 0;
    StraysStarts();
    StepOn(Strays, 0, [Pather(Some("AA"), [], None), Pather(Some("BA"), [], None), Pather(Some("CA"), [], None)]);
    StraysSteps1();
  }

  /** The recurring encounters of the first two pathers of the fifth example, from round 2 on. */
  const RecursA := Some([("AZ", RecurringEncounter(1, 1))])
  const RecursB := Some([("BZ", RecurringEncounter(1, 1))])

  /** The steps of round 2, on `R`. */
  lemma {:induction false} StraysSteps2()
    ensures Round(Strays, [Pather(Some("AZ"), [("AZ", 1)], None), Pather(Some("BZ"), [("BZ", 1)], None),
      Pather(Some("C1"), [], None)], 1, 2) == Ok([Pather(Some("AZ"), [("AZ", 1)], RecursA), Pather(Some("BZ"), [("BZ", 1)], RecursB),
      Pather(Some("C2"), [], None)])
  {
    var p, q, t := Pather(Some("AZ"), [("AZ", 1)], None), Pather(Some("BZ"), [("BZ", 1)], None), Pather(Some("C1"), [], None);
    assert Move(Strays, Some("AZ"), 1) == Ok(Some("AZ"));
    assert Move(Strays, Some("BZ"), 1) == Ok(Some("BZ"));
    assert Move(Strays, Some("C1"), 1) == Ok(Some("C2"));
    StepTo(Strays, p, 1, 2, Some("AZ"));
    StepTo(Strays, q, 1, 2, Some("BZ"));
    StepTo(Strays, t, 1, 2, Some("C2"));
    VisitAgain(p, "AZ", 1, 2);
    VisitAgain(q, "BZ", 1, 2);
    VisitOff(t, Some("C2"), 2);
    RoundOfThree(Strays, p, q, t, 1, 2, Pather(Some("AZ"), [("AZ", 1)], RecursA), Pather(Some("BZ"), [("BZ", 1)], RecursB), Pather(Some("C2"), [], None));
  }

  /** Round 2: the first two pathers stay on their goals, which recur every step from step 1. */
  lemma {:induction false} StraysRound2()
    ensures StatesAfter(Strays, 2) == Ok([Pather(Some("AZ"), [("AZ", 1)], RecursA), Pather(Some("BZ"), [("BZ", 1)], RecursB),
      Pather(Some("C2"), [], None)])
  {
    assert IndexAfter(Strays.path, 1) == 1;
    StraysRound1();
    StepOn(Strays, 1, [Pather(Some("AZ"), [("AZ", 1)], None), Pather(Some("BZ"), [("BZ", 1)], None), Pather(Some("C1"), [], None)]);
    StraysSteps2();
  }

  /** The steps of round 3, on `L`. */
  lemma {:induction false} StraysSteps3()
    ensures Round(Strays, [Pather(Some("AZ"), [("AZ", 1)], RecursA), Pather(Some("BZ"), [("BZ", 1)], RecursB),
      Pather(Some("C2"), [], None)], 2, 3) == Ok([Pather(Some("AQ"), [("AZ", 1)], RecursA), Pather(Some("BQ"), [("BZ", 1)], RecursB),
      Pather(Some("CZ"), [("CZ", 3)], None)])
  {
    var p, q, t := Pather(Some("AZ"), [("AZ", 1)], RecursA), Pather(Some("BZ"), [("BZ", 1)], RecursB), Pather(Some("C2"), [], None);
    assert Move(Strays, Some("AZ"), 2) == Ok(Some("AQ"));
    assert Move(Strays, Some("BZ"), 2) == Ok(Some("BQ"));
    assert Move(Strays, Some("C2"), 2) == Ok(Some("CZ"));
    StepTo(Strays, p, 2, 3, Some("AQ"));
    StepTo(Strays, q, 2, 3, Some("BQ"));
    StepTo(Strays, t, 2, 3, Some("CZ"));
    VisitOff(p, Some("AQ"), 3);
    VisitOff(q, Some("BQ"), 3);
    VisitFirst(t, "CZ", 3);
    RoundOfThree(Strays, p, q, t, 2, 3, Pather(Some("AQ"), [("AZ", 1)], RecursA), Pather(Some("BQ"), [("BZ", 1)], RecursB), Pather(Some("CZ"), [("CZ", 3)], None));
  }

  /** Round 3: the third pather reaches `CZ` and records it. */
  lemma {:induction false} StraysRound3()
    ensures StatesAfter(Strays, 3) == Ok([Pather(Some("AQ"), [("AZ", 1)], RecursA), Pather(Some("BQ"), [("BZ", 1)], RecursB),
      Pather(Some("CZ"), [("CZ", 3)], None)])
  {
    assert IndexAfter(Strays.path, 2) == 2;
    StraysRound2();
    StepOn(Strays, 2, [Pather(Some("AZ"), [("AZ", 1)], RecursA), Pather(Some("BZ"), [("BZ", 1)], RecursB), Pather(Some("C2"), [], None)]);
    StraysSteps3();
  }

  /** The steps of round 4, on `L`. */
  lemma {:induction false} StraysSteps4()
    ensures Round(Strays, [Pather(Some("AQ"), [("AZ", 1)], RecursA), Pather(Some("BQ"), [("BZ", 1)], RecursB),
      Pather(Some("CZ"), [("CZ", 3)], None)], 3, 4) == Ok([Pather(Some("AQ"), [("AZ", 1)], RecursA), Pather(Some("BQ"), [("BZ", 1)], RecursB),
      Pather(Some("C4"), [("CZ", 3)], None)])
  {
    var p, q, t := Pather(Some("AQ"), [("AZ", 1)], RecursA), Pather(Some("BQ"), [("BZ", 1)], RecursB), Pather(Some("CZ"), [("CZ", 3)], None);
    assert Move(Strays, Some("AQ"), 3) == Ok(Some("AQ"));
    assert Move(Strays, Some("BQ"), 3) == Ok(Some("BQ"));
    assert Move(Strays, Some("CZ"), 3) == Ok(Some("C4"));
    StepTo(Strays, p, 3, 4, Some("AQ"));
    StepTo(Strays, q, 3, 4, Some("BQ"));
    StepTo(Strays, t, 3, 4, Some("C4"));
    VisitOff(p, Some("AQ"), 4);
    VisitOff(q, Some("BQ"), 4);
    VisitOff(t, Some("C4"), 4);
    RoundOfThree(Strays, p, q, t, 3, 4, Pather(Some("AQ"), [("AZ", 1)], RecursA), Pather(Some("BQ"), [("BZ", 1)], RecursB), Pather(Some("C4"), [("CZ", 3)], None));
  }

  /** Round 4. */
  lemma {:induction false} StraysRound4()
    ensures StatesAfter(Strays, 4) == Ok([Pather(Some("AQ"), [("AZ", 1)], RecursA), Pather(Some("BQ"), [("BZ", 1)], RecursB),
      Pather(Some("C4"), [("CZ", 3)], None)])
  {
    assert IndexAfter(Strays.path, 3) == 3;
    StraysRound3();
    StepOn(Strays, 3, [Pather(Some("AQ"), [("AZ", 1)], RecursA), Pather(Some("BQ"), [("BZ", 1)], RecursB), Pather(Some("CZ"), [("CZ", 3)], None)]);
    StraysSteps4();
  }

  /** The steps of round 5, on `L`. */
  lemma {:induction false} StraysSteps5()
    ensures Round(Strays, [Pather(Some("AQ"), [("AZ", 1)], RecursA), Pather(Some("BQ"), [("BZ", 1)], RecursB),
      Pather(Some("C4"), [("CZ", 3)], None)], 4, 5) == Ok([Pather(Some("AQ"), [("AZ", 1)], RecursA), Pather(Some("BQ"), [("BZ", 1)], RecursB),
      Pather(Some("C5"), [("CZ", 3)], None)])
  {
    var p, q, t := Pather(Some("AQ"), [("AZ", 1)], RecursA), Pather(Some("BQ"), [("BZ", 1)], RecursB), Pather(Some("C4"), [("CZ", 3)], None);
    assert Move(Strays, Some("AQ"), 4) == Ok(Some("AQ"));
    assert Move(Strays, Some("BQ"), 4) == Ok(Some("BQ"));
    assert Move(Strays, Some("C4"), 4) == Ok(Some("C5"));
    StepTo(Strays, p, 4, 5, Some("AQ"));
    StepTo(Strays, q, 4, 5, Some("BQ"));
    StepTo(Strays, t, 4, 5, Some("C5"));
    VisitOff(p, Some("AQ"), 5);
    VisitOff(q, Some("BQ"), 5);
    VisitOff(t, Some("C5"), 5);
    RoundOfThree(Strays, p, q, t, 4, 5, Pather(Some("AQ"), [("AZ", 1)], RecursA), Pather(Some("BQ"), [("BZ", 1)], RecursB), Pather(Some("C5"), [("CZ", 3)], None));
  }

  /** Round 5. */
  lemma {:induction false} StraysRound5()
    ensures StatesAfter(Strays, 5) == Ok([Pather(Some("AQ"), [("AZ", 1)], RecursA), Pather(Some("BQ"), [("BZ", 1)], RecursB),
      Pather(Some("C5"), [("CZ", 3)], None)])
  {
    assert IndexAfter(Strays.path, 4) == 4;
    StraysRound4();
    StepOn(Strays, 4, [Pather(Some("AQ"), [("AZ", 1)], RecursA), Pather(Some("BQ"), [("BZ", 1)], RecursB), Pather(Some("C4"), [("CZ", 3)], None)]);
    StraysSteps5();
  }

  /** The steps of round 6, on `R`. */
  lemma {:induction false} StraysSteps6()
    ensures Round(Strays, [Pather(Some("AQ"), [("AZ", 1)], RecursA), Pather(Some("BQ"), [("BZ", 1)], RecursB),
      Pather(Some("C5"), [("CZ", 3)], None)], 5, 6) == Ok([Pather(Some("AQ"), [("AZ", 1)], RecursA), Pather(None, [("BZ", 1)], RecursB),
      Pather(Some("CZ"), [("CZ", 3)], Some([("CZ", RecurringEncounter(3, 3))]))])
  {
    var p, q, t := Pather(Some("AQ"), [("AZ", 1)], RecursA), Pather(Some("BQ"), [("BZ", 1)], RecursB), Pather(Some("C5"), [("CZ", 3)], None);
    assert Move(Strays, Some("AQ"), 5) == Ok(Some("AQ"));
    assert Move(Strays, Some("BQ"), 5) == Ok(None);
    assert Move(Strays, Some("C5"), 5) == Ok(Some("CZ"));
    StepTo(Strays, p, 5, 6, Some("AQ"));
    StepTo(Strays, q, 5, 6, None);
    StepTo(Strays, t, 5, 6, Some("CZ"));
    VisitOff(p, Some("AQ"), 6);
    VisitOff(q, None, 6);
    VisitAgain(t, "CZ", 3, 6);
    RoundOfThree(Strays, p, q, t, 5, 6, Pather(Some("AQ"), [("AZ", 1)], RecursA), Pather(None, [("BZ", 1)], RecursB), Pather(Some("CZ"), [("CZ", 3)], Some([("CZ", RecurringEncounter(3, 3))])));
  }

  /**
   * Round 6: the second pather steps off `BQ` to `undefined`, which is not
   * tested because its encounters recur; the third is back on `CZ`, which
   * recurs every 3 steps from step 3.
   */
  lemma {:induction false} StraysRound6()
    ensures StatesAfter(Strays, 6) == Ok([Pather(Some("AQ"), [("AZ", 1)], RecursA), Pather(None, [("BZ", 1)], RecursB),
      Pather(Some("CZ"), [("CZ", 3)], Some([("CZ", RecurringEncounter(3, 3))]))])
  {
    assert IndexAfter(Strays.path, 5) == 5;
    StraysRound5();
    StepOn(Strays, 5, [Pather(Some("AQ"), [("AZ", 1)], RecursA), Pather(Some("BQ"), [("BZ", 1)], RecursB), Pather(Some("C5"), [("CZ", 3)], None)]);
    StraysSteps6();
  }

  /** The check before round 1 decides nothing: no pather is on a goal. */
  lemma {:induction false} StraysOpen0()
    ensures Decision([Pather(Some("AA"), [], None), Pather(Some("BA"), [], None), Pather(Some("CA"), [], None)], 0).None?
  {
    var ps := [Pather(Some("AA"), [], None), Pather(Some("BA"), [], None), Pather(Some("CA"), [], None)];
    OpenPast(ps, 0, 0, 2);
  }

  /** The check before round 1 goes on to the next round. */
  lemma {:induction false} StraysGoesOnAt0(fuel: nat)
    requires fuel >= 6
    ensures Runs(Strays, 0, fuel) == Runs(Strays, 1, fuel)
  {
    StraysStarts();
    StraysOpen0();
    RunsEnds(Strays, 0, fuel, [Pather(Some("AA"), [], None), Pather(Some("BA"), [], None), Pather(Some("CA"), [], None)]);
  }

  /** The check after round 1 decides nothing: the third pather is off its goals, after two on goals, and does not recur. */
  lemma {:induction false} StraysOpen1()
    ensures Decision([Pather(Some("AZ"), [("AZ", 1)], None), Pather(Some("BZ"), [("BZ", 1)], None),
      Pather(Some("C1"), [], None)], 1).None?
  {
    var ps := [Pather(Some("AZ"), [("AZ", 1)], None), Pather(Some("BZ"), [("BZ", 1)], None),
      Pather(Some("C1"), [], None)];
    assert OnGoalBefore(ps, 2) by {
      assert OnGoal(ps[0].position) && OnGoal(ps[1].position);
    }
    OpenPast(ps, 1, 2, 2);
  }

  /** The check after round 1 goes on to the next round. */
  lemma {:induction false} StraysGoesOnAt1(fuel: nat)
    requires fuel >= 6
    ensures Runs(Strays, 1, fuel) == Runs(Strays, 2, fuel)
  {
    StraysRound1();
    StraysOpen1();
    RunsEnds(Strays, 1, fuel, [Pather(Some("AZ"), [("AZ", 1)], None), Pather(Some("BZ"), [("BZ", 1)], None),
      Pather(Some("C1"), [], None)]);
  }

  /** The check after round 2 decides nothing: the third pather is off its goals and does not recur yet. */
  lemma {:induction false} StraysOpen2()
    ensures Decision([Pather(Some("AZ"), [("AZ", 1)], RecursA), Pather(Some("BZ"), [("BZ", 1)], RecursB),
      Pather(Some("C2"), [], None)], 2).None?
  {
    var ps := [Pather(Some("AZ"), [("AZ", 1)], RecursA), Pather(Some("BZ"), [("BZ", 1)], RecursB),
      Pather(Some("C2"), [], None)];
    assert OnGoalBefore(ps, 2) by {
      assert OnGoal(ps[0].position) && OnGoal(ps[1].position);
    }
    OpenPast(ps, 2, 2, 2);
  }

  /** The check after round 2 goes on to the next round. */
  lemma {:induction false} StraysGoesOnAt2(fuel: nat)
    requires fuel >= 6
    ensures Runs(Strays, 2, fuel) == Runs(Strays, 3, fuel)
  {
    StraysRound2();
    StraysOpen2();
    RunsEnds(Strays, 2, fuel, [Pather(Some("AZ"), [("AZ", 1)], RecursA), Pather(Some("BZ"), [("BZ", 1)], RecursB),
      Pather(Some("C2"), [], None)]);
  }

  /** The check after round 3 decides nothing: the first pather is off its goal and the third does not recur yet. */
  lemma {:induction false} StraysOpen3()
    ensures Decision([Pather(Some("AQ"), [("AZ", 1)], RecursA), Pather(Some("BQ"), [("BZ", 1)], RecursB),
      Pather(Some("CZ"), [("CZ", 3)], None)], 3).None?
  {
    var ps := [Pather(Some("AQ"), [("AZ", 1)], RecursA), Pather(Some("BQ"), [("BZ", 1)], RecursB),
      Pather(Some("CZ"), [("CZ", 3)], None)];
    OpenPast(ps, 3, 0, 2);
  }

  /** The check after round 3 goes on to the next round. */
  lemma {:induction false} StraysGoesOnAt3(fuel: nat)
    requires fuel >= 6
    ensures Runs(Strays, 3, fuel) == Runs(Strays, 4, fuel)
  {
    StraysRound3();
    StraysOpen3();
    RunsEnds(Strays, 3, fuel, [Pather(Some("AQ"), [("AZ", 1)], RecursA), Pather(Some("BQ"), [("BZ", 1)], RecursB),
      Pather(Some("CZ"), [("CZ", 3)], None)]);
  }

  /** The check after round 4 decides nothing: as after round 3. */
  lemma {:induction false} StraysOpen4()
    ensures Decision([Pather(Some("AQ"), [("AZ", 1)], RecursA), Pather(Some("BQ"), [("BZ", 1)], RecursB),
      Pather(Some("C4"), [("CZ", 3)], None)], 4).None?
  {
    var ps := [Pather(Some("AQ"), [("AZ", 1)], RecursA), Pather(Some("BQ"), [("BZ", 1)], RecursB),
      Pather(Some("C4"), [("CZ", 3)], None)];
    OpenPast(ps, 4, 0, 2);
  }

  /** The check after round 4 goes on to the next round. */
  lemma {:induction false} StraysGoesOnAt4(fuel: nat)
    requires fuel >= 6
    ensures Runs(Strays, 4, fuel) == Runs(Strays, 5, fuel)
  {
    StraysRound4();
    StraysOpen4();
    RunsEnds(Strays, 4, fuel, [Pather(Some("AQ"), [("AZ", 1)], RecursA), Pather(Some("BQ"), [("BZ", 1)], RecursB),
      Pather(Some("C4"), [("CZ", 3)], None)]);
  }

  /** The check after round 5 decides nothing: as after round 3. */
  lemma {:induction false} StraysOpen5()
    ensures Decision([Pather(Some("AQ"), [("AZ", 1)], RecursA), Pather(Some("BQ"), [("BZ", 1)], RecursB),
      Pather(Some("C5"), [("CZ", 3)], None)], 5).None?
  {
    var ps := [Pather(Some("AQ"), [("AZ", 1)], RecursA), Pather(Some("BQ"), [("BZ", 1)], RecursB),
      Pather(Some("C5"), [("CZ", 3)], None)];
    OpenPast(ps, 5, 0, 2);
  }

  /** The check after round 5 goes on to the next round. */
  lemma {:induction false} StraysGoesOnAt5(fuel: nat)
    requires fuel >= 6
    ensures Runs(Strays, 5, fuel) == Runs(Strays, 6, fuel)
  {
    StraysRound5();
    StraysOpen5();
    RunsEnds(Strays, 5, fuel, [Pather(Some("AQ"), [("AZ", 1)], RecursA), Pather(Some("BQ"), [("BZ", 1)], RecursB),
      Pather(Some("C5"), [("CZ", 3)], None)]);
  }

  /** Goals recurring every 1, 1 and 3 steps meet first at step 3. */
  lemma {:induction false} CommonEncounterStrays()
    ensures CalculateFirstCommonEncounter([RecurringEncounter(1, 1), RecurringEncounter(1, 1), RecurringEncounter(3, 3)]) == Ok(3)
  {
    var es := [RecurringEncounter(1, 1), RecurringEncounter(1, 1), RecurringEncounter(3, 3)];
    assert Intervals(es) == [1, 1, 3];
    assert LcmAll([3]) == 3 by {
      LcmOf(3, 1, 1, 3);
    }
    LcmAllCons(1, [3], 3, 1, 3);
    assert [1] + [3] == [1, 3];
    LcmAllCons(1, [1, 3], 3, 1, 3);
    assert [1] + [1, 3] == [1, 1, 3];
  }

  /**
   * The pathers after round 6 of the fifth example: `every` stops at the
   * first, which is off its goal, before it reaches the one on `undefined`;
   * every pather recurs, every 1, 1 and 3 steps, so the loop answers their
   * least common multiple.
   */
  lemma {:induction false} StraysDecision(ps: seq<Pather>)
    requires ps == [Pather(Some("AQ"), [("AZ", 1)], RecursA), Pather(None, [("BZ", 1)], RecursB),
      Pather(Some("CZ"), [("CZ", 3)], Some([("CZ", RecurringEncounter(3, 3))]))]
    ensures Decision(ps, 6) == Some(Ok(3))
  {
    DecisionPastUndefined(ps, 6, 0);
    var es := [RecurringEncounter(1, 1), RecurringEncounter(1, 1), RecurringEncounter(3, 3)];
    var byPather := RecurringByPather(ps);
    assert byPather[0] == [es[0]] && byPather[1] == [es[1]] && byPather[2] == [es[2]];
    assert seq(|byPather|, i requires 0 <= i < |byPather| => byPather[i][0]) == es;
    CommonEncounterStrays();
  }

  /** The check after round 6 ends the loop with the answer 3. */
  lemma {:induction false} StraysEndsAt6(fuel: nat)
    ensures Runs(Strays, 6, fuel) == Some(Ok(3))
  {
    StraysRound6();
    var ps := [Pather(Some("AQ"), [("AZ", 1)], RecursA), Pather(None, [("BZ", 1)], RecursB),
      Pather(Some("CZ"), [("CZ", 3)], Some([("CZ", RecurringEncounter(3, 3))]))];
    StraysDecision(ps);
    RunsEnds(Strays, 6, fuel, ps);
  }

  /**
   * In the fifth example a pather stands on `undefined` after round 6, yet
   * part 2 answers 3, the least common multiple of the intervals 1, 1 and 3.
   */
  lemma {:induction false} StraysAnswer(fuel: nat)
    requires fuel >= 6
    ensures Runs(Strays, 0, fuel) == Some(Ok(3))
  {
    StraysGoesOnAt0(fuel);
    StraysGoesOnAt1(fuel);
    StraysGoesOnAt2(fuel);
    StraysGoesOnAt3(fuel);
    StraysGoesOnAt4(fuel);
    StraysGoesOnAt5(fuel);
    StraysEndsAt6(fuel);
  }
}
