/**
 * day_9.ts: extrapolating an integer history by repeated differences. The
 * history is differenced until the differences are all zero (the empty
 * sequence counts as all zero); the next value is the last value plus the
 * next difference, the previous value is the first value minus the previous
 * difference.
 */
module Day9 {
  /** The successive differences (`slice(1).map((n, i) => n - s[i])`): element i is `s[i + 1] - s[i]`. */
  function Diffs(s: seq<int>): seq<int> {
    if |s| == 0 then [] else seq(|s| - 1, i requires 0 <= i < |s| - 1 => s[i + 1] - s[i])
  }

  predicate AllZero(s: seq<int>) {
    forall i :: 0 <= i < |s| ==> s[i] == 0
  }

  /** `predictNext(sequence)`. */
  function PredictNext(s: seq<int>): int
    decreases |s|
  {
    if AllZero(s) then 0 else s[|s| - 1] + PredictNext(Diffs(s))
  }

  /** `predictPrevious(sequence)`. */
  function PredictPrevious(s: seq<int>): int
    decreases |s|
  {
    if AllZero(s) then 0 else s[0] - PredictPrevious(Diffs(s))
  }

  /** `part1`: the predicted next values of all histories, summed. */
  function Part1(histories: seq<seq<int>>): int {
    if histories == [] then 0 else PredictNext(histories[0]) + Part1(histories[1..])
  }

  /** `part2`: the predicted previous values of all histories, summed. */
  function Part2(histories: seq<seq<int>>): int {
    if histories == [] then 0 else PredictPrevious(histories[0]) + Part2(histories[1..])
  }

  /** The reversed histories. */
  function ReverseAll(histories: seq<seq<int>>): (r: seq<seq<int>>)
    ensures |r| == |histories| && forall i :: 0 <= i < |histories| ==> r[i] == Reverse(histories[i])
  {
    seq(|histories|, i requires 0 <= i < |histories| => Reverse(histories[i]))
  }

  /** `part2` is `part1` of the reversed histories. */
  lemma {:induction false} Part2IsPart1OfReversed(histories: seq<seq<int>>)
    ensures Part2(histories) == Part1(ReverseAll(histories))
    decreases |histories|
  {
    if histories != [] {
      PreviousIsNextOfReverse(histories[0]);
      assert ReverseAll(histories)[1..] == ReverseAll(histories[1..]);
      Part2IsPart1OfReversed(histories[1..]);
    }
  }

  function Negate(s: seq<int>): (r: seq<int>)
    ensures |r| == |s| && forall i :: 0 <= i < |s| ==> r[i] == -s[i]
  {
    seq(|s|, i requires 0 <= i < |s| => -s[i])
  }

  function Reverse(s: seq<int>): (r: seq<int>)
    ensures |r| == |s| && forall i :: 0 <= i < |s| ==> r[i] == s[|s| - 1 - i]
  {
    seq(|s|, i requires 0 <= i < |s| => s[|s| - 1 - i])
  }

  /** On a non-empty history the recursion equation of `predictNext` holds in the all-zero case too. */
  lemma {:induction false} NextRecurrence(s: seq<int>)
    requires |s| >= 1
    ensures PredictNext(s) == s[|s| - 1] + PredictNext(Diffs(s))
  {
    if AllZero(s) {
      assert AllZero(Diffs(s));
    }
  }

  /** On a non-empty history the recursion equation of `predictPrevious` holds in the all-zero case too. */
  lemma {:induction false} PreviousRecurrence(s: seq<int>)
    requires |s| >= 1
    ensures PredictPrevious(s) == s[0] - PredictPrevious(Diffs(s))
  {
    if AllZero(s) {
      assert AllZero(Diffs(s));
    }
  }

  /**
   * Appending the prediction continues the difference table: the new last
   * difference is exactly the prediction made for the differences.
   */
  lemma {:induction false} NextExtendsDifferences(s: seq<int>)
    requires |s| >= 1
    ensures Diffs(s + [PredictNext(s)]) == Diffs(s) + [PredictNext(Diffs(s))]
  {
    var p := PredictNext(s);
    NextRecurrence(s);
    assert p - s[|s| - 1] == PredictNext(Diffs(s));
    DiffsAppend(s, p);
  }

  /** Prepending the prediction continues the difference table at the front. */
  lemma {:induction false} PreviousExtendsDifferences(s: seq<int>)
    requires |s| >= 1
    ensures Diffs([PredictPrevious(s)] + s) == [PredictPrevious(Diffs(s))] + Diffs(s)
  {
    var p := PredictPrevious(s);
    PreviousRecurrence(s);
    assert s[0] - p == PredictPrevious(Diffs(s));
    DiffsPrepend(s, p);
  }

  lemma {:induction false} DiffsAppend(s: seq<int>, p: int)
    requires |s| >= 1
    ensures Diffs(s + [p]) == Diffs(s) + [p - s[|s| - 1]]
  {
    var t := s + [p];
    forall i | 0 <= i < |s| ensures Diffs(t)[i] == (Diffs(s) + [p - s[|s| - 1]])[i] {
      assert t[i] == s[i];
    }
  }

  lemma {:induction false} DiffsPrepend(s: seq<int>, p: int)
    requires |s| >= 1
    ensures Diffs([p] + s) == [s[0] - p] + Diffs(s)
  {
    var t := [p] + s;
    forall i | 0 <= i < |s| ensures Diffs(t)[i] == ([s[0] - p] + Diffs(s))[i] {
      assert t[i + 1] == s[i];
    }
  }

  /** Prediction is linear under negation. */
  lemma {:induction false} PredictNextNegate(s: seq<int>)
    ensures PredictNext(Negate(s)) == -PredictNext(s)
    decreases |s|
  {
    var n := Negate(s);
    if !AllZero(s) {
      assert !AllZero(n);
      assert Diffs(n) == Negate(Diffs(s));
      PredictNextNegate(Diffs(s));
    } else {
      assert AllZero(n);
    }
  }

  /** Extrapolating backwards is extrapolating the reversed history forwards. */
  lemma {:induction false} PreviousIsNextOfReverse(s: seq<int>)
    ensures PredictPrevious(s) == PredictNext(Reverse(s))
    decreases |s|
  {
    var r := Reverse(s);
    if !AllZero(s) {
      assert !AllZero(r) by {
        var i :| 0 <= i < |s| && s[i] != 0;
        assert r[|s| - 1 - i] != 0;
      }
      var d := Diffs(s);
      assert Diffs(r) == Negate(Reverse(d));
      PredictNextNegate(Reverse(d));
      PreviousIsNextOfReverse(d);
    } else {
      assert AllZero(r);
    }
  }

  /** A constant non-empty history predicts its constant in both directions. */
  lemma {:induction false} ConstantHistory(s: seq<int>, c: int)
    requires |s| >= 1
    requires forall i :: 0 <= i < |s| ==> s[i] == c
    ensures PredictNext(s) == c && PredictPrevious(s) == c
  {
    assert AllZero(Diffs(s));
    NextRecurrence(s);
    PreviousRecurrence(s);
  }

  /** The first history of the worked example: constant differences of 3. */
  lemma {:induction false} ExampleHistory1()
    ensures PredictNext([0, 3, 6, 9, 12, 15]) == 18 && PredictPrevious([0, 3, 6, 9, 12, 15]) == -3
  {
    var h: seq<int> := [0, 3, 6, 9, 12, 15];
    assert Diffs(h) == [3, 3, 3, 3, 3];
    ConstantHistory([3, 3, 3, 3, 3], 3);
    NextRecurrence(h);
    PreviousRecurrence(h);
  }

  /** The second history of the worked example: second differences constant at 1. */
  lemma {:induction false} ExampleHistory2()
    ensures PredictNext([1, 3, 6, 10, 15, 21]) == 28 && PredictPrevious([1, 3, 6, 10, 15, 21]) == 0
  {
    var h: seq<int> := [1, 3, 6, 10, 15, 21];
    var d: seq<int> := [2, 3, 4, 5, 6];
    assert Diffs(h) == d;
    assert Diffs(d) == [1, 1, 1, 1];
    ConstantHistory([1, 1, 1, 1], 1);
    NextRecurrence(d);
    PreviousRecurrence(d);
    NextRecurrence(h);
    PreviousRecurrence(h);
  }

  /** The third history of the worked example: third differences constant at 2. */
  lemma {:induction false} ExampleHistory3()
    ensures PredictNext([10, 13, 16, 21, 30, 45]) == 68 && PredictPrevious([10, 13, 16, 21, 30, 45]) == 5
  {
    var h: seq<int> := [10, 13, 16, 21, 30, 45];
    var d: seq<int> := [3, 3, 5, 9, 15];
    var e: seq<int> := [0, 2, 4, 6];
    assert Diffs(h) == d;
    assert Diffs(d) == e;
    assert Diffs(e) == [2, 2, 2];
    ConstantHistory([2, 2, 2], 2);
    NextRecurrence(e);
    PreviousRecurrence(e);
    NextRecurrence(d);
    PreviousRecurrence(d);
    NextRecurrence(h);
    PreviousRecurrence(h);
  }

  lemma {:induction false} ExamplePart1()
    ensures Part1([[0, 3, 6, 9, 12, 15], [1, 3, 6, 10, 15, 21], [10, 13, 16, 21, 30, 45]]) == 114
  {
    ExampleHistory1();
    ExampleHistory2();
    ExampleHistory3();
  }

  lemma {:induction false} ExamplePart2()
    ensures Part2([[0, 3, 6, 9, 12, 15], [1, 3, 6, 10, 15, 21], [10, 13, 16, 21, 30, 45]]) == 2
  {
    ExampleHistory1();
    ExampleHistory2();
    ExampleHistory3();
  }
}
