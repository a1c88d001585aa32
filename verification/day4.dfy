/**
 * day_4.ts: scratchcards. A card scores by how many of its numbers are
 * winning numbers; in the second part each card wins copies of the cards
 * that follow it, and the answer is the total number of cards held.
 */
module Day4 {
  datatype Card = Card(winningNumbers: seq<int>, cardNumbers: seq<int>)

  /** How many entries of `numbers` (counted with repetition) occur in `winning`. */
  function MatchCount(winning: seq<int>, numbers: seq<int>): (n: nat)
    ensures n <= |numbers|
  {
    if numbers == [] then 0
    else (if numbers[0] in winning then 1 else 0) + MatchCount(winning, numbers[1..])
  }

  lemma {:induction false} MatchCountAppend(winning: seq<int>, numbers: seq<int>, x: int)
    ensures MatchCount(winning, numbers + [x]) == MatchCount(winning, numbers) + (if x in winning then 1 else 0)
  {
    if numbers != [] {
      assert (numbers + [x])[1..] == numbers[1..] + [x];
      MatchCountAppend(winning, numbers[1..], x);
    }
  }

  function Matches(card: Card): nat {
    MatchCount(card.winningNumbers, card.cardNumbers)
  }

  /** `countWinningNumbers(card)`: the counting loop of the source. */
  method CountWinningNumbers(card: Card) returns (count: nat)
    ensures count == Matches(card)
    ensures count <= |card.cardNumbers|
  {
    count := 0;
    for k := 0 to |card.cardNumbers|
      invariant count == MatchCount(card.winningNumbers, card.cardNumbers[..k])
    {
      assert card.cardNumbers[..k + 1] == card.cardNumbers[..k] + [card.cardNumbers[k]];
      MatchCountAppend(card.winningNumbers, card.cardNumbers[..k], card.cardNumbers[k]);
      if card.cardNumbers[k] in card.winningNumbers {
        count := count + 1;
      }
    }
    assert card.cardNumbers[..|card.cardNumbers|] == card.cardNumbers;
  }

  /** No number matches exactly when the count is 0; every number matches exactly when it is the length. */
  lemma {:induction false} MatchCountExtremes(winning: seq<int>, numbers: seq<int>)
    ensures MatchCount(winning, numbers) == 0 <==> forall k :: 0 <= k < |numbers| ==> numbers[k] !in winning
    ensures MatchCount(winning, numbers) == |numbers| <==> forall k :: 0 <= k < |numbers| ==> numbers[k] in winning
  {
    if numbers != [] {
      var tail := numbers[1..];
      MatchCountExtremes(winning, tail);
      assert forall k :: 0 <= k < |tail| ==> tail[k] == numbers[k + 1];
      assert forall k :: 1 <= k < |numbers| ==> numbers[k] == tail[k - 1];
    }
  }

  function Pow2(e: nat): (p: nat)
    ensures p >= 1
  {
    if e == 0 then 1 else 2 * Pow2(e - 1)
  }

  /** `scoreCard(card)`: 0 without matches, else 2 to the power (matches - 1). */
  function ScoreCard(card: Card): (score: nat)
    ensures score == 0 <==> Matches(card) == 0
    ensures score >= Matches(card)
  {
    var count := Matches(card);
    PowerBound(count);
    if count == 0 then 0 else Pow2(count - 1)
  }

  lemma {:induction false} PowerBound(n: nat)
    ensures n >= 1 ==> Pow2(n - 1) >= n
  {
    if n >= 2 {
      PowerBound(n - 1);
    }
  }

  /** One more winning number doubles a score that was already positive, and makes a zero score 1. */
  lemma {:induction false} ScoreAfterOneMoreMatch(w: seq<int>, c: seq<int>, x: int)
    requires x in w
    ensures ScoreCard(Card(w, c + [x])) == (if ScoreCard(Card(w, c)) == 0 then 1 else 2 * ScoreCard(Card(w, c)))
  {
    MatchCountAppend(w, c, x);
  }

  /** `part1`: the scores of all cards, summed. */
  function Part1(cards: seq<Card>): nat {
    if cards == [] then 0 else Part1(cards[..|cards| - 1]) + ScoreCard(cards[|cards| - 1])
  }

  /** The number of matches of every card. */
  function Wins(cards: seq<Card>): (w: seq<nat>)
    ensures |w| == |cards| && forall i :: 0 <= i < |cards| ==> w[i] == Matches(cards[i])
  {
    seq(|cards|, i requires 0 <= i < |cards| => Matches(cards[i]))
  }

  /**
   * The number of copies of card j held in the end: the original plus, for
   * every earlier card k whose winnings reach j, one per copy of k.
   */
  function Copies(wins: seq<nat>, j: nat): (c: nat)
    requires j < |wins|
    ensures c >= 1
    decreases j, 1
  {
    1 + Inflow(wins, j, j)
  }

  /** The copies of card j won by the cards before index i. */
  function Inflow(wins: seq<nat>, j: nat, i: nat): nat
    requires i <= j < |wins|
    decreases i, 0
  {
    if i == 0 then 0
    else Inflow(wins, j, i - 1) + (if j <= i - 1 + wins[i - 1] then Copies(wins, i - 1) else 0)
  }

  /** The total of the final copy counts of the first n cards. */
  function TotalCopies(wins: seq<nat>, n: nat): nat
    requires n <= |wins|
  {
    if n == 0 then 0 else TotalCopies(wins, n - 1) + Copies(wins, n - 1)
  }

  /** Every card is held at least once, so the total is at least the number of cards. */
  lemma {:induction false} TotalCopiesAtLeastCards(wins: seq<nat>, n: nat)
    requires n <= |wins|
    ensures TotalCopies(wins, n) >= n
  {
    if n > 0 {
      TotalCopiesAtLeastCards(wins, n - 1);
    }
  }

  /** A card that no earlier card reaches is held exactly once. */
  lemma {:induction false} UnreachedCardHeldOnce(wins: seq<nat>, j: nat, i: nat)
    requires i <= j < |wins|
    requires forall k :: 0 <= k < i ==> k + wins[k] < j
    ensures Inflow(wins, j, i) == 0
  {
    if i > 0 {
      UnreachedCardHeldOnce(wins, j, i - 1);
    }
  }

  function Min(a: int, b: int): int {
    if a < b then a else b
  }

  /** `part2`: every card starts with one copy; card i adds its copies to each of the next `matches` cards. */
  method Part2(cards: seq<Card>) returns (total: nat)
    ensures total == TotalCopies(Wins(cards), |cards|)
    ensures total >= |cards|
  {
    ghost var wins := Wins(cards);
    var n := |cards|;
    var countPerCard := new nat[n](_ => 1);
    for i := 0 to n
      invariant forall k :: 0 <= k < n ==> countPerCard[k] == 1 + Inflow(wins, k, Min(i, k))
    {
      var winningCount := CountWinningNumbers(cards[i]);
      AddCopies(countPerCard, i, winningCount, wins);
    }
    total := 0;
    for k := 0 to n
      invariant total == TotalCopies(wins, k)
    {
      total := total + countPerCard[k];
    }
    TotalCopiesAtLeastCards(wins, n);
  }

  /** The inner loop of `part2`: each of the next `winningCount` cards gains one copy per copy of card i. */
  method AddCopies(countPerCard: array<nat>, i: nat, winningCount: nat, ghost wins: seq<nat>)
    requires i < countPerCard.Length == |wins| && wins[i] == winningCount
    requires forall k :: 0 <= k < countPerCard.Length ==> countPerCard[k] == 1 + Inflow(wins, k, Min(i, k))
    modifies countPerCard
    ensures forall k :: 0 <= k < countPerCard.Length ==> countPerCard[k] == 1 + Inflow(wins, k, Min(i + 1, k))
  {
    var n := countPerCard.Length;
    var countOfThisCard := countPerCard[i];
    assert countOfThisCard == Copies(wins, i);
    var j := i + 1;
    while j < Min(i + winningCount + 1, n)
      invariant i + 1 <= j
      invariant forall k :: 0 <= k < n && (k <= i || j <= k) ==> countPerCard[k] == 1 + Inflow(wins, k, Min(i, k))
      invariant forall k :: i < k < j && k < n ==> countPerCard[k] == 1 + Inflow(wins, k, i + 1)
    {
      countPerCard[j] := countPerCard[j] + countOfThisCard;
      j := j + 1;
    }
    forall k | 0 <= k < n
      ensures countPerCard[k] == 1 + Inflow(wins, k, Min(i + 1, k))
    {
      if k > i && j <= k {
        assert k > i + winningCount || k >= n;
      }
    }
  }

  /** The worked example, whose six cards have 4, 2, 2, 1, 0 and 0 matching numbers: the scores sum to 13. */
  lemma {:induction false} ExamplePart1(cards: seq<Card>)
    requires Wins(cards) == [4, 2, 2, 1, 0, 0]
    ensures Part1(cards) == 13
  {
    assert |cards| == 6;
    assert Matches(cards[0]) == 4 && Matches(cards[1]) == 2 && Matches(cards[2]) == 2;
    assert Matches(cards[3]) == 1 && Matches(cards[4]) == 0 && Matches(cards[5]) == 0;
    assert Pow2(3) == 8 && Pow2(1) == 2;
    assert Part1(cards[..1]) == 8 by { assert cards[..1][..0] == []; }
    assert Part1(cards[..2]) == 10 by { assert cards[..2][..1] == cards[..1]; }
    assert Part1(cards[..3]) == 12 by { assert cards[..3][..2] == cards[..2]; }
    assert Part1(cards[..4]) == 13 by { assert cards[..4][..3] == cards[..3]; }
    assert Part1(cards[..5]) == 13 by { assert cards[..5][..4] == cards[..4]; }
    assert cards[..6] == cards && cards[..6][..5] == cards[..5];
  }

  /** The worked example: with those match counts, 30 cards are held in the end. */
  lemma {:induction false} ExamplePart2()
    ensures TotalCopies([4, 2, 2, 1, 0, 0], 6) == 30
  {
    var w: seq<nat> := [4, 2, 2, 1, 0, 0];
    assert Copies(w, 0) == 1;
    assert Copies(w, 1) == 2;
    assert Copies(w, 2) == 4;
    assert Copies(w, 3) == 8;
    assert Copies(w, 4) == 14;
    assert Copies(w, 5) == 1;
  }
}
