/**
 * day_7.ts: Camel Cards. A hand is ranked first by its type (five of a kind
 * down to high card, read off the sorted card counts), then card by card.
 * Part 2 turns `J` into a joker: it is the weakest card when comparing cards,
 * and when typing a hand it joins the most common other card.
 */
module Day7 {
  /** The thirteen card labels. */
  predicate IsCard(c: char) {
    ('2' <= c <= '9') || c == 'T' || c == 'J' || c == 'Q' || c == 'K' || c == 'A'
  }

  type Card = c: char | IsCard(c) witness 'A'

  /** The card that part 2 turns into a joker. */
  const Joker: Card := 'J'

  /** The two rule sets: plain cards, or `J` as a joker. */
  datatype Rules = Standard | Jokers

  /** `CARD_SCORES`: 2 to 9 at face value, then T, J, Q, K, A as 10 to 14. */
  function CardScore(c: Card): (s: nat)
    ensures 2 <= s <= 14
  {
    if c == 'A' then 14
    else if c == 'K' then 13
    else if c == 'Q' then 12
    else if c == 'J' then 11
    else if c == 'T' then 10
    else c as int - '0' as int
  }

  /** The score a card compares by: part 2 scores `J` as 1. */
  function Strength(rules: Rules, c: Card): nat {
    if rules == Jokers && c == 'J' then 1 else CardScore(c)
  }

  /** `Math.sign`. */
  function Sign(x: int): (r: int)
    ensures r == -1 || r == 0 || r == 1
    ensures r == 0 <==> x == 0
    ensures r == 1 <==> x > 0
  {
    if x > 0 then 1 else if x < 0 then -1 else 0
  }

  /**
   * `compareCards` (Standard) and `compareCardsPart2` (Jokers): 0 when the
   * cards are equal, -1 when `a` is stronger and 1 when `b` is stronger.
   */
  function CompareCards(rules: Rules, a: Card, b: Card): (r: int)
    ensures r == -1 || r == 0 || r == 1
    ensures r == 0 <==> a == b
    ensures r == -1 <==> Strength(rules, a) > Strength(rules, b)
    ensures r == 1 <==> Strength(rules, a) < Strength(rules, b)
  {
    Sign(Strength(rules, b) - Strength(rules, a))
  }

  lemma {:induction false} CompareCardsAntisymmetric(rules: Rules, a: Card, b: Card)
    ensures CompareCards(rules, a, b) == -CompareCards(rules, b, a)
  {
  }

  /** Under the joker rules `J` loses to every other card. */
  lemma {:induction false} JokerWeakest(c: Card)
    requires c != 'J'
    ensures CompareCards(Jokers, 'J', c) == 1 && CompareCards(Jokers, c, 'J') == -1
  {
  }

  /** Away from `J` the two rule sets compare cards alike. */
  lemma {:induction false} RulesAgreeWithoutJoker(a: Card, b: Card)
    requires a != 'J' && b != 'J'
    ensures CompareCards(Jokers, a, b) == CompareCards(Standard, a, b)
  {
  }

  /** The checks of the source's card comparison tests. */
  lemma {:induction false} ExampleCardComparisons()
    ensures CompareCards(Standard, 'A', 'K') == -1 && CompareCards(Standard, 'Q', 'K') == 1
    ensures CompareCards(Standard, '7', '2') == -1 && CompareCards(Standard, 'J', 'T') == -1
    ensures CompareCards(Jokers, 'J', 'A') == 1 && CompareCards(Jokers, 'J', '2') == 1
    ensures CompareCards(Jokers, '3', '5') == 1 && CompareCards(Jokers, 'Q', '9') == -1
  {
  }

  // Counting cards

  /** The multiplicity of every card of the hand (what `countCardsOfEachType` builds). */
  function CountMap(cards: seq<Card>): (m: map<Card, nat>)
    ensures forall c :: c in m <==> c in cards
    ensures forall c :: c in m ==> m[c] == multiset(cards)[c] >= 1
  {
    map c: Card | c in multiset(cards) :: multiset(cards)[c]
  }

  lemma {:induction false} CountMapAppend(cards: seq<Card>, c: Card)
    ensures CountMap(cards + [c]) == CountMap(cards)[c := (if c in CountMap(cards) then CountMap(cards)[c] else 0) + 1]
  {
    assert multiset(cards + [c]) == multiset(cards) + multiset{c};
    var m := CountMap(cards);
    var m' := CountMap(cards + [c]);
    var n := m[c := (if c in m then m[c] else 0) + 1];
    assert forall d :: d in m' <==> d in n;
    assert forall d :: d in m' ==> m'[d] == n[d];
  }

  /** `countCardsOfEachType`: one pass over the hand, adding 1 to the card's entry (absent counts as 0). */
  method CountCardsOfEachType(cards: seq<Card>) returns (counts: map<Card, nat>)
    ensures counts == CountMap(cards)
  {
    counts := map[];
    for i := 0 to |cards|
      invariant counts == CountMap(cards[..i])
    {
      var card := cards[i];
      assert cards[..i + 1] == cards[..i] + [card];
      CountMapAppend(cards[..i], card);
      counts := counts[card := (if card in counts then counts[card] else 0) + 1];
    }
    assert cards[..|cards|] == cards;
  }

  /** The distinct cards of the hand in order of first appearance (the keys of the counts object). */
  function Keys(cards: seq<Card>): (keys: seq<Card>)
    ensures forall c :: c in keys <==> c in cards
    ensures DistinctCards(keys)
  {
    if cards == [] then []
    else
      var keys := Keys(cards[..|cards| - 1]);
      assert forall c :: c in cards <==> c in cards[..|cards| - 1] || c == cards[|cards| - 1];
      if cards[|cards| - 1] in keys then keys else keys + [cards[|cards| - 1]]
  }

  predicate DistinctCards(order: seq<Card>) {
    forall i, j :: 0 <= i < j < |order| ==> order[i] != order[j]
  }

  /** `Object.values(counts)`: the counts of the cards of `order` that are present. */
  function ValuesIn(order: seq<Card>, counts: map<Card, nat>): (vs: seq<nat>)
    ensures |vs| <= |order|
  {
    if order == [] then []
    else (if order[0] in counts then [counts[order[0]]] else []) + ValuesIn(order[1..], counts)
  }

  function Sum(xs: seq<nat>): nat {
    if xs == [] then 0 else xs[0] + Sum(xs[1..])
  }

  predicate SortedDescending(xs: seq<nat>) {
    forall i, j :: 0 <= i < j < |xs| ==> xs[i] >= xs[j]
  }

  function InsertDescending(x: nat, xs: seq<nat>): (r: seq<nat>)
    requires SortedDescending(xs)
    ensures SortedDescending(r) && multiset(r) == multiset(xs) + multiset{x}
    ensures Sum(r) == x + Sum(xs)
  {
    if xs == [] || x >= xs[0] then
      SumCons(x, xs);
      [x] + xs
    else
      var tail := InsertDescending(x, xs[1..]);
      InsertBelowHead(x, xs, tail);
      [xs[0]] + tail
  }

  lemma {:induction false} SumCons(x: nat, xs: seq<nat>)
    ensures Sum([x] + xs) == x + Sum(xs)
  {
    assert ([x] + xs)[1..] == xs;
  }

  /** Inserting below the head of a descending list: the head stays in front of the insertion into the rest. */
  lemma {:induction false} InsertBelowHead(x: nat, xs: seq<nat>, tail: seq<nat>)
    requires SortedDescending(xs) && xs != [] && x < xs[0]
    requires SortedDescending(tail) && multiset(tail) == multiset(xs[1..]) + multiset{x}
    requires Sum(tail) == x + Sum(xs[1..])
    ensures SortedDescending([xs[0]] + tail)
    ensures multiset([xs[0]] + tail) == multiset(xs) + multiset{x}
    ensures Sum([xs[0]] + tail) == x + Sum(xs)
  {
    assert xs == [xs[0]] + xs[1..];
    forall j | 0 <= j < |tail| ensures tail[j] <= xs[0] {
      assert tail[j] in multiset(tail);
      if tail[j] != x {
        assert tail[j] in multiset(xs[1..]);
        var k :| 0 <= k < |xs[1..]| && xs[1..][k] == tail[j];
        assert xs[k + 1] == tail[j];
      }
    }
    assert forall i, j :: 0 <= i < j < |[xs[0]] + tail| ==> ([xs[0]] + tail)[i] >= ([xs[0]] + tail)[j] by {
      forall i, j | 0 <= i < j < |[xs[0]] + tail| ensures ([xs[0]] + tail)[i] >= ([xs[0]] + tail)[j] {
        if i == 0 {
          assert ([xs[0]] + tail)[j] == tail[j - 1];
        } else {
          assert ([xs[0]] + tail)[i] == tail[i - 1] && ([xs[0]] + tail)[j] == tail[j - 1];
        }
      }
    }
    SumCons(xs[0], tail);
    SumCons(xs[0], xs[1..]);
  }

  /** `.sort((a, b) => b - a)`. */
  function SortDescending(xs: seq<nat>): (r: seq<nat>)
    ensures SortedDescending(r) && multiset(r) == multiset(xs) && |r| == |xs|
    ensures Sum(r) == Sum(xs)
  {
    if xs == [] then []
    else
      assert xs == [xs[0]] + xs[1..];
      InsertDescending(xs[0], SortDescending(xs[1..]))
  }

  // Hand types

  datatype HandType = FiveOfAKind | FourOfAKind | FullHouse | ThreeOfAKind | TwoPair | OnePair | HighCard

  /** `HAND_TYPE_SCORES`. */
  function TypeScore(t: HandType): (s: nat)
    ensures 1 <= s <= 7
  {
    match t
    case FiveOfAKind => 7
    case FourOfAKind => 6
    case FullHouse => 5
    case ThreeOfAKind => 4
    case TwoPair => 3
    case OnePair => 2
    case HighCard => 1
  }

  /** `identifyTypeUsingCountsList`: the ladder over the two largest counts (a missing count matches nothing). */
  function TypeOfCounts(counts: seq<nat>): (t: HandType)
    ensures counts == [] ==> t == HighCard
    ensures t != HighCard ==> |counts| >= 1 && 2 <= counts[0] <= 5
    ensures t == FullHouse || t == TwoPair ==> |counts| >= 2 && counts[1] == 2
  {
    var first := if |counts| > 0 then counts[0] else 0;
    var second := if |counts| > 1 then counts[1] else 0;
    if first == 5 then FiveOfAKind
    else if first == 4 then FourOfAKind
    else if first == 3 && second == 2 then FullHouse
    else if first == 3 then ThreeOfAKind
    else if first == 2 && second == 2 then TwoPair
    else if first == 2 then OnePair
    else HighCard
  }

  /** The sorted counts a hand is typed by. Part 2 adds the jokers to the largest count of the other cards. */
  function CountsList(rules: Rules, cards: seq<Card>): seq<nat> {
    if rules == Standard then SortDescending(ValuesIn(Keys(cards), CountMap(cards)))
    else WithJokers(Keys(cards), CountMap(cards))
  }

  /** The sorted counts of the cards other than `J`, with the jokers added to the first (or alone if there is none). */
  function WithJokers(keys: seq<Card>, counts: map<Card, nat>): seq<nat> {
    AddJokers(SortDescending(ValuesIn(keys, counts - {Joker})), JokerCount(counts))
  }

  /** `countsByType["J"] ?? 0`. */
  function JokerCount(counts: map<Card, nat>): nat {
    if Joker in counts then counts[Joker] else 0
  }

  /** The jokers join the first count, or stand alone when there is no other card. */
  function AddJokers(others: seq<nat>, jCount: nat): (r: seq<nat>)
    ensures |r| == if others == [] then 1 else |others|
    ensures r[0] == (if others == [] then 0 else others[0]) + jCount
    ensures others != [] ==> r[1..] == others[1..]
  {
    if others == [] then [jCount] else others[0 := others[0] + jCount]
  }

  /** `identifyType` (Standard) and `identifyTypePart2` (Jokers). */
  function HandTypeOf(rules: Rules, cards: seq<Card>): (t: HandType)
    ensures Joker !in cards ==> t == TypeOfCounts(CountsList(Standard, cards))
  {
    assert Joker !in cards ==> TypeOfCounts(CountsList(Jokers, cards)) == TypeOfCounts(CountsList(Standard, cards)) by {
      if Joker !in cards {
        JokerFreeHand(cards);
      }
    }
    TypeOfCounts(CountsList(rules, cards))
  }

  /** `identifyTypePart2`: count, take the jokers out, sort, and add them to the front count. */
  method IdentifyTypePart2(cards: seq<Card>) returns (t: HandType)
    ensures t == HandTypeOf(Jokers, cards)
  {
    var countsByType: map<Card, nat> := CountCardsOfEachType(cards);
    var jCount := JokerCount(countsByType);
    countsByType := countsByType - {Joker};
    var counts := SortDescending(ValuesIn(Keys(cards), countsByType));
    assert HandTypeOf(Jokers, cards) == TypeOfCounts(AddJokers(counts, jCount));
    if |counts| == 0 {
      counts := [jCount];
    } else {
      counts := counts[0 := counts[0] + jCount];
    }
    t := TypeOfCounts(counts);
  }

  // The counts add up to the hand size

  /** How many times `c` is listed in `order`. */
  function Occurrences(order: seq<Card>, c: Card): nat {
    if order == [] then 0 else (if order[0] == c then 1 else 0) + Occurrences(order[1..], c)
  }

  lemma {:induction false} OccurrencesWhenDistinct(order: seq<Card>, c: Card)
    requires DistinctCards(order)
    ensures Occurrences(order, c) == if c in order then 1 else 0
    decreases |order|
  {
    if order != [] {
      assert DistinctCards(order[1..]);
      assert order[0] !in order[1..];
      OccurrencesWhenDistinct(order[1..], c);
    }
  }

  /** The total count the cards of `order` have in the hand. */
  function CountIn(order: seq<Card>, cards: seq<Card>): nat {
    if order == [] then 0 else multiset(cards)[order[0]] + CountIn(order[1..], cards)
  }

  lemma {:induction false} CountInAppend(order: seq<Card>, cards: seq<Card>, c: Card)
    ensures CountIn(order, cards + [c]) == CountIn(order, cards) + Occurrences(order, c)
    decreases |order|
  {
    assert multiset(cards + [c]) == multiset(cards) + multiset{c};
    if order != [] {
      CountInAppend(order[1..], cards, c);
    }
  }

  lemma {:induction false} CountInEmpty(order: seq<Card>)
    ensures CountIn(order, []) == 0
    decreases |order|
  {
    if order != [] {
      CountInEmpty(order[1..]);
    }
  }

  /** Listing every card of the hand once counts the whole hand. */
  lemma {:induction false} CountInWholeHand(order: seq<Card>, cards: seq<Card>)
    requires DistinctCards(order) && forall c :: c in cards ==> c in order
    ensures CountIn(order, cards) == |cards|
    decreases |cards|
  {
    if cards == [] {
      CountInEmpty(order);
    } else {
      var init := cards[..|cards| - 1];
      var last := cards[|cards| - 1];
      assert cards == init + [last];
      CountInWholeHand(order, init);
      CountInAppend(order, init, last);
      OccurrencesWhenDistinct(order, last);
    }
  }

  /** The part of `CountIn` that falls on `J`. */
  function JokersIn(order: seq<Card>, cards: seq<Card>): nat {
    if order == [] then 0
    else (if order[0] == Joker then multiset(cards)[Joker] else 0) + JokersIn(order[1..], cards)
  }

  lemma {:induction false} JokersInOccurrences(order: seq<Card>, cards: seq<Card>)
    ensures JokersIn(order, cards) == multiset(cards)[Joker] * Occurrences(order, Joker)
    ensures JokersIn(order, cards) <= CountIn(order, cards)
    decreases |order|
  {
    if order != [] {
      JokersInOccurrences(order[1..], cards);
      var k, o := multiset(cards)[Joker], Occurrences(order[1..], Joker);
      assert k * (o + 1) == k * o + k;
    }
  }

  lemma {:induction false} SumConcat(a: seq<nat>, b: seq<nat>)
    ensures Sum(a + b) == Sum(a) + Sum(b)
    decreases |a|
  {
    if a == [] {
      assert a + b == b;
    } else {
      assert (a + b)[0] == a[0] && (a + b)[1..] == a[1..] + b;
      SumConcat(a[1..], b);
    }
  }

  /** The listed counts add up to the counts of the listed cards, less the jokers when they are taken out. */
  lemma {:induction false} SumValuesIn(order: seq<Card>, cards: seq<Card>, withoutJokers: bool)
    ensures withoutJokers ==> Sum(ValuesIn(order, CountMap(cards) - {Joker})) == CountIn(order, cards) - JokersIn(order, cards)
    ensures !withoutJokers ==> Sum(ValuesIn(order, CountMap(cards))) == CountIn(order, cards)
    decreases |order|
  {
    if order != [] {
      var counts := if withoutJokers then CountMap(cards) - {Joker} else CountMap(cards);
      var c := order[0];
      var head := if c in counts then [counts[c]] else [];
      assert ValuesIn(order, counts) == head + ValuesIn(order[1..], counts);
      SumConcat(head, ValuesIn(order[1..], counts));
      SumValuesIn(order[1..], cards, withoutJokers);
      JokersInOccurrences(order[1..], cards);
    }
  }

  /** `countCardsOfEachType`'s counts add up to the number of cards. */
  lemma {:induction false} CountsSumToHandSize(cards: seq<Card>)
    ensures Sum(ValuesIn(Keys(cards), CountMap(cards))) == |cards|
    ensures Sum(CountsList(Standard, cards)) == |cards|
  {
    SumValuesIn(Keys(cards), cards, false);
    CountInWholeHand(Keys(cards), cards);
  }

  lemma {:induction false} AddJokersSum(others: seq<nat>, jCount: nat)
    ensures Sum(AddJokers(others, jCount)) == Sum(others) + jCount
  {
    if others != [] {
      assert others == [others[0]] + others[1..];
      assert AddJokers(others, jCount) == [others[0] + jCount] + others[1..];
    }
  }

  /** Listing each card of the hand once meets the jokers exactly once. */
  lemma {:induction false} JokersInHand(cards: seq<Card>)
    ensures JokersIn(Keys(cards), cards) == JokerCount(CountMap(cards))
  {
    JokersInOccurrences(Keys(cards), cards);
    OccurrencesWhenDistinct(Keys(cards), Joker);
  }

  /** Moving the jokers onto the largest count keeps the total: the part 2 counts also add up to the hand size. */
  lemma {:induction false} JokerCountsSumToHandSize(cards: seq<Card>)
    ensures Sum(CountsList(Jokers, cards)) == |cards|
  {
    var keys := Keys(cards);
    var counts := CountMap(cards);
    SumValuesIn(keys, cards, true);
    JokersInHand(cards);
    CountInWholeHand(keys, cards);
    JokersInOccurrences(keys, cards);
    AddJokersSum(SortDescending(ValuesIn(keys, counts - {Joker})), JokerCount(counts));
  }

  // Comparing hands

  /**
   * The card-by-card comparison over the positions both hands have (what
   * zipping the two hands visits): the first unequal pair decides, and 0 when
   * there is none.
   */
  function CompareCardwise(rules: Rules, a: seq<Card>, b: seq<Card>): (r: int)
    ensures r == -1 || r == 0 || r == 1
  {
    if a == [] || b == [] then 0
    else if CompareCards(rules, a[0], b[0]) != 0 then CompareCards(rules, a[0], b[0])
    else CompareCardwise(rules, a[1..], b[1..])
  }

  /**
   * `compareHands` (Standard) and `compareHandsPart2` (Jokers): -1 when `a` is
   * stronger, 1 when `b` is stronger. The type score decides first; only hands
   * of the same type are compared card by card.
   */
  function HandOrder(rules: Rules, a: seq<Card>, b: seq<Card>): (r: int)
    ensures r == -1 || r == 0 || r == 1
    ensures TypeScore(HandTypeOf(rules, a)) > TypeScore(HandTypeOf(rules, b)) ==> r == -1
    ensures TypeScore(HandTypeOf(rules, a)) < TypeScore(HandTypeOf(rules, b)) ==> r == 1
  {
    var aTypeScore := TypeScore(HandTypeOf(rules, a));
    var bTypeScore := TypeScore(HandTypeOf(rules, b));
    if aTypeScore != bTypeScore then Sign(bTypeScore - aTypeScore)
    else CompareCardwise(rules, a, b)
  }

  /** `identifyType`: count, sort the counts from largest down and read off the type. */
  method IdentifyType(cards: seq<Card>) returns (t: HandType)
    ensures t == HandTypeOf(Standard, cards)
  {
    var countsByType: map<Card, nat> := CountCardsOfEachType(cards);
    var counts := SortDescending(ValuesIn(Keys(cards), countsByType));
    t := TypeOfCounts(counts);
  }

  /** `compareHands`/`compareHandsPart2`: the type scores first, then a loop over the zipped cards that returns at the first difference. */
  method CompareHands(rules: Rules, a: seq<Card>, b: seq<Card>) returns (r: int)
    ensures r == HandOrder(rules, a, b)
  {
    var aType, bType;
    if rules == Standard {
      aType := IdentifyType(a);
      bType := IdentifyType(b);
    } else {
      aType := IdentifyTypePart2(a);
      bType := IdentifyTypePart2(b);
    }
    var aTypeScore: int := TypeScore(aType);
    var bTypeScore: int := TypeScore(bType);
    if aTypeScore != bTypeScore {
      return Sign(bTypeScore - aTypeScore);
    }
    var n := if |a| < |b| then |a| else |b|;
    for i := 0 to n
      invariant CompareCardwise(rules, a, b) == CompareCardwise(rules, a[i..], b[i..])
    {
      var comparison := CompareCards(rules, a[i], b[i]);
      assert a[i..][1..] == a[i + 1..] && b[i..][1..] == b[i + 1..];
      if comparison != 0 {
        return comparison;
      }
    }
    return 0;
  }

  /** Positions before `i` hold equal cards and position `i` differs. */
  predicate FirstDifferenceAt(a: seq<Card>, b: seq<Card>, i: nat) {
    i < |a| && i < |b| && a[..i] == b[..i] && a[i] != b[i]
  }

  lemma {:induction false} CompareCardwiseAtDifference(rules: Rules, a: seq<Card>, b: seq<Card>, i: nat)
    requires FirstDifferenceAt(a, b, i)
    ensures CompareCardwise(rules, a, b) == CompareCards(rules, a[i], b[i])
    decreases i
  {
    if i > 0 {
      assert a[0] == a[..i][0] == b[..i][0] == b[0];
      assert a[1..][..i - 1] == a[..i][1..] && b[1..][..i - 1] == b[..i][1..];
      CompareCardwiseAtDifference(rules, a[1..], b[1..], i - 1);
    }
  }

  /** Between hands of one type, the first position where the cards differ decides. */
  lemma {:induction false} FirstDifferenceDecides(rules: Rules, a: seq<Card>, b: seq<Card>, i: nat)
    requires HandTypeOf(rules, a) == HandTypeOf(rules, b)
    requires FirstDifferenceAt(a, b, i)
    ensures HandOrder(rules, a, b) == CompareCards(rules, a[i], b[i]) != 0
  {
    CompareCardwiseAtDifference(rules, a, b, i);
  }

  lemma {:induction false} CompareCardwiseSelf(rules: Rules, a: seq<Card>)
    ensures CompareCardwise(rules, a, a) == 0
    decreases |a|
  {
    if a != [] {
      CompareCardwiseSelf(rules, a[1..]);
    }
  }

  /** A hand ties with itself. */
  lemma {:induction false} HandOrderSelf(rules: Rules, a: seq<Card>)
    ensures HandOrder(rules, a, a) == 0
  {
    CompareCardwiseSelf(rules, a);
  }

  lemma {:induction false} CompareCardwiseAntisymmetric(rules: Rules, a: seq<Card>, b: seq<Card>)
    ensures CompareCardwise(rules, a, b) == -CompareCardwise(rules, b, a)
    decreases |a|
  {
    if a != [] && b != [] {
      CompareCardwiseAntisymmetric(rules, a[1..], b[1..]);
    }
  }

  /** Swapping the hands flips the verdict. */
  lemma {:induction false} HandOrderAntisymmetric(rules: Rules, a: seq<Card>, b: seq<Card>)
    ensures HandOrder(rules, a, b) == -HandOrder(rules, b, a)
  {
    CompareCardwiseAntisymmetric(rules, a, b);
  }

  lemma {:induction false} CompareCardwiseZero(rules: Rules, a: seq<Card>, b: seq<Card>)
    requires |a| == |b|
    ensures CompareCardwise(rules, a, b) == 0 <==> a == b
    decreases |a|
  {
    if a != [] {
      CompareCardwiseZero(rules, a[1..], b[1..]);
      assert a == [a[0]] + a[1..] && b == [b[0]] + b[1..];
    }
  }

  /** Hands of one length tie exactly when they hold the same cards in the same order. */
  lemma {:induction false} HandOrderZero(rules: Rules, a: seq<Card>, b: seq<Card>)
    requires |a| == |b|
    ensures HandOrder(rules, a, b) == 0 <==> a == b
  {
    CompareCardwiseZero(rules, a, b);
  }

  lemma {:induction false} CompareCardwiseTransitive(rules: Rules, a: seq<Card>, b: seq<Card>, c: seq<Card>)
    requires |a| == |b| == |c|
    requires CompareCardwise(rules, a, b) >= 0 && CompareCardwise(rules, b, c) >= 0
    ensures CompareCardwise(rules, a, c) >= 0
    decreases |a|
  {
    if a != [] && CompareCards(rules, a[0], b[0]) == 0 && CompareCards(rules, b[0], c[0]) == 0 {
      CompareCardwiseTransitive(rules, a[1..], b[1..], c[1..]);
    }
  }

  /** "At most as strong as" is transitive among hands of one length. */
  lemma {:induction false} HandOrderTransitive(rules: Rules, a: seq<Card>, b: seq<Card>, c: seq<Card>)
    requires |a| == |b| == |c|
    requires HandOrder(rules, a, b) >= 0 && HandOrder(rules, b, c) >= 0
    ensures HandOrder(rules, a, c) >= 0
  {
    if TypeScore(HandTypeOf(rules, a)) == TypeScore(HandTypeOf(rules, b)) == TypeScore(HandTypeOf(rules, c)) {
      CompareCardwiseTransitive(rules, a, b, c);
    }
  }

  // The counts do not depend on the order of the keys

  lemma {:induction false} ValuesInConcat(o1: seq<Card>, o2: seq<Card>, m: map<Card, nat>)
    ensures ValuesIn(o1 + o2, m) == ValuesIn(o1, m) + ValuesIn(o2, m)
    decreases |o1|
  {
    if o1 == [] {
      assert o1 + o2 == o2;
    } else {
      assert (o1 + o2)[0] == o1[0] && (o1 + o2)[1..] == o1[1..] + o2;
      ValuesInConcat(o1[1..], o2, m);
    }
  }

  /** Taking the card at position `k` out of a list of distinct cards. */
  lemma {:induction false} RemoveAt(o: seq<Card>, k: nat)
    requires DistinctCards(o) && k < |o|
    ensures DistinctCards(o[..k] + o[k + 1..])
    ensures forall c :: c in o[..k] + o[k + 1..] <==> c in o && c != o[k]
  {
    var rest := o[..k] + o[k + 1..];
    forall i, j | 0 <= i < j < |rest| ensures rest[i] != rest[j] {
      var i' := if i < k then i else i + 1;
      var j' := if j < k then j else j + 1;
      assert rest[i] == o[i'] && rest[j] == o[j'];
    }
    forall c ensures c in rest <==> c in o && c != o[k] {
      if c in rest {
        var i :| 0 <= i < |rest| && rest[i] == c;
        var i' := if i < k then i else i + 1;
        assert rest[i] == o[i'];
      }
      if c in o && c != o[k] {
        var i :| 0 <= i < |o| && o[i] == c;
        if i < k {
          assert rest[i] == c;
        } else {
          assert rest[i - 1] == c;
        }
      }
    }
  }

  /** Listing the card at position `k` last instead gives the same counts, in some order. */
  lemma {:induction false} ValuesInMoveOut(o: seq<Card>, k: nat, m: map<Card, nat>)
    requires k < |o|
    ensures multiset(ValuesIn(o, m)) == multiset(ValuesIn([o[k]], m)) + multiset(ValuesIn(o[..k] + o[k + 1..], m))
  {
    assert o == o[..k] + [o[k]] + o[k + 1..];
    ValuesInConcat(o[..k] + [o[k]], o[k + 1..], m);
    ValuesInConcat(o[..k], [o[k]], m);
    ValuesInConcat(o[..k], o[k + 1..], m);
  }

  lemma {:induction false} HeadIsMember(o: seq<Card>)
    requires o != []
    ensures o[0] in o
  {
  }

  /** Two listings of the same distinct cards give the same counts, in some order. */
  lemma {:induction false} ValuesInPermutation(o1: seq<Card>, o2: seq<Card>, m: map<Card, nat>)
    requires DistinctCards(o1) && DistinctCards(o2)
    requires forall c :: c in o1 <==> c in o2
    ensures multiset(ValuesIn(o1, m)) == multiset(ValuesIn(o2, m))
    decreases |o1|
  {
    if o1 == [] {
      if o2 != [] {
        HeadIsMember(o2);
        assert false;
      }
    } else {
      var x := o1[0];
      assert x in o2;
      var k :| 0 <= k < |o2| && o2[k] == x;
      RemoveAt(o2, k);
      assert o1[..0] + o1[1..] == o1[1..];
      RemoveAt(o1, 0);
      forall c ensures c in o1[1..] <==> c in o2[..k] + o2[k + 1..] {
        assert c in o1[..0] + o1[1..] <==> c in o1 && c != x;
        assert c in o2[..k] + o2[k + 1..] <==> c in o2 && c != x;
      }
      ValuesInPermutation(o1[1..], o2[..k] + o2[k + 1..], m);
      ValuesInMoveOut(o2, k, m);
      ValuesInMoveOut(o1, 0, m);
    }
  }

  /** The head of a descending list is its largest element. */
  lemma {:induction false} SortedHeadIsLargest(a: seq<nat>, x: nat)
    requires SortedDescending(a) && x in multiset(a)
    ensures a != [] && a[0] >= x
  {
    var i :| 0 <= i < |a| && a[i] == x;
  }
  lemma {:induction false} SortedTail(a: seq<nat>)
    requires a != [] && SortedDescending(a)
    ensures SortedDescending(a[1..])
  {
  }
  lemma {:induction false} MultisetTail(a: seq<nat>)
    requires a != []
    ensures multiset(a[1..]) == multiset(a) - multiset{a[0]}
  {
    assert a == [a[0]] + a[1..];
  }
  /** Two descending lists with the same elements are the same list: `sort` has only one possible result. */
  /** Two descending lists with the same elements start with the same element. */
  lemma {:induction false} SortedHeadsAgree(a: seq<nat>, b: seq<nat>)
    requires SortedDescending(a) && SortedDescending(b)
    requires multiset(a) == multiset(b) && a != []
    ensures b != [] && a[0] == b[0]
  {
    assert a[0] in multiset(a);
    SortedHeadIsLargest(b, a[0]);
    SortedHeadIsLargest(a, b[0]);
  }

  lemma {:induction false} SortedDescendingUnique(a: seq<nat>, b: seq<nat>)
    requires SortedDescending(a) && SortedDescending(b)
    requires multiset(a) == multiset(b)
    ensures a == b
    decreases |a|
  {
    if a == [] {
      assert |multiset(b)| == 0;
    } else {
      SortedHeadsAgree(a, b);
      assert a[1..] == b[1..] by {
        MultisetTail(a);
        MultisetTail(b);
        SortedTail(a);
        SortedTail(b);
        SortedDescendingUnique(a[1..], b[1..]);
      }
      assert a == [a[0]] + a[1..] && b == [b[0]] + b[1..];
    }
  }

  /**
   * Reading the counts in any order that lists each card of the hand once
   * gives the same counts lists: the types do not depend on the key order of
   * the counts object.
   */
  lemma {:induction false} CountsListAnyOrder(cards: seq<Card>, order: seq<Card>)
    requires DistinctCards(order)
    requires forall c :: c in order <==> c in cards
    ensures CountsList(Standard, cards) == SortDescending(ValuesIn(order, CountMap(cards)))
    ensures CountsList(Jokers, cards) == WithJokers(order, CountMap(cards))
  {
    StandardCountsAnyOrder(cards, order);
    JokerCountsAnyOrder(cards, order);
  }

  lemma {:induction false} StandardCountsAnyOrder(cards: seq<Card>, order: seq<Card>)
    requires DistinctCards(order)
    requires forall c :: c in order <==> c in cards
    ensures CountsList(Standard, cards) == SortDescending(ValuesIn(order, CountMap(cards)))
  {
    var m := CountMap(cards);
    ValuesInPermutation(Keys(cards), order, m);
    SortedDescendingUnique(SortDescending(ValuesIn(Keys(cards), m)), SortDescending(ValuesIn(order, m)));
  }

  lemma {:induction false} JokerCountsAnyOrder(cards: seq<Card>, order: seq<Card>)
    requires DistinctCards(order)
    requires forall c :: c in order <==> c in cards
    ensures CountsList(Jokers, cards) == WithJokers(order, CountMap(cards))
  {
    var m := CountMap(cards);
    ValuesInPermutation(Keys(cards), order, m - {Joker});
    SortedDescendingUnique(SortDescending(ValuesIn(Keys(cards), m - {Joker})), SortDescending(ValuesIn(order, m - {Joker})));
  }

  /** Sorting a list that is already descending leaves it as it is. */
  lemma {:induction false} SortDescendingSorted(xs: seq<nat>)
    requires SortedDescending(xs)
    ensures SortDescending(xs) == xs
  {
    SortedDescendingUnique(SortDescending(xs), xs);
  }

  // Jokers and the shapes of five-card hands

  /** Adding no jokers changes no type. */
  lemma {:induction false} AddNoJokers(others: seq<nat>)
    ensures TypeOfCounts(AddJokers(others, 0)) == TypeOfCounts(others)
  {
    if others != [] {
      assert AddJokers(others, 0) == others;
    }
  }

  /** Without a `J` in the hand the joker rules type it as the standard rules do. */
  lemma {:induction false} JokerFreeHand(cards: seq<Card>)
    requires Joker !in cards
    ensures TypeOfCounts(CountsList(Jokers, cards)) == TypeOfCounts(CountsList(Standard, cards))
  {
    var m := CountMap(cards);
    var others := SortDescending(ValuesIn(Keys(cards), m));
    assert CountsList(Jokers, cards) == AddJokers(others, 0) by {
      assert m - {Joker} == m;
      assert JokerCount(m) == 0;
    }
    AddNoJokers(others);
  }

  lemma {:induction false} ValuesInNothing(order: seq<Card>)
    ensures ValuesIn(order, map[]) == []
    decreases |order|
  {
    if order != [] {
      ValuesInNothing(order[1..]);
    }
  }

  /** A hand of nothing but jokers has a single count, the whole hand: five jokers are five of a kind. */
  lemma {:induction false} AllJokersHand(cards: seq<Card>)
    requires forall i :: 0 <= i < |cards| ==> cards[i] == Joker
    ensures CountsList(Jokers, cards) == [|cards|]
    ensures |cards| == 5 ==> HandTypeOf(Jokers, cards) == FiveOfAKind
  {
    var m := CountMap(cards);
    assert m - {Joker} == map[];
    ValuesInNothing(Keys(cards));
    CountInWholeHand([Joker], cards);
    assert [Joker][1..] == [];
    if cards != [] {
      assert cards[0] in cards;
    }
  }

  lemma {:induction false} ValuesInPositive(order: seq<Card>, counts: map<Card, nat>)
    requires forall c :: c in counts ==> counts[c] >= 1
    ensures forall i :: 0 <= i < |ValuesIn(order, counts)| ==> ValuesIn(order, counts)[i] >= 1
    decreases |order|
  {
    if order != [] {
      ValuesInPositive(order[1..], counts);
    }
  }

  predicate AllPositive(xs: seq<nat>) {
    forall i :: 0 <= i < |xs| ==> xs[i] >= 1
  }

  lemma {:induction false} SortKeepsPositive(xs: seq<nat>)
    requires AllPositive(xs)
    ensures AllPositive(SortDescending(xs))
  {
    var r := SortDescending(xs);
    forall i | 0 <= i < |r| ensures r[i] >= 1 {
      assert r[i] in multiset(xs);
    }
  }

  lemma {:induction false} SumAtLeastLength(xs: seq<nat>)
    requires AllPositive(xs)
    ensures Sum(xs) >= |xs|
    decreases |xs|
  {
    if xs != [] {
      SumAtLeastLength(xs[1..]);
    }
  }

  /** The ways of writing 5 as a sum of positive counts, largest first. */
  predicate ShapeOfFive(xs: seq<nat>) {
    xs == [5] || xs == [4, 1] || xs == [3, 2] || xs == [3, 1, 1] || xs == [2, 2, 1] || xs == [2, 1, 1, 1] || xs == [1, 1, 1, 1, 1]
  }

  lemma {:induction false} PartitionsOfFive(xs: seq<nat>)
    requires SortedDescending(xs) && AllPositive(xs) && Sum(xs) == 5
    ensures ShapeOfFive(xs)
  {
    SumAtLeastLength(xs);
    assert xs != [];
    var rest := xs[1..];
    SumAtLeastLength(rest);
    assert Sum(rest) == 5 - xs[0];
    if |xs| >= 2 {
      assert rest[0] == xs[1];
      assert Sum(rest) == xs[1] + Sum(rest[1..]);
      SumAtLeastLength(rest[1..]);
    }
    if |xs| >= 3 {
      assert rest[1..][0] == xs[2];
      assert Sum(rest[1..]) == xs[2] + Sum(xs[3..]);
    }
    if |xs| >= 4 {
      assert Sum(xs[3..]) == xs[3] + Sum(xs[4..]);
    }
    if |xs| >= 5 {
      assert Sum(xs[4..]) == xs[4] + Sum(xs[5..]);
    }
  }

  /** Adding the jokers to the largest count keeps the list descending, and positive when it adds up to something. */
  lemma {:induction false} AddJokersKeepsOrder(others: seq<nat>, jCount: nat)
    requires SortedDescending(others) && AllPositive(others)
    requires Sum(AddJokers(others, jCount)) >= 1
    ensures SortedDescending(AddJokers(others, jCount)) && AllPositive(AddJokers(others, jCount))
  {
    if others == [] {
      assert Sum([jCount]) == jCount;
    }
  }

  /** The counts of a five-card hand always make one of the seven shapes, under either rules. */
  lemma {:induction false} FiveCardShapes(rules: Rules, cards: seq<Card>)
    requires |cards| == 5
    ensures ShapeOfFive(CountsList(rules, cards))
  {
    var m := CountMap(cards);
    if rules == Standard {
      CountsSumToHandSize(cards);
      ValuesInPositive(Keys(cards), m);
      SortKeepsPositive(ValuesIn(Keys(cards), m));
      PartitionsOfFive(CountsList(Standard, cards));
    } else {
      JokerCountsSumToHandSize(cards);
      ValuesInPositive(Keys(cards), m - {Joker});
      var others := SortDescending(ValuesIn(Keys(cards), m - {Joker}));
      SortKeepsPositive(ValuesIn(Keys(cards), m - {Joker}));
      AddJokersKeepsOrder(others, JokerCount(m));
      PartitionsOfFive(CountsList(Jokers, cards));
    }
  }

  /**
   * `identifyTypeUsingCountsList` on a five-card hand: each type is exactly one
   * shape of the counts (five of a kind is 5; four of a kind 4+1; a full house
   * 3+2; three of a kind 3+1+1; two pair 2+2+1; one pair 2+1+1+1; high card
   * five singles).
   */
  lemma {:induction false} FiveCardTypes(rules: Rules, cards: seq<Card>)
    requires |cards| == 5
    ensures HandTypeOf(rules, cards) == FiveOfAKind <==> CountsList(rules, cards) == [5]
    ensures HandTypeOf(rules, cards) == FourOfAKind <==> CountsList(rules, cards) == [4, 1]
    ensures HandTypeOf(rules, cards) == FullHouse <==> CountsList(rules, cards) == [3, 2]
    ensures HandTypeOf(rules, cards) == ThreeOfAKind <==> CountsList(rules, cards) == [3, 1, 1]
    ensures HandTypeOf(rules, cards) == TwoPair <==> CountsList(rules, cards) == [2, 2, 1]
    ensures HandTypeOf(rules, cards) == OnePair <==> CountsList(rules, cards) == [2, 1, 1, 1]
    ensures HandTypeOf(rules, cards) == HighCard <==> CountsList(rules, cards) == [1, 1, 1, 1, 1]
  {
    FiveCardShapes(rules, cards);
    ShapeTypes(CountsList(rules, cards));
  }

  lemma {:induction false} ShapeTypes(xs: seq<nat>)
    requires ShapeOfFive(xs)
    ensures TypeOfCounts(xs) == FiveOfAKind <==> xs == [5]
    ensures TypeOfCounts(xs) == FourOfAKind <==> xs == [4, 1]
    ensures TypeOfCounts(xs) == FullHouse <==> xs == [3, 2]
    ensures TypeOfCounts(xs) == ThreeOfAKind <==> xs == [3, 1, 1]
    ensures TypeOfCounts(xs) == TwoPair <==> xs == [2, 2, 1]
    ensures TypeOfCounts(xs) == OnePair <==> xs == [2, 1, 1, 1]
    ensures TypeOfCounts(xs) == HighCard <==> xs == [1, 1, 1, 1, 1]
  {
  }

  // Ranking the hands and the winnings

  datatype Hand = Hand(cards: seq<Card>, bid: int)

  /** Every hand has the same number of cards (five, in the puzzle input). */
  predicate SameSize(hands: seq<Hand>) {
    forall a, b :: a in hands && b in hands ==> |a.cards| == |b.cards|
  }

  // A comparator in the sense of `Array.prototype.toSorted`: negative puts its first argument first.

  predicate Antisymmetric<T(==,!new)>(cmp: (T, T) -> int, s: seq<T>) {
    forall a, b :: a in s && b in s ==> cmp(a, b) == -cmp(b, a)
  }

  predicate Transitive<T(==,!new)>(cmp: (T, T) -> int, s: seq<T>) {
    forall a, b, c :: a in s && b in s && c in s && cmp(a, b) <= 0 && cmp(b, c) <= 0 ==> cmp(a, c) <= 0
  }

  /** No element is placed after one that the comparator wants after it. */
  predicate Ordered<T>(cmp: (T, T) -> int, s: seq<T>) {
    forall i, j :: 0 <= i < j < |s| ==> cmp(s[i], s[j]) <= 0
  }

  /** A comparator consistent on a list is consistent on any list of its elements. */
  lemma {:induction false} ConsistentOnPart<T(!new)>(cmp: (T, T) -> int, s: seq<T>, t: seq<T>)
    requires Antisymmetric(cmp, s) && Transitive(cmp, s)
    requires forall y :: y in t ==> y in s
    ensures Antisymmetric(cmp, t) && Transitive(cmp, t)
  {
  }

  /** Places `x` before the first element it does not have to follow. */
  function InsertBy<T(==,!new)>(cmp: (T, T) -> int, x: T, sorted: seq<T>): (r: seq<T>)
    ensures multiset(r) == multiset(sorted) + multiset{x} && |r| == |sorted| + 1
  {
    if sorted == [] || cmp(x, sorted[0]) <= 0 then
      [x] + sorted
    else
      assert sorted == [sorted[0]] + sorted[1..];
      [sorted[0]] + InsertBy(cmp, x, sorted[1..])
  }

  lemma {:induction false} InsertedInFront<T(!new)>(cmp: (T, T) -> int, x: T, sorted: seq<T>)
    requires Antisymmetric(cmp, [x] + sorted) && Transitive(cmp, [x] + sorted)
    requires Ordered(cmp, sorted)
    requires sorted == [] || cmp(x, sorted[0]) <= 0
    ensures Ordered(cmp, [x] + sorted)
  {
    var r := [x] + sorted;
    forall i, j | 0 <= i < j < |r| ensures cmp(r[i], r[j]) <= 0 {
      if i == 0 && j > 1 {
        assert r[j] == sorted[j - 1] && r[1] == sorted[0];
        assert x in r && sorted[0] in r && sorted[j - 1] in r;
      }
    }
  }

  lemma {:induction false} InsertedBehind<T(!new)>(cmp: (T, T) -> int, x: T, sorted: seq<T>, tail: seq<T>)
    requires Antisymmetric(cmp, [x] + sorted)
    requires Ordered(cmp, sorted) && sorted != [] && cmp(x, sorted[0]) > 0
    requires multiset(tail) == multiset(sorted[1..]) + multiset{x} && Ordered(cmp, tail)
    ensures Ordered(cmp, [sorted[0]] + tail)
  {
    assert x in [x] + sorted && sorted[0] in [x] + sorted;
    var r := [sorted[0]] + tail;
    forall j | 0 < j < |r| ensures cmp(r[0], r[j]) <= 0 {
      assert r[j] == tail[j - 1];
      assert r[j] in multiset(tail);
      if r[j] != x {
        var k :| 0 <= k < |sorted[1..]| && sorted[1..][k] == r[j];
        assert sorted[k + 1] == r[j];
      }
    }
    forall i, j | 0 < i < j < |r| ensures cmp(r[i], r[j]) <= 0 {
      assert r[i] == tail[i - 1] && r[j] == tail[j - 1];
    }
  }

  lemma {:induction false} InsertByOrdered<T(!new)>(cmp: (T, T) -> int, x: T, sorted: seq<T>)
    requires Antisymmetric(cmp, [x] + sorted) && Transitive(cmp, [x] + sorted)
    requires Ordered(cmp, sorted)
    ensures Ordered(cmp, InsertBy(cmp, x, sorted))
    decreases |sorted|
  {
    if sorted == [] || cmp(x, sorted[0]) <= 0 {
      InsertedInFront(cmp, x, sorted);
    } else {
      assert forall y :: y in [x] + sorted[1..] ==> y in [x] + sorted;
      ConsistentOnPart(cmp, [x] + sorted, [x] + sorted[1..]);
      InsertByOrdered(cmp, x, sorted[1..]);
      InsertedBehind(cmp, x, sorted, InsertBy(cmp, x, sorted[1..]));
    }
  }

  /** `toSorted(cmp)` as a stable insertion sort: each element goes in front of the first later one it does not have to follow. */
  function SortBy<T(==,!new)>(cmp: (T, T) -> int, s: seq<T>): (r: seq<T>)
    ensures multiset(r) == multiset(s) && |r| == |s|
  {
    if s == [] then []
    else
      assert s == [s[0]] + s[1..];
      InsertBy(cmp, s[0], SortBy(cmp, s[1..]))
  }

  lemma {:induction false} SortByOrdered<T(!new)>(cmp: (T, T) -> int, s: seq<T>)
    requires Antisymmetric(cmp, s) && Transitive(cmp, s)
    ensures Ordered(cmp, SortBy(cmp, s))
    decreases |s|
  {
    if s != [] {
      var sortedTail := SortBy(cmp, s[1..]);
      assert s == [s[0]] + s[1..];
      ConsistentOnPart(cmp, s, s[1..]);
      SortByOrdered(cmp, s[1..]);
      forall y | y in [s[0]] + sortedTail ensures y in s {
        assert y in multiset([s[0]] + sortedTail);
      }
      ConsistentOnPart(cmp, s, [s[0]] + sortedTail);
      InsertByOrdered(cmp, s[0], sortedTail);
    }
  }

  /** `-compareHands(a.cards, b.cards)` (or its part 2 form): the weaker hand goes first. */
  function ByStrength(rules: Rules): (Hand, Hand) -> int {
    (a: Hand, b: Hand) => -HandOrder(rules, a.cards, b.cards)
  }

  /** On hands of one size the hand comparison is a consistent comparator. */
  lemma {:induction false} ByStrengthConsistent(rules: Rules, hands: seq<Hand>)
    requires SameSize(hands)
    ensures Antisymmetric(ByStrength(rules), hands) && Transitive(ByStrength(rules), hands)
  {
    var cmp := ByStrength(rules);
    forall a, b | a in hands && b in hands ensures cmp(a, b) == -cmp(b, a) {
      HandOrderAntisymmetric(rules, a.cards, b.cards);
    }
    forall a, b, c | a in hands && b in hands && c in hands && cmp(a, b) <= 0 && cmp(b, c) <= 0 ensures cmp(a, c) <= 0 {
      HandOrderTransitive(rules, a.cards, b.cards, c.cards);
    }
  }

  lemma {:induction false} SortHandsOrdered(rules: Rules, hands: seq<Hand>)
    ensures SameSize(hands) ==> Ordered(ByStrength(rules), SortBy(ByStrength(rules), hands))
  {
    if SameSize(hands) {
      ByStrengthConsistent(rules, hands);
      SortByOrdered(ByStrength(rules), hands);
    }
  }

  /** The hands holding exactly the cards `c`, in their order in `hands`. */
  function WithCards(hands: seq<Hand>, c: seq<Card>): seq<Hand> {
    if hands == [] then [] else (if hands[0].cards == c then [hands[0]] else []) + WithCards(hands[1..], c)
  }

  lemma {:induction false} WithCardsCons(h: Hand, rest: seq<Hand>, c: seq<Card>)
    ensures WithCards([h] + rest, c) == (if h.cards == c then [h] else []) + WithCards(rest, c)
  {
    assert ([h] + rest)[1..] == rest;
  }

  /** The comparator never puts a hand after another holding the same cards. */
  ghost predicate KeepsEqualCards(cmp: (Hand, Hand) -> int) {
    forall x: Hand, y: Hand :: x.cards == y.cards ==> cmp(x, y) <= 0
  }

  lemma {:induction false} ByStrengthKeepsEqualCards(rules: Rules)
    ensures KeepsEqualCards(ByStrength(rules))
  {
    forall x: Hand, y: Hand | x.cards == y.cards ensures ByStrength(rules)(x, y) <= 0 {
      HandOrderSelf(rules, x.cards);
    }
  }

  /** Inserting a hand never carries it past a hand holding the same cards. */
  lemma {:induction false} InsertByStable(cmp: (Hand, Hand) -> int, x: Hand, sorted: seq<Hand>, c: seq<Card>)
    requires KeepsEqualCards(cmp)
    ensures WithCards(InsertBy(cmp, x, sorted), c) == WithCards([x] + sorted, c)
    decreases |sorted|
  {
    if sorted != [] && cmp(x, sorted[0]) > 0 {
      var rest := InsertBy(cmp, x, sorted[1..]);
      assert InsertBy(cmp, x, sorted) == [sorted[0]] + rest;
      InsertByStable(cmp, x, sorted[1..], c);
      assert sorted == [sorted[0]] + sorted[1..];
      PassDifferentCards(x, sorted[0], rest, sorted[1..], c);
    }
  }

  /** A hand placed past one holding other cards leaves every card string's hands in the same order. */
  lemma {:induction false} PassDifferentCards(x: Hand, y: Hand, rest: seq<Hand>, tail: seq<Hand>, c: seq<Card>)
    requires x.cards != y.cards && WithCards(rest, c) == WithCards([x] + tail, c)
    ensures WithCards([y] + rest, c) == WithCards([x] + ([y] + tail), c)
  {
    WithCardsCons(y, rest, c);
    WithCardsCons(x, tail, c);
    WithCardsCons(x, [y] + tail, c);
    WithCardsCons(y, tail, c);
  }

  /** The sort keeps the hands holding the same cards in their input order. */
  lemma {:induction false} SortByStable(cmp: (Hand, Hand) -> int, s: seq<Hand>, c: seq<Card>)
    requires KeepsEqualCards(cmp)
    ensures WithCards(SortBy(cmp, s), c) == WithCards(s, c)
    decreases |s|
  {
    if s != [] {
      SortByStable(cmp, s[1..], c);
      InsertByStable(cmp, s[0], SortBy(cmp, s[1..]), c);
      WithCardsCons(s[0], SortBy(cmp, s[1..]), c);
      WithCardsCons(s[0], s[1..], c);
      assert s == [s[0]] + s[1..];
    }
  }

  lemma {:induction false} SortHandsStable(rules: Rules, hands: seq<Hand>)
    ensures forall c :: WithCards(SortBy(ByStrength(rules), hands), c) == WithCards(hands, c)
  {
    ByStrengthKeepsEqualCards(rules);
    forall c ensures WithCards(SortBy(ByStrength(rules), hands), c) == WithCards(hands, c) {
      SortByStable(ByStrength(rules), hands, c);
    }
  }

  /**
   * The hands ranked weakest first; `toSorted` is stable, so hands holding the
   * same cards keep their input order.
   */
  function SortHands(rules: Rules, hands: seq<Hand>): (r: seq<Hand>)
    ensures multiset(r) == multiset(hands) && |r| == |hands|
    ensures SameSize(hands) ==> forall i, j :: 0 <= i < j < |r| ==> HandOrder(rules, r[i].cards, r[j].cards) >= 0
    ensures forall c :: WithCards(r, c) == WithCards(hands, c)
  {
    SortHandsOrdered(rules, hands);
    SortHandsStable(rules, hands);
    SortBy(ByStrength(rules), hands)
  }

  /** The winnings of hands listed weakest first: the hand at rank `rank` wins `rank` times its bid. */
  function WinningsFrom(hands: seq<Hand>, rank: int): int {
    if hands == [] then 0 else rank * hands[0].bid + WinningsFrom(hands[1..], rank + 1)
  }

  /** `handWinnings.reduce(+)`: the sum of `(index + 1) * bid`. */
  function Winnings(hands: seq<Hand>): (w: int)
    ensures w == RankTimesBid(hands)
  {
    WinningsFromFirstRank(hands);
    WinningsFrom(hands, 1)
  }

  /** The sum of `(index + 1) * bid` over the list, added up from the last hand back. */
  function RankTimesBid(hands: seq<Hand>): int {
    if hands == [] then 0 else RankTimesBid(hands[..|hands| - 1]) + |hands| * hands[|hands| - 1].bid
  }

  lemma {:induction false} WinningsFromFirstRank(hands: seq<Hand>)
    ensures WinningsFrom(hands, 1) == RankTimesBid(hands)
    decreases |hands|
  {
    if hands != [] {
      var init := hands[..|hands| - 1];
      WinningsFromFirstRank(init);
      WinningsFromAppend(init, 1, hands[|hands| - 1]);
      assert init + [hands[|hands| - 1]] == hands;
    }
  }

  /** One more hand at the top ranks above all the others and wins its bid times the new count. */
  lemma {:induction false} WinningsFromAppend(hands: seq<Hand>, rank: int, h: Hand)
    ensures WinningsFrom(hands + [h], rank) == WinningsFrom(hands, rank) + (rank + |hands|) * h.bid
    decreases |hands|
  {
    if hands == [] {
      assert hands + [h] == [h];
    } else {
      assert (hands + [h])[1..] == hands[1..] + [h];
      WinningsFromAppend(hands[1..], rank + 1, h);
    }
  }

  lemma {:induction false} WinningsAppend(hands: seq<Hand>, h: Hand)
    ensures Winnings(hands + [h]) == Winnings(hands) + (|hands| + 1) * h.bid
  {
    WinningsFromAppend(hands, 1, h);
  }

  /**
   * A ranking of `hands`: the same hands, weakest first, with hands holding
   * the same cards in their input order.
   */
  ghost predicate IsRanking(rules: Rules, hands: seq<Hand>, r: seq<Hand>) {
    multiset(r) == multiset(hands) && WeakestFirst(rules, r) && forall c :: WithCards(r, c) == WithCards(hands, c)
  }

  /** No hand is listed after a stronger one. */
  ghost predicate WeakestFirst(rules: Rules, s: seq<Hand>) {
    forall i, j :: 0 <= i < j < |s| ==> HandOrder(rules, s[i].cards, s[j].cards) >= 0
  }

  /**
   * `part1` (Standard) and `part2` (Jokers): rank the hands weakest first and
   * total the winnings. On hands of one size there is exactly one ranking, and
   * the answer is its winnings.
   */
  function TotalWinnings(rules: Rules, hands: seq<Hand>): (total: int)
    ensures SameSize(hands) ==> exists r :: IsRanking(rules, hands, r) && total == Winnings(r)
    ensures SameSize(hands) ==> forall r :: IsRanking(rules, hands, r) ==> total == Winnings(r)
  {
    RankingsAgree(rules, hands);
    Winnings(SortHands(rules, hands))
  }

  /** Two lists of the same hands, weakest first, that keep each card string's hands in one order are the same list. */
  lemma {:induction false} StableOrderUnique(rules: Rules, a: seq<Hand>, b: seq<Hand>)
    requires SameSize(a) && multiset(a) == multiset(b)
    requires WeakestFirst(rules, a) && WeakestFirst(rules, b)
    requires forall c :: WithCards(a, c) == WithCards(b, c)
    ensures a == b
    decreases |a|
  {
    if a != [] {
      assert a[0] in multiset(b) && b[0] in multiset(a);
      HeadTie(rules, a, b);
      HeadSameCards(a, b);
      TailMultiset(a, b);
      TailWeakestFirst(rules, a);
      TailWeakestFirst(rules, b);
      forall c ensures WithCards(a[1..], c) == WithCards(b[1..], c) {
        TailWithCards(a, b, c);
      }
      TailSameSize(a);
      StableOrderUnique(rules, a[1..], b[1..]);
      assert a == [a[0]] + a[1..] && b == [b[0]] + b[1..];
    }
  }

  /** The first hands of two such lists tie, so they hold the same cards. */
  lemma {:induction false} HeadTie(rules: Rules, a: seq<Hand>, b: seq<Hand>)
    requires SameSize(a) && a != [] && b != [] && a[0] in b && b[0] in a
    requires WeakestFirst(rules, a) && WeakestFirst(rules, b)
    ensures a[0].cards == b[0].cards
  {
    var k :| 0 <= k < |a| && a[k] == b[0];
    var m :| 0 <= m < |b| && b[m] == a[0];
    if k != 0 && m != 0 {
      assert HandOrder(rules, a[0].cards, a[k].cards) >= 0;
      assert HandOrder(rules, b[0].cards, b[m].cards) >= 0;
      HandOrderAntisymmetric(rules, a[0].cards, b[0].cards);
      HandOrderZero(rules, a[0].cards, b[0].cards);
    }
  }

  /** Of the hands holding the first hand's cards, the first one is that hand in both lists. */
  lemma {:induction false} HeadSameCards(a: seq<Hand>, b: seq<Hand>)
    requires a != [] && b != [] && a[0].cards == b[0].cards
    requires WithCards(a, a[0].cards) == WithCards(b, a[0].cards)
    ensures a[0] == b[0]
  {
    WithCardsCons(a[0], a[1..], a[0].cards);
    WithCardsCons(b[0], b[1..], a[0].cards);
    assert a == [a[0]] + a[1..] && b == [b[0]] + b[1..];
    assert WithCards(a, a[0].cards)[0] == a[0] && WithCards(b, a[0].cards)[0] == b[0];
  }

  lemma {:induction false} TailWithCards(a: seq<Hand>, b: seq<Hand>, c: seq<Card>)
    requires a != [] && b != [] && a[0] == b[0] && WithCards(a, c) == WithCards(b, c)
    ensures WithCards(a[1..], c) == WithCards(b[1..], c)
  {
    WithCardsCons(a[0], a[1..], c);
    WithCardsCons(b[0], b[1..], c);
    assert a == [a[0]] + a[1..] && b == [b[0]] + b[1..];
    var n := if a[0].cards == c then 1 else 0;
    assert WithCards(a[1..], c) == WithCards(a, c)[n..];
    assert WithCards(b[1..], c) == WithCards(b, c)[n..];
  }

  lemma {:induction false} TailWeakestFirst(rules: Rules, s: seq<Hand>)
    requires WeakestFirst(rules, s) && s != []
    ensures WeakestFirst(rules, s[1..])
  {
    forall i, j | 0 <= i < j < |s| - 1 ensures HandOrder(rules, s[1..][i].cards, s[1..][j].cards) >= 0 {
      assert s[1..][i] == s[i + 1] && s[1..][j] == s[j + 1];
    }
  }

  lemma {:induction false} TailSameSize(s: seq<Hand>)
    requires SameSize(s) && s != []
    ensures SameSize(s[1..])
  {
    forall x, y | x in s[1..] && y in s[1..] ensures |x.cards| == |y.cards| {
      assert x in s && y in s;
    }
  }

  /** Two hands holding the same cards keep their input order: the later one takes the higher rank. */
  lemma {:induction false} TiesKeepInputOrder(rules: Rules, first: Hand, second: Hand)
    requires first.cards == second.cards
    ensures TotalWinnings(rules, [first, second]) == first.bid + 2 * second.bid
  {
    var hands := [first, second];
    TieIsRanking(rules, first, second);
    RankingUnique(rules, hands, hands);
    WinningsOfTwo(first, second);
  }

  lemma {:induction false} TieIsRanking(rules: Rules, first: Hand, second: Hand)
    requires first.cards == second.cards
    ensures SameSize([first, second]) && IsRanking(rules, [first, second], [first, second])
  {
    var s := [first, second];
    HandOrderSelf(rules, first.cards);
    assert WeakestFirst(rules, s) by {
      forall i, j | 0 <= i < j < |s| ensures HandOrder(rules, s[i].cards, s[j].cards) >= 0 {
        assert i == 0 && j == 1;
      }
    }
    assert SameSize(s) by {
      forall a, b | a in s && b in s ensures |a.cards| == |b.cards| {
      }
    }
  }

  lemma {:induction false} WinningsOfTwo(first: Hand, second: Hand)
    ensures Winnings([first, second]) == first.bid + 2 * second.bid
  {
    assert [first, second][1..] == [second] && [second][1..] == [];
    assert WinningsFrom([second], 2) == 2 * second.bid + WinningsFrom([], 3);
  }

  /** Any ranking of hands of one size is the one the sort produces. */
  lemma {:induction false} RankingUnique(rules: Rules, hands: seq<Hand>, r: seq<Hand>)
    requires SameSize(hands) && IsRanking(rules, hands, r)
    ensures SortHands(rules, hands) == r
  {
    forall x, y | x in r && y in r ensures |x.cards| == |y.cards| {
      assert x in multiset(r) && y in multiset(r);
    }
    StableOrderUnique(rules, r, SortHands(rules, hands));
  }

  lemma {:induction false} RankingsAgree(rules: Rules, hands: seq<Hand>)
    ensures SameSize(hands) ==> IsRanking(rules, hands, SortHands(rules, hands))
    ensures forall r :: SameSize(hands) && IsRanking(rules, hands, r) ==> SortHands(rules, hands) == r
  {
    forall r | SameSize(hands) && IsRanking(rules, hands, r) ensures SortHands(rules, hands) == r {
      RankingUnique(rules, hands, r);
    }
  }

  // The worked example

  lemma {:induction false} ValuesInCons(c: Card, rest: seq<Card>, m: map<Card, nat>)
    ensures ValuesIn([c] + rest, m) == (if c in m then [m[c]] else []) + ValuesIn(rest, m)
  {
    assert ([c] + rest)[1..] == rest;
  }

  /** The counts read in a chosen order fix the standard counts list when they come out largest first. */
  lemma {:induction false} StandardCountsFrom(cards: seq<Card>, order: seq<Card>, xs: seq<nat>)
    requires DistinctCards(order) && (forall c :: c in order <==> c in cards)
    requires ValuesIn(order, CountMap(cards)) == xs && SortedDescending(xs)
    ensures CountsList(Standard, cards) == xs
  {
    CountsListAnyOrder(cards, order);
    SortDescendingSorted(xs);
  }

  lemma {:induction false} ValuesInFour(a: Card, b: Card, c: Card, d: Card, m: map<Card, nat>)
    requires a in m && b in m && c in m && d in m
    ensures ValuesIn([a, b, c, d], m) == [m[a], m[b], m[c], m[d]]
  {
    ValuesInCons(d, [], m);
    ValuesInCons(c, [d], m);
    ValuesInCons(b, [c, d], m);
    ValuesInCons(a, [b, c, d], m);
  }

  lemma {:induction false} CountOf(cards: seq<Card>, c: Card, n: nat)
    requires multiset(cards)[c] == n >= 1
    ensures c in CountMap(cards) && CountMap(cards)[c] == n
  {
  }

  /** Likewise for the joker rules: the counts of the other cards, largest first, take the jokers. */
  lemma {:induction false} JokerCountsFrom(cards: seq<Card>, order: seq<Card>, ys: seq<nat>, jCount: nat)
    requires DistinctCards(order) && (forall c :: c in order <==> c in cards)
    requires ValuesIn(order, CountMap(cards) - {Joker}) == ys && SortedDescending(ys)
    requires JokerCount(CountMap(cards)) == jCount
    ensures CountsList(Jokers, cards) == AddJokers(ys, jCount)
  {
    CountsListAnyOrder(cards, order);
    SortDescendingSorted(ys);
  }

  lemma {:induction false} ValuesInThree(a: Card, b: Card, c: Card, m: map<Card, nat>)
    ensures ValuesIn([a, b, c], m) == (if a in m then [m[a]] else []) + (if b in m then [m[b]] else []) + (if c in m then [m[c]] else [])
  {
    ValuesInCons(c, [], m);
    ValuesInCons(b, [c], m);
    ValuesInCons(a, [b, c], m);
  }

  lemma {:induction false} ExampleCounts1(cards: seq<Card>)
    requires cards == ['3', '2', 'T', '3', 'K']
    ensures multiset(cards)['3'] == 2 && multiset(cards)['2'] == 1 && multiset(cards)['T'] == 1 && multiset(cards)['K'] == 1
  {
  }

  lemma {:induction false} ExampleOrder1(cards: seq<Card>, order: seq<Card>)
    requires cards == ['3', '2', 'T', '3', 'K'] && order == ['3', '2', 'T', 'K']
    ensures DistinctCards(order) && (forall c :: c in order <==> c in cards) && Joker !in cards
  {
  }

  /** `32T3K` is one pair under both rules. */
  lemma {:induction false} ExampleHand1(cards: seq<Card>)
    requires cards == ['3', '2', 'T', '3', 'K']
    ensures HandTypeOf(Standard, cards) == OnePair && HandTypeOf(Jokers, cards) == OnePair
  {
    ExampleCounts1(cards);
    CountOf(cards, '3', 2);
    CountOf(cards, '2', 1);
    CountOf(cards, 'T', 1);
    CountOf(cards, 'K', 1);
    ExampleOrder1(cards, ['3', '2', 'T', 'K']);
    ValuesInFour('3', '2', 'T', 'K', CountMap(cards));
    StandardCountsFrom(cards, ['3', '2', 'T', 'K'], [2, 1, 1, 1]);
    ShapeTypes(CountsList(Standard, cards));
    JokerFreeHand(cards);
  }
  lemma {:induction false} ExampleCounts2(cards: seq<Card>)
    requires cards == ['T', '5', '5', 'J', '5']
    ensures multiset(cards)['5'] == 3 && multiset(cards)['T'] == 1 && multiset(cards)['J'] == 1
  {
  }

  lemma {:induction false} ExampleOrder2(cards: seq<Card>, order: seq<Card>)
    requires cards == ['T', '5', '5', 'J', '5'] && order == ['5', 'T', 'J']
    ensures DistinctCards(order) && (forall c :: c in order <==> c in cards)
  {
  }

  /** `T55J5` is three of a kind, and four of a kind with the joker. */
  lemma {:induction false} ExampleStandard2(cards: seq<Card>)
    requires cards == ['T', '5', '5', 'J', '5']
    ensures HandTypeOf(Standard, cards) == ThreeOfAKind
  {
    ExampleCounts2(cards);
    CountOf(cards, '5', 3);
    CountOf(cards, 'T', 1);
    CountOf(cards, 'J', 1);
    ExampleOrder2(cards, ['5', 'T', 'J']);
    ValuesInThree('5', 'T', 'J', CountMap(cards));
    StandardCountsFrom(cards, ['5', 'T', 'J'], [3, 1, 1]);
    ShapeTypes(CountsList(Standard, cards));
  }

  lemma {:induction false} ExampleJokers2Others(cards: seq<Card>)
    requires multiset(cards)['5'] == 3 && multiset(cards)['T'] == 1 && multiset(cards)['J'] == 1
    requires DistinctCards(['5', 'T', 'J']) && (forall c :: c in ['5', 'T', 'J'] <==> c in cards)
    ensures ValuesIn(['5', 'T', 'J'], CountMap(cards) - {Joker}) == [3, 1]
  {
    CountOf(cards, '5', 3);
    CountOf(cards, 'T', 1);
    ValuesInThree('5', 'T', 'J', CountMap(cards) - {Joker});
  }

  lemma {:induction false} ExampleJokers2Count(cards: seq<Card>)
    requires multiset(cards)['5'] == 3 && multiset(cards)['T'] == 1 && multiset(cards)['J'] == 1
    requires DistinctCards(['5', 'T', 'J']) && (forall c :: c in ['5', 'T', 'J'] <==> c in cards)
    ensures JokerCount(CountMap(cards)) == 1
  {
    CountOf(cards, 'J', 1);
  }

  lemma {:induction false} ExampleJokers2(cards: seq<Card>)
    requires multiset(cards)['5'] == 3 && multiset(cards)['T'] == 1 && multiset(cards)['J'] == 1
    requires DistinctCards(['5', 'T', 'J']) && (forall c :: c in ['5', 'T', 'J'] <==> c in cards)
    ensures HandTypeOf(Jokers, cards) == FourOfAKind
  {
    ExampleJokers2Others(cards);
    ExampleJokers2Count(cards);
    JokerCountsFrom(cards, ['5', 'T', 'J'], [3, 1], 1);
    assert CountsList(Jokers, cards) == [4, 1];
    ShapeTypes(CountsList(Jokers, cards));
  }

  lemma {:induction false} ExampleHand2(cards: seq<Card>)
    requires cards == ['T', '5', '5', 'J', '5']
    ensures HandTypeOf(Standard, cards) == ThreeOfAKind && HandTypeOf(Jokers, cards) == FourOfAKind
  {
    ExampleStandard2(cards);
    ExampleCounts2(cards);
    ExampleOrder2(cards, ['5', 'T', 'J']);
    ExampleJokers2(cards);
  }

  lemma {:induction false} ExampleCounts3(cards: seq<Card>)
    requires cards == ['K', 'K', '6', '7', '7']
    ensures multiset(cards)['K'] == 2 && multiset(cards)['7'] == 2 && multiset(cards)['6'] == 1
  {
  }

  lemma {:induction false} ExampleOrder3(cards: seq<Card>, order: seq<Card>)
    requires cards == ['K', 'K', '6', '7', '7'] && order == ['K', '7', '6']
    ensures DistinctCards(order) && (forall c :: c in order <==> c in cards) && Joker !in cards
  {
  }

  /** `KK677` is two pair under both rules. */
  lemma {:induction false} ExampleHand3(cards: seq<Card>)
    requires cards == ['K', 'K', '6', '7', '7']
    ensures HandTypeOf(Standard, cards) == TwoPair && HandTypeOf(Jokers, cards) == TwoPair
  {
    ExampleCounts3(cards);
    CountOf(cards, 'K', 2);
    CountOf(cards, '7', 2);
    CountOf(cards, '6', 1);
    ExampleOrder3(cards, ['K', '7', '6']);
    ValuesInThree('K', '7', '6', CountMap(cards));
    StandardCountsFrom(cards, ['K', '7', '6'], [2, 2, 1]);
    ShapeTypes(CountsList(Standard, cards));
    JokerFreeHand(cards);
  }

  lemma {:induction false} ExampleCounts4(cards: seq<Card>)
    requires cards == ['K', 'T', 'J', 'J', 'T']
    ensures multiset(cards)['T'] == 2 && multiset(cards)['J'] == 2 && multiset(cards)['K'] == 1
  {
  }

  lemma {:induction false} ExampleOrder4(cards: seq<Card>, order: seq<Card>)
    requires cards == ['K', 'T', 'J', 'J', 'T'] && order == ['T', 'J', 'K']
    ensures DistinctCards(order) && (forall c :: c in order <==> c in cards)
  {
  }

  /** `KTJJT` is two pair, and four of a kind with the jokers. */
  lemma {:induction false} ExampleStandard4(cards: seq<Card>)
    requires cards == ['K', 'T', 'J', 'J', 'T']
    ensures HandTypeOf(Standard, cards) == TwoPair
  {
    ExampleCounts4(cards);
    CountOf(cards, 'T', 2);
    CountOf(cards, 'J', 2);
    CountOf(cards, 'K', 1);
    ExampleOrder4(cards, ['T', 'J', 'K']);
    ValuesInThree('T', 'J', 'K', CountMap(cards));
    StandardCountsFrom(cards, ['T', 'J', 'K'], [2, 2, 1]);
    ShapeTypes(CountsList(Standard, cards));
  }

  lemma {:induction false} ExampleJokers4Others(cards: seq<Card>)
    requires multiset(cards)['T'] == 2 && multiset(cards)['J'] == 2 && multiset(cards)['K'] == 1
    requires DistinctCards(['T', 'J', 'K']) && (forall c :: c in ['T', 'J', 'K'] <==> c in cards)
    ensures ValuesIn(['T', 'J', 'K'], CountMap(cards) - {Joker}) == [2, 1]
  {
    CountOf(cards, 'T', 2);
    CountOf(cards, 'K', 1);
    ValuesInThree('T', 'J', 'K', CountMap(cards) - {Joker});
  }

  lemma {:induction false} ExampleJokers4Count(cards: seq<Card>)
    requires multiset(cards)['T'] == 2 && multiset(cards)['J'] == 2 && multiset(cards)['K'] == 1
    requires DistinctCards(['T', 'J', 'K']) && (forall c :: c in ['T', 'J', 'K'] <==> c in cards)
    ensures JokerCount(CountMap(cards)) == 2
  {
    CountOf(cards, 'J', 2);
  }

  lemma {:induction false} ExampleJokers4(cards: seq<Card>)
    requires multiset(cards)['T'] == 2 && multiset(cards)['J'] == 2 && multiset(cards)['K'] == 1
    requires DistinctCards(['T', 'J', 'K']) && (forall c :: c in ['T', 'J', 'K'] <==> c in cards)
    ensures HandTypeOf(Jokers, cards) == FourOfAKind
  {
    ExampleJokers4Others(cards);
    ExampleJokers4Count(cards);
    JokerCountsFrom(cards, ['T', 'J', 'K'], [2, 1], 2);
    assert CountsList(Jokers, cards) == [4, 1];
    ShapeTypes(CountsList(Jokers, cards));
  }

  lemma {:induction false} ExampleHand4(cards: seq<Card>)
    requires cards == ['K', 'T', 'J', 'J', 'T']
    ensures HandTypeOf(Standard, cards) == TwoPair && HandTypeOf(Jokers, cards) == FourOfAKind
  {
    ExampleStandard4(cards);
    ExampleCounts4(cards);
    ExampleOrder4(cards, ['T', 'J', 'K']);
    ExampleJokers4(cards);
  }

  lemma {:induction false} ExampleCounts5(cards: seq<Card>)
    requires cards == ['Q', 'Q', 'Q', 'J', 'A']
    ensures multiset(cards)['Q'] == 3 && multiset(cards)['J'] == 1 && multiset(cards)['A'] == 1
  {
  }

  lemma {:induction false} ExampleOrder5(cards: seq<Card>, order: seq<Card>)
    requires cards == ['Q', 'Q', 'Q', 'J', 'A'] && order == ['Q', 'J', 'A']
    ensures DistinctCards(order) && (forall c :: c in order <==> c in cards)
  {
  }

  /** `QQQJA` is three of a kind, and four of a kind with the joker. */
  lemma {:induction false} ExampleStandard5(cards: seq<Card>)
    requires cards == ['Q', 'Q', 'Q', 'J', 'A']
    ensures HandTypeOf(Standard, cards) == ThreeOfAKind
  {
    ExampleCounts5(cards);
    CountOf(cards, 'Q', 3);
    CountOf(cards, 'J', 1);
    CountOf(cards, 'A', 1);
    ExampleOrder5(cards, ['Q', 'J', 'A']);
    ValuesInThree('Q', 'J', 'A', CountMap(cards));
    StandardCountsFrom(cards, ['Q', 'J', 'A'], [3, 1, 1]);
    ShapeTypes(CountsList(Standard, cards));
  }

  lemma {:induction false} ExampleJokers5Others(cards: seq<Card>)
    requires multiset(cards)['Q'] == 3 && multiset(cards)['J'] == 1 && multiset(cards)['A'] == 1
    requires DistinctCards(['Q', 'J', 'A']) && (forall c :: c in ['Q', 'J', 'A'] <==> c in cards)
    ensures ValuesIn(['Q', 'J', 'A'], CountMap(cards) - {Joker}) == [3, 1]
  {
    CountOf(cards, 'Q', 3);
    CountOf(cards, 'A', 1);
    ValuesInThree('Q', 'J', 'A', CountMap(cards) - {Joker});
  }

  lemma {:induction false} ExampleJokers5Count(cards: seq<Card>)
    requires multiset(cards)['Q'] == 3 && multiset(cards)['J'] == 1 && multiset(cards)['A'] == 1
    requires DistinctCards(['Q', 'J', 'A']) && (forall c :: c in ['Q', 'J', 'A'] <==> c in cards)
    ensures JokerCount(CountMap(cards)) == 1
  {
    CountOf(cards, 'J', 1);
  }

  lemma {:induction false} ExampleJokers5(cards: seq<Card>)
    requires multiset(cards)['Q'] == 3 && multiset(cards)['J'] == 1 && multiset(cards)['A'] == 1
    requires DistinctCards(['Q', 'J', 'A']) && (forall c :: c in ['Q', 'J', 'A'] <==> c in cards)
    ensures HandTypeOf(Jokers, cards) == FourOfAKind
  {
    ExampleJokers5Others(cards);
    ExampleJokers5Count(cards);
    JokerCountsFrom(cards, ['Q', 'J', 'A'], [3, 1], 1);
    assert CountsList(Jokers, cards) == [4, 1];
    ShapeTypes(CountsList(Jokers, cards));
  }

  lemma {:induction false} ExampleHand5(cards: seq<Card>)
    requires cards == ['Q', 'Q', 'Q', 'J', 'A']
    ensures HandTypeOf(Standard, cards) == ThreeOfAKind && HandTypeOf(Jokers, cards) == FourOfAKind
  {
    ExampleStandard5(cards);
    ExampleCounts5(cards);
    ExampleOrder5(cards, ['Q', 'J', 'A']);
    ExampleJokers5(cards);
  }

  /** Each element comes strictly before every later one. */
  predicate StrictlyOrdered<T>(cmp: (T, T) -> int, s: seq<T>) {
    forall i, j :: 0 <= i < j < |s| ==> cmp(s[i], s[j]) < 0
  }

  /** Strict steps between neighbours chain into a strict order under a consistent comparator. */
  lemma {:induction false} StrictChain<T(!new)>(cmp: (T, T) -> int, r: seq<T>)
    requires Antisymmetric(cmp, r) && Transitive(cmp, r)
    requires forall i :: 0 <= i < |r| - 1 ==> cmp(r[i], r[i + 1]) < 0
    ensures StrictlyOrdered(cmp, r)
  {
    forall i, j | 0 <= i < j < |r| ensures cmp(r[i], r[j]) < 0 {
      StrictStep(cmp, r, i, j);
    }
  }

  lemma {:induction false} StrictStep<T(!new)>(cmp: (T, T) -> int, r: seq<T>, i: nat, j: nat)
    requires Antisymmetric(cmp, r) && Transitive(cmp, r)
    requires forall k :: 0 <= k < |r| - 1 ==> cmp(r[k], r[k + 1]) < 0
    requires i < j < |r|
    ensures cmp(r[i], r[j]) < 0
    decreases j - i
  {
    if i + 1 < j {
      StrictStep(cmp, r, i, j - 1);
      assert r[i] in r && r[j - 1] in r && r[j] in r;
      assert cmp(r[j - 1], r[j]) < 0;
    }
  }

  /** The first element of an ordered list is the first element of the tie-free list with the same elements. */
  lemma {:induction false} OrderedHead<T(!new)>(cmp: (T, T) -> int, r: seq<T>, t: seq<T>)
    requires Antisymmetric(cmp, r) && StrictlyOrdered(cmp, r) && r != []
    requires Ordered(cmp, t) && multiset(t) == multiset(r)
    ensures t != [] && t[0] == r[0]
  {
    assert r[0] in multiset(r);
    assert t != [];
    assert t[0] in multiset(r);
    var k :| 0 <= k < |r| && r[k] == t[0];
    if k != 0 {
      assert false;
    }
  }

  /**
   * A list without ties is the only ordering of its elements: any ordered
   * list with the same elements is that list.
   */
  lemma {:induction false} OrderedUnique<T(!new)>(cmp: (T, T) -> int, r: seq<T>, t: seq<T>)
    requires Antisymmetric(cmp, r) && StrictlyOrdered(cmp, r)
    requires Ordered(cmp, t) && multiset(t) == multiset(r)
    ensures t == r
    decreases |r|
  {
    if r != [] {
      OrderedHead(cmp, r, t);
      OrderedTails(cmp, r, t);
      OrderedUnique(cmp, r[1..], t[1..]);
      assert r == [r[0]] + r[1..] && t == [t[0]] + t[1..];
    }
  }

  /** Dropping the common first element keeps the premises of `OrderedUnique`. */
  lemma {:induction false} OrderedTails<T(!new)>(cmp: (T, T) -> int, r: seq<T>, t: seq<T>)
    requires Antisymmetric(cmp, r) && StrictlyOrdered(cmp, r)
    requires Ordered(cmp, t) && multiset(t) == multiset(r)
    requires r != [] && t != [] && t[0] == r[0]
    ensures Antisymmetric(cmp, r[1..]) && StrictlyOrdered(cmp, r[1..])
    ensures Ordered(cmp, t[1..]) && multiset(t[1..]) == multiset(r[1..])
  {
    TailMultiset(r, t);
    TailAntisymmetric(cmp, r);
    TailStrictlyOrdered(cmp, r);
    TailOrdered(cmp, t);
  }

  lemma {:induction false} TailMultiset<T>(r: seq<T>, t: seq<T>)
    requires r != [] && t != [] && t[0] == r[0] && multiset(t) == multiset(r)
    ensures multiset(t[1..]) == multiset(r[1..])
  {
    assert r == [r[0]] + r[1..] && t == [t[0]] + t[1..];
    assert multiset(r[1..]) == multiset(r) - multiset{r[0]};
    assert multiset(t[1..]) == multiset(t) - multiset{t[0]};
  }

  lemma {:induction false} TailAntisymmetric<T(!new)>(cmp: (T, T) -> int, r: seq<T>)
    requires Antisymmetric(cmp, r) && r != []
    ensures Antisymmetric(cmp, r[1..])
  {
    forall a, b | a in r[1..] && b in r[1..] ensures cmp(a, b) == -cmp(b, a) {
      assert a in r && b in r;
    }
  }

  lemma {:induction false} TailStrictlyOrdered<T>(cmp: (T, T) -> int, r: seq<T>)
    requires StrictlyOrdered(cmp, r) && r != []
    ensures StrictlyOrdered(cmp, r[1..])
  {
    forall i, j | 0 <= i < j < |r| - 1 ensures cmp(r[1..][i], r[1..][j]) < 0 {
      assert r[1..][i] == r[i + 1] && r[1..][j] == r[j + 1];
    }
  }

  lemma {:induction false} TailOrdered<T>(cmp: (T, T) -> int, t: seq<T>)
    requires Ordered(cmp, t) && t != []
    ensures Ordered(cmp, t[1..])
  {
    forall i, j | 0 <= i < j < |t| - 1 ensures cmp(t[1..][i], t[1..][j]) <= 0 {
      assert t[1..][i] == t[i + 1] && t[1..][j] == t[j + 1];
    }
  }

  /**
   * When the hands can be listed weakest first without ties, that list is the
   * ranking, and the total winnings are its winnings.
   */
  lemma {:induction false} RankedWithoutTies(rules: Rules, hands: seq<Hand>, r: seq<Hand>)
    requires SameSize(hands) && multiset(r) == multiset(hands)
    requires forall i :: 0 <= i < |r| - 1 ==> HandOrder(rules, r[i].cards, r[i + 1].cards) == 1
    ensures SortHands(rules, hands) == r
    ensures TotalWinnings(rules, hands) == Winnings(r)
  {
    var cmp := ByStrength(rules);
    ByStrengthConsistent(rules, hands);
    forall y | y in r ensures y in hands {
      assert y in multiset(r);
    }
    ConsistentOnPart(cmp, hands, r);
    StrictChain(cmp, r);
    SortHandsOrdered(rules, hands);
    OrderedUnique(cmp, r, SortBy(cmp, hands));
  }

  /** Of two hands of one type, the one with the weaker card at the first difference loses. */
  lemma {:induction false} WeakerAtFirstDifference(rules: Rules, a: seq<Card>, b: seq<Card>, i: nat)
    requires HandTypeOf(rules, a) == HandTypeOf(rules, b)
    requires i < |a| && i < |b| && a[..i] == b[..i] && Strength(rules, a[i]) < Strength(rules, b[i])
    ensures HandOrder(rules, a, b) == 1
  {
    FirstDifferenceDecides(rules, a, b, i);
  }

  /** `32T3K` loses to `KTJJT` under the standard rules. */
  lemma {:induction false} ExampleStandardStep1(a: seq<Card>, b: seq<Card>)
    requires a == ['3', '2', 'T', '3', 'K'] && b == ['K', 'T', 'J', 'J', 'T']
    ensures HandOrder(Standard, a, b) == 1
  {
    ExampleHand1(a);
    ExampleHand4(b);
  }

  /** `KTJJT` loses to `KK677` under the standard rules. */
  lemma {:induction false} ExampleStandardStep2(a: seq<Card>, b: seq<Card>)
    requires a == ['K', 'T', 'J', 'J', 'T'] && b == ['K', 'K', '6', '7', '7']
    ensures HandOrder(Standard, a, b) == 1
  {
    assert a[..1] == b[..1] && Strength(Standard, a[1]) < Strength(Standard, b[1]);
    assert HandTypeOf(Standard, a) == HandTypeOf(Standard, b) by {
      ExampleHand4(a);
      ExampleHand3(b);
    }
    WeakerAtFirstDifference(Standard, a, b, 1);
  }

  /** `KK677` loses to `T55J5` under the standard rules. */
  lemma {:induction false} ExampleStandardStep3(a: seq<Card>, b: seq<Card>)
    requires a == ['K', 'K', '6', '7', '7'] && b == ['T', '5', '5', 'J', '5']
    ensures HandOrder(Standard, a, b) == 1
  {
    ExampleHand3(a);
    ExampleHand2(b);
  }

  /** `T55J5` loses to `QQQJA` under the standard rules. */
  lemma {:induction false} ExampleStandardStep4(a: seq<Card>, b: seq<Card>)
    requires a == ['T', '5', '5', 'J', '5'] && b == ['Q', 'Q', 'Q', 'J', 'A']
    ensures HandOrder(Standard, a, b) == 1
  {
    assert a[..0] == b[..0] && Strength(Standard, a[0]) < Strength(Standard, b[0]);
    assert HandTypeOf(Standard, a) == HandTypeOf(Standard, b) by {
      ExampleHand2(a);
      ExampleHand5(b);
    }
    WeakerAtFirstDifference(Standard, a, b, 0);
  }

  /** `32T3K` loses to `KK677` with jokers. */
  lemma {:induction false} ExampleJokerStep1(a: seq<Card>, b: seq<Card>)
    requires a == ['3', '2', 'T', '3', 'K'] && b == ['K', 'K', '6', '7', '7']
    ensures HandOrder(Jokers, a, b) == 1
  {
    ExampleHand1(a);
    ExampleHand3(b);
  }

  /** `KK677` loses to `T55J5` with jokers. */
  lemma {:induction false} ExampleJokerStep2(a: seq<Card>, b: seq<Card>)
    requires a == ['K', 'K', '6', '7', '7'] && b == ['T', '5', '5', 'J', '5']
    ensures HandOrder(Jokers, a, b) == 1
  {
    ExampleHand3(a);
    ExampleHand2(b);
  }

  /** `T55J5` loses to `QQQJA` with jokers. */
  lemma {:induction false} ExampleJokerStep3(a: seq<Card>, b: seq<Card>)
    requires a == ['T', '5', '5', 'J', '5'] && b == ['Q', 'Q', 'Q', 'J', 'A']
    ensures HandOrder(Jokers, a, b) == 1
  {
    assert a[..0] == b[..0] && Strength(Jokers, a[0]) < Strength(Jokers, b[0]);
    assert HandTypeOf(Jokers, a) == HandTypeOf(Jokers, b) by {
      ExampleHand2(a);
      ExampleHand5(b);
    }
    WeakerAtFirstDifference(Jokers, a, b, 0);
  }

  /** `QQQJA` loses to `KTJJT` with jokers. */
  lemma {:induction false} ExampleJokerStep4(a: seq<Card>, b: seq<Card>)
    requires a == ['Q', 'Q', 'Q', 'J', 'A'] && b == ['K', 'T', 'J', 'J', 'T']
    ensures HandOrder(Jokers, a, b) == 1
  {
    assert a[..0] == b[..0] && Strength(Jokers, a[0]) < Strength(Jokers, b[0]);
    assert HandTypeOf(Jokers, a) == HandTypeOf(Jokers, b) by {
      ExampleHand5(a);
      ExampleHand4(b);
    }
    WeakerAtFirstDifference(Jokers, a, b, 0);
  }

  /** Four facts about neighbours in a list of five, as one statement about every neighbour pair. */
  lemma {:induction false} NeighboursOfFive<T>(f: (T, T) -> int, r: seq<T>, v: int)
    requires |r| == 5 && f(r[0], r[1]) == v && f(r[1], r[2]) == v && f(r[2], r[3]) == v && f(r[3], r[4]) == v
    ensures forall i :: 0 <= i < |r| - 1 ==> f(r[i], r[i + 1]) == v
  {
    forall i | 0 <= i < |r| - 1 ensures f(r[i], r[i + 1]) == v {
      if i == 0 {} else if i == 1 {} else if i == 2 {} else {}
    }
  }

  /** The winnings of five ranked hands. */
  lemma {:induction false} WinningsOfFive(r: seq<Hand>)
    requires |r| == 5
    ensures Winnings(r) == r[0].bid + 2 * r[1].bid + 3 * r[2].bid + 4 * r[3].bid + 5 * r[4].bid
  {
    assert WinningsFrom(r[4..], 5) == 5 * r[4].bid by {
      assert r[4..][1..] == [];
    }
    assert WinningsFrom(r[3..], 4) == 4 * r[3].bid + WinningsFrom(r[4..], 5) by {
      assert r[3..][1..] == r[4..];
    }
    assert WinningsFrom(r[2..], 3) == 3 * r[2].bid + WinningsFrom(r[3..], 4) by {
      assert r[2..][1..] == r[3..];
    }
    assert WinningsFrom(r[1..], 2) == 2 * r[1].bid + WinningsFrom(r[2..], 3) by {
      assert r[1..][1..] == r[2..];
    }
  }

  /** Five hands of one size, each losing to the next, are ranked in that order. */
  lemma {:induction false} RankedFive(rules: Rules, hands: seq<Hand>, r: seq<Hand>)
    requires SameSize(hands) && multiset(r) == multiset(hands) && |r| == 5
    requires HandOrder(rules, r[0].cards, r[1].cards) == 1 && HandOrder(rules, r[1].cards, r[2].cards) == 1
    requires HandOrder(rules, r[2].cards, r[3].cards) == 1 && HandOrder(rules, r[3].cards, r[4].cards) == 1
    ensures TotalWinnings(rules, hands) == r[0].bid + 2 * r[1].bid + 3 * r[2].bid + 4 * r[3].bid + 5 * r[4].bid
  {
    NeighboursOfFive((a: Hand, b: Hand) => HandOrder(rules, a.cards, b.cards), r, 1);
    RankedWithoutTies(rules, hands, r);
    WinningsOfFive(r);
  }

  /** Exchanging two elements keeps the same elements. */
  lemma {:induction false} SwapKeepsElements<T>(s: seq<T>, i: nat, j: nat)
    requires i < |s| && j < |s|
    ensures multiset(s[i := s[j]][j := s[i]]) == multiset(s)
  {
  }

  /** Hands that all have `n` cards have one size. */
  lemma {:induction false} SameSizeOf(hands: seq<Hand>, n: nat)
    requires forall i :: 0 <= i < |hands| ==> |hands[i].cards| == n
    ensures SameSize(hands)
  {
    forall a, b | a in hands && b in hands ensures |a.cards| == |b.cards| {
      var i :| 0 <= i < |hands| && hands[i] == a;
      var j :| 0 <= j < |hands| && hands[j] == b;
    }
  }

  /** The standard ranking of the worked example, weakest first. */
  lemma {:induction false} ExampleStandardRanking(r: seq<Hand>)
    requires |r| == 5 && r[0].cards == ['3', '2', 'T', '3', 'K'] && r[1].cards == ['K', 'T', 'J', 'J', 'T']
    requires r[2].cards == ['K', 'K', '6', '7', '7'] && r[3].cards == ['T', '5', '5', 'J', '5'] && r[4].cards == ['Q', 'Q', 'Q', 'J', 'A']
    ensures HandOrder(Standard, r[0].cards, r[1].cards) == 1 && HandOrder(Standard, r[1].cards, r[2].cards) == 1
    ensures HandOrder(Standard, r[2].cards, r[3].cards) == 1 && HandOrder(Standard, r[3].cards, r[4].cards) == 1
  {
    assert HandOrder(Standard, r[0].cards, r[1].cards) == 1 by {
      ExampleStandardStep1(r[0].cards, r[1].cards);
    }
    assert HandOrder(Standard, r[1].cards, r[2].cards) == 1 by {
      ExampleStandardStep2(r[1].cards, r[2].cards);
    }
    assert HandOrder(Standard, r[2].cards, r[3].cards) == 1 by {
      ExampleStandardStep3(r[2].cards, r[3].cards);
    }
    assert HandOrder(Standard, r[3].cards, r[4].cards) == 1 by {
      ExampleStandardStep4(r[3].cards, r[4].cards);
    }
  }

  /** The joker ranking of the worked example, weakest first. */
  lemma {:induction false} ExampleJokerRanking(r: seq<Hand>)
    requires |r| == 5 && r[0].cards == ['3', '2', 'T', '3', 'K'] && r[1].cards == ['K', 'K', '6', '7', '7']
    requires r[2].cards == ['T', '5', '5', 'J', '5'] && r[3].cards == ['Q', 'Q', 'Q', 'J', 'A'] && r[4].cards == ['K', 'T', 'J', 'J', 'T']
    ensures HandOrder(Jokers, r[0].cards, r[1].cards) == 1 && HandOrder(Jokers, r[1].cards, r[2].cards) == 1
    ensures HandOrder(Jokers, r[2].cards, r[3].cards) == 1 && HandOrder(Jokers, r[3].cards, r[4].cards) == 1
  {
    assert HandOrder(Jokers, r[0].cards, r[1].cards) == 1 by {
      ExampleJokerStep1(r[0].cards, r[1].cards);
    }
    assert HandOrder(Jokers, r[1].cards, r[2].cards) == 1 by {
      ExampleJokerStep2(r[1].cards, r[2].cards);
    }
    assert HandOrder(Jokers, r[2].cards, r[3].cards) == 1 by {
      ExampleJokerStep3(r[2].cards, r[3].cards);
    }
    assert HandOrder(Jokers, r[3].cards, r[4].cards) == 1 by {
      ExampleJokerStep4(r[3].cards, r[4].cards);
    }
  }

  lemma {:induction false} ExampleStandardTotal(hands: seq<Hand>, r: seq<Hand>)
    requires SameSize(hands) && multiset(r) == multiset(hands)
    requires |r| == 5 && r[0].cards == ['3', '2', 'T', '3', 'K'] && r[1].cards == ['K', 'T', 'J', 'J', 'T']
    requires r[2].cards == ['K', 'K', '6', '7', '7'] && r[3].cards == ['T', '5', '5', 'J', '5'] && r[4].cards == ['Q', 'Q', 'Q', 'J', 'A']
    requires r[0].bid + 2 * r[1].bid + 3 * r[2].bid + 4 * r[3].bid + 5 * r[4].bid == 6440
    ensures TotalWinnings(Standard, hands) == 6440
  {
    ExampleStandardRanking(r);
    RankedFive(Standard, hands, r);
  }

  lemma {:induction false} ExampleJokerTotal(hands: seq<Hand>, r: seq<Hand>)
    requires SameSize(hands) && multiset(r) == multiset(hands)
    requires |r| == 5 && r[0].cards == ['3', '2', 'T', '3', 'K'] && r[1].cards == ['K', 'K', '6', '7', '7']
    requires r[2].cards == ['T', '5', '5', 'J', '5'] && r[3].cards == ['Q', 'Q', 'Q', 'J', 'A'] && r[4].cards == ['K', 'T', 'J', 'J', 'T']
    requires r[0].bid + 2 * r[1].bid + 3 * r[2].bid + 4 * r[3].bid + 5 * r[4].bid == 5905
    ensures TotalWinnings(Jokers, hands) == 5905
  {
    ExampleJokerRanking(r);
    RankedFive(Jokers, hands, r);
  }

  /**
   * The worked example under the standard rules: total winnings 6440. The
   * five hands are given position by position.
   */
  lemma {:induction false} ExamplePart1(hands: seq<Hand>)
    requires |hands| == 5
    requires hands[0] == Hand(['3', '2', 'T', '3', 'K'], 765) && hands[1] == Hand(['T', '5', '5', 'J', '5'], 684)
    requires hands[2] == Hand(['K', 'K', '6', '7', '7'], 28) && hands[3] == Hand(['K', 'T', 'J', 'J', 'T'], 220)
    requires hands[4] == Hand(['Q', 'Q', 'Q', 'J', 'A'], 483)
    ensures TotalWinnings(Standard, hands) == 6440
  {
    assert SameSize(hands) by {
      SameSizeOf(hands, 5);
    }
    var ranked: seq<Hand> := hands[1 := hands[3]][3 := hands[1]];
    assert multiset(ranked) == multiset(hands) by {
      SwapKeepsElements(hands, 1, 3);
    }
    ExampleStandardTotal(hands, ranked);
  }

  /** The worked example with jokers: total winnings 5905. */
  lemma {:induction false} ExamplePart2(hands: seq<Hand>)
    requires |hands| == 5
    requires hands[0] == Hand(['3', '2', 'T', '3', 'K'], 765) && hands[1] == Hand(['T', '5', '5', 'J', '5'], 684)
    requires hands[2] == Hand(['K', 'K', '6', '7', '7'], 28) && hands[3] == Hand(['K', 'T', 'J', 'J', 'T'], 220)
    requires hands[4] == Hand(['Q', 'Q', 'Q', 'J', 'A'], 483)
    ensures TotalWinnings(Jokers, hands) == 5905
  {
    assert SameSize(hands) by {
      SameSizeOf(hands, 5);
    }
    var swapped: seq<Hand> := hands[1 := hands[2]][2 := hands[1]];
    assert multiset(swapped) == multiset(hands) by {
      SwapKeepsElements(hands, 1, 2);
    }
    var ranked: seq<Hand> := swapped[3 := swapped[4]][4 := swapped[3]];
    assert multiset(ranked) == multiset(swapped) by {
      SwapKeepsElements(swapped, 3, 4);
    }
    ExampleJokerTotal(hands, ranked);
  }
}
