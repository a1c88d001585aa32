/**
 * The worked examples of day_12.ts, counted with the reference definition
 * `Arrangements` one status at a time from the back of each row: every
 * `...CountsN` lemma settles one suffix from the suffixes it depends on, and
 * every `...RunN` lemma gives the length of the `#`/`?` run at one status.
 */
module Day12Examples {
  import opened Day12

  /** A working spring is skipped. */
  lemma {:induction false} Skip(s: string, k: nat, groups: seq<nat>)
    requires k < |s| && s[k] == '.'
    ensures Arrangements(s[k..], groups) == Arrangements(s[k + 1..], groups)
  {
    assert s[k..][0] == s[k];
    assert s[k..][1..] == s[k + 1..];
  }

  /** A status where the next group cannot start only adds the count of what follows it (nothing for a `#`). */
  lemma {:induction false} Blocked(s: string, k: nat, groups: seq<nat>)
    requires k < |s| && groups != [] && !Accepted(s, groups[0], k)
    ensures Arrangements(s[k..], groups) == if s[k] == '#' then 0 else Arrangements(s[k + 1..], groups)
  {
    assert s[k..][0] == s[k];
    assert s[k..][1..] == s[k + 1..];
    SuffixContribution(s, groups[0], groups[1..], k);
  }

  /** A status where the next group can start also adds the count after the group and its separator. */
  lemma {:induction false} Place(s: string, k: nat, groups: seq<nat>)
    requires k < |s| && groups != [] && Accepted(s, groups[0], k)
    ensures k + groups[0] + 1 <= |s| ==>
      Arrangements(s[k..], groups) == (if s[k] == '#' then 0 else Arrangements(s[k + 1..], groups)) + Arrangements(s[k + groups[0] + 1..], groups[1..])
    ensures k + groups[0] + 1 > |s| ==>
      Arrangements(s[k..], groups) == (if s[k] == '#' then 0 else Arrangements(s[k + 1..], groups)) + Arrangements([], groups[1..])
  {
    assert s[k..][0] == s[k];
    assert s[k..][1..] == s[k + 1..];
    SuffixContribution(s, groups[0], groups[1..], k);
  }

  // The steps above with the counts they start from passed in, so that each
  // example fact is checked from its own premises only.

  lemma {:induction false} SkipIs(s: string, k: nat, groups: seq<nat>, n: nat)
    requires k < |s| && s[k] == '.' && Arrangements(s[k + 1..], groups) == n
    ensures Arrangements(s[k..], groups) == n
  {
    Skip(s, k, groups);
  }

  lemma {:induction false} BlockedIs(s: string, k: nat, groups: seq<nat>, n: nat)
    requires k < |s| && groups != [] && !Accepted(s, groups[0], k)
    requires s[k] != '#' && Arrangements(s[k + 1..], groups) == n
    ensures Arrangements(s[k..], groups) == n
  {
    Blocked(s, k, groups);
  }

  lemma {:induction false} BlockedBroken(s: string, k: nat, groups: seq<nat>)
    requires k < |s| && groups != [] && !Accepted(s, groups[0], k) && s[k] == '#'
    ensures Arrangements(s[k..], groups) == 0
  {
    Blocked(s, k, groups);
  }

  lemma {:induction false} PlaceIs(s: string, k: nat, groups: seq<nat>, r: nat, a: nat, b: nat)
    requires k < |s| && groups != [] && Accepted(s, groups[0], k)
    requires r == if k + groups[0] + 1 <= |s| then k + groups[0] + 1 else |s|
    requires s[k] != '#' && Arrangements(s[k + 1..], groups) == a
    requires Arrangements(s[r..], groups[1..]) == b
    ensures Arrangements(s[k..], groups) == a + b
  {
    Place(s, k, groups);
    assert s[|s|..] == [];
  }

  lemma {:induction false} PlaceBroken(s: string, k: nat, groups: seq<nat>, r: nat, b: nat)
    requires k < |s| && groups != [] && Accepted(s, groups[0], k)
    requires r == if k + groups[0] + 1 <= |s| then k + groups[0] + 1 else |s|
    requires s[k] == '#' && Arrangements(s[r..], groups[1..]) == b
    ensures Arrangements(s[k..], groups) == b
  {
    Place(s, k, groups);
    assert s[|s|..] == [];
  }

  /** `s` is, status by status, the row `t`. */
  predicate Spells(s: string, t: string) {
    |s| == |t| && forall i :: 0 <= i < |t| ==> s[i] == t[i]
  }

  /** A `#`/`?` status extends the run that follows it by one. */
  lemma {:induction false} RunIs(s: string, k: nat, n: nat)
    requires k < |s| && MaybeBroken(s[k]) && RunLength(s, k + 1) == n
    ensures RunLength(s, k) == n + 1
  {
  }

  /** A run ends at a working spring or at the end of the row. */
  lemma {:induction false} RunStops(s: string, k: nat)
    requires k >= |s| || !MaybeBroken(s[k])
    ensures RunLength(s, k) == 0
  {
  }

  const Line1Row: string := "???.###"

  lemma {:induction false} Line1Run7(s: string)
    requires Spells(s, Line1Row)
    ensures RunLength(s, 7) == 0
  {
    RunStops(s, 7);
  }

  lemma {:induction false} Line1Run6(s: string)
    requires Spells(s, Line1Row)
    ensures RunLength(s, 6) == 1
  {
    Line1Run7(s);
    RunIs(s, 6, 0);
  }

  lemma {:induction false} Line1Run5(s: string)
    requires Spells(s, Line1Row)
    ensures RunLength(s, 5) == 2
  {
    Line1Run6(s);
    RunIs(s, 5, 1);
  }

  lemma {:induction false} Line1Run4(s: string)
    requires Spells(s, Line1Row)
    ensures RunLength(s, 4) == 3
  {
    Line1Run5(s);
    RunIs(s, 4, 2);
  }

  lemma {:induction false} Line1Run3(s: string)
    requires Spells(s, Line1Row)
    ensures RunLength(s, 3) == 0
  {
    RunStops(s, 3);
  }

  lemma {:induction false} Line1Run2(s: string)
    requires Spells(s, Line1Row)
    ensures RunLength(s, 2) == 1
  {
    Line1Run3(s);
    RunIs(s, 2, 0);
  }

  lemma {:induction false} Line1Run1(s: string)
    requires Spells(s, Line1Row)
    ensures RunLength(s, 1) == 2
  {
    Line1Run2(s);
    RunIs(s, 1, 1);
  }

  lemma {:induction false} Line1Run0(s: string)
    requires Spells(s, Line1Row)
    ensures RunLength(s, 0) == 3
  {
    Line1Run1(s);
    RunIs(s, 0, 2);
  }

  lemma {:induction false} Line1Counts1(s: string)
    requires Spells(s, Line1Row)
    ensures Arrangements(s[1..], [1, 1, 3]) == 0
  {
    TooShort(s[1..], [1, 1, 3]);
  }

  lemma {:induction false} Line1Counts2(s: string)
    requires Spells(s, Line1Row)
    ensures Arrangements(s[3..], [1, 3]) == 0
  {
    TooShort(s[3..], [1, 3]);
  }

  lemma {:induction false} Line1Counts3(s: string)
    requires Spells(s, Line1Row)
    ensures Arrangements(s[7..], []) == 1
  {
    assert s[7..] == [];
    NoGroupsLeft(s[7..]);
  }

  lemma {:induction false} Line1Counts4(s: string)
    requires Spells(s, Line1Row)
    ensures Arrangements(s[4..], [3]) == 1
  {
    Line1Counts3(s);
    Line1Run4(s);
    PlaceBroken(s, 4, [3], 7, 1);
  }

  lemma {:induction false} Line1Counts5(s: string)
    requires Spells(s, Line1Row)
    ensures Arrangements(s[2..], [1, 3]) == 1
  {
    Line1Counts2(s);
    Line1Counts4(s);
    Line1Run2(s);
    PlaceIs(s, 2, [1, 3], 4, 0, 1);
  }

  lemma {:induction false} Line1Counts6(s: string)
    requires Spells(s, Line1Row)
    ensures Arrangements(s[0..], [1, 1, 3]) == 1
  {
    Line1Counts1(s);
    Line1Counts5(s);
    Line1Run0(s);
    PlaceIs(s, 0, [1, 1, 3], 2, 0, 1);
  }

  /** `???.### 1,1,3`, the first row of the example input: 1 arrangement. */
  lemma {:induction false} ExampleLine1()
    ensures Arrangements(Line1Row, [1, 1, 3]) == 1
  {
    Line1Counts6(Line1Row);
    assert Line1Row[0..] == Line1Row;
  }

  const Line2Row: string := ".??..??...?##."

  lemma {:induction false} Line2Run13(s: string)
    requires Spells(s, Line2Row)
    ensures RunLength(s, 13) == 0
  {
    RunStops(s, 13);
  }

  lemma {:induction false} Line2Run12(s: string)
    requires Spells(s, Line2Row)
    ensures RunLength(s, 12) == 1
  {
    Line2Run13(s);
    RunIs(s, 12, 0);
  }

  lemma {:induction false} Line2Run11(s: string)
    requires Spells(s, Line2Row)
    ensures RunLength(s, 11) == 2
  {
    Line2Run12(s);
    RunIs(s, 11, 1);
  }

  lemma {:induction false} Line2Run10(s: string)
    requires Spells(s, Line2Row)
    ensures RunLength(s, 10) == 3
  {
    Line2Run11(s);
    RunIs(s, 10, 2);
  }

  lemma {:induction false} Line2Run7(s: string)
    requires Spells(s, Line2Row)
    ensures RunLength(s, 7) == 0
  {
    RunStops(s, 7);
  }

  lemma {:induction false} Line2Run6(s: string)
    requires Spells(s, Line2Row)
    ensures RunLength(s, 6) == 1
  {
    Line2Run7(s);
    RunIs(s, 6, 0);
  }

  lemma {:induction false} Line2Run5(s: string)
    requires Spells(s, Line2Row)
    ensures RunLength(s, 5) == 2
  {
    Line2Run6(s);
    RunIs(s, 5, 1);
  }

  lemma {:induction false} Line2Run3(s: string)
    requires Spells(s, Line2Row)
    ensures RunLength(s, 3) == 0
  {
    RunStops(s, 3);
  }

  lemma {:induction false} Line2Run2(s: string)
    requires Spells(s, Line2Row)
    ensures RunLength(s, 2) == 1
  {
    Line2Run3(s);
    RunIs(s, 2, 0);
  }

  lemma {:induction false} Line2Run1(s: string)
    requires Spells(s, Line2Row)
    ensures RunLength(s, 1) == 2
  {
    Line2Run2(s);
    RunIs(s, 1, 1);
  }

  lemma {:induction false} Line2Counts1(s: string)
    requires Spells(s, Line2Row)
    ensures Arrangements(s[8..], [1, 1, 3]) == 0
  {
    TooShort(s[8..], [1, 1, 3]);
  }

  lemma {:induction false} Line2Counts2(s: string)
    requires Spells(s, Line2Row)
    ensures Arrangements(s[7..], [1, 1, 3]) == 0
  {
    Line2Counts1(s);
    SkipIs(s, 7, [1, 1, 3], 0);
  }

  lemma {:induction false} Line2Counts3(s: string)
    requires Spells(s, Line2Row)
    ensures Arrangements(s[10..], [1, 3]) == 0
  {
    TooShort(s[10..], [1, 3]);
  }

  lemma {:induction false} Line2Counts4(s: string)
    requires Spells(s, Line2Row)
    ensures Arrangements(s[9..], [1, 3]) == 0
  {
    Line2Counts3(s);
    SkipIs(s, 9, [1, 3], 0);
  }

  lemma {:induction false} Line2Counts5(s: string)
    requires Spells(s, Line2Row)
    ensures Arrangements(s[8..], [1, 3]) == 0
  {
    Line2Counts4(s);
    SkipIs(s, 8, [1, 3], 0);
  }

  lemma {:induction false} Line2Counts6(s: string)
    requires Spells(s, Line2Row)
    ensures Arrangements(s[6..], [1, 1, 3]) == 0
  {
    Line2Counts2(s);
    Line2Counts5(s);
    Line2Run6(s);
    PlaceIs(s, 6, [1, 1, 3], 8, 0, 0);
  }

  lemma {:induction false} Line2Counts7(s: string)
    requires Spells(s, Line2Row)
    ensures Arrangements(s[7..], [1, 3]) == 0
  {
    Line2Counts5(s);
    SkipIs(s, 7, [1, 3], 0);
  }

  lemma {:induction false} Line2Counts8(s: string)
    requires Spells(s, Line2Row)
    ensures Arrangements(s[5..], [1, 1, 3]) == 0
  {
    Line2Counts6(s);
    Line2Counts7(s);
    Line2Run5(s);
    PlaceIs(s, 5, [1, 1, 3], 7, 0, 0);
  }

  lemma {:induction false} Line2Counts9(s: string)
    requires Spells(s, Line2Row)
    ensures Arrangements(s[4..], [1, 1, 3]) == 0
  {
    Line2Counts8(s);
    SkipIs(s, 4, [1, 1, 3], 0);
  }

  lemma {:induction false} Line2Counts10(s: string)
    requires Spells(s, Line2Row)
    ensures Arrangements(s[3..], [1, 1, 3]) == 0
  {
    Line2Counts9(s);
    SkipIs(s, 3, [1, 1, 3], 0);
  }

  lemma {:induction false} Line2Counts11(s: string)
    requires Spells(s, Line2Row)
    ensures Arrangements(s[11..], [3]) == 0
  {
    Line2Run11(s);
    BlockedBroken(s, 11, [3]);
  }

  lemma {:induction false} Line2Counts12(s: string)
    requires Spells(s, Line2Row)
    ensures Arrangements(s[14..], []) == 1
  {
    assert s[14..] == [];
    NoGroupsLeft(s[14..]);
  }

  lemma {:induction false} Line2Counts13(s: string)
    requires Spells(s, Line2Row)
    ensures Arrangements(s[10..], [3]) == 1
  {
    Line2Counts11(s);
    Line2Counts12(s);
    Line2Run10(s);
    PlaceIs(s, 10, [3], 14, 0, 1);
  }

  lemma {:induction false} Line2Counts14(s: string)
    requires Spells(s, Line2Row)
    ensures Arrangements(s[9..], [3]) == 1
  {
    Line2Counts13(s);
    SkipIs(s, 9, [3], 1);
  }

  lemma {:induction false} Line2Counts15(s: string)
    requires Spells(s, Line2Row)
    ensures Arrangements(s[8..], [3]) == 1
  {
    Line2Counts14(s);
    SkipIs(s, 8, [3], 1);
  }

  lemma {:induction false} Line2Counts16(s: string)
    requires Spells(s, Line2Row)
    ensures Arrangements(s[6..], [1, 3]) == 1
  {
    Line2Counts7(s);
    Line2Counts15(s);
    Line2Run6(s);
    PlaceIs(s, 6, [1, 3], 8, 0, 1);
  }

  lemma {:induction false} Line2Counts17(s: string)
    requires Spells(s, Line2Row)
    ensures Arrangements(s[7..], [3]) == 1
  {
    Line2Counts15(s);
    SkipIs(s, 7, [3], 1);
  }

  lemma {:induction false} Line2Counts18(s: string)
    requires Spells(s, Line2Row)
    ensures Arrangements(s[5..], [1, 3]) == 2
  {
    Line2Counts16(s);
    Line2Counts17(s);
    Line2Run5(s);
    PlaceIs(s, 5, [1, 3], 7, 1, 1);
  }

  lemma {:induction false} Line2Counts19(s: string)
    requires Spells(s, Line2Row)
    ensures Arrangements(s[4..], [1, 3]) == 2
  {
    Line2Counts18(s);
    SkipIs(s, 4, [1, 3], 2);
  }

  lemma {:induction false} Line2Counts20(s: string)
    requires Spells(s, Line2Row)
    ensures Arrangements(s[2..], [1, 1, 3]) == 2
  {
    Line2Counts10(s);
    Line2Counts19(s);
    Line2Run2(s);
    PlaceIs(s, 2, [1, 1, 3], 4, 0, 2);
  }

  lemma {:induction false} Line2Counts21(s: string)
    requires Spells(s, Line2Row)
    ensures Arrangements(s[3..], [1, 3]) == 2
  {
    Line2Counts19(s);
    SkipIs(s, 3, [1, 3], 2);
  }

  lemma {:induction false} Line2Counts22(s: string)
    requires Spells(s, Line2Row)
    ensures Arrangements(s[1..], [1, 1, 3]) == 4
  {
    Line2Counts20(s);
    Line2Counts21(s);
    Line2Run1(s);
    PlaceIs(s, 1, [1, 1, 3], 3, 2, 2);
  }

  lemma {:induction false} Line2Counts23(s: string)
    requires Spells(s, Line2Row)
    ensures Arrangements(s[0..], [1, 1, 3]) == 4
  {
    Line2Counts22(s);
    SkipIs(s, 0, [1, 1, 3], 4);
  }

  /** `.??..??...?##. 1,1,3`, the second row: 4 arrangements. */
  lemma {:induction false} ExampleLine2()
    ensures Arrangements(Line2Row, [1, 1, 3]) == 4
  {
    Line2Counts23(Line2Row);
    assert Line2Row[0..] == Line2Row;
  }

  const Line3Row: string := "?#?#?#?#?#?#?#?"

  lemma {:induction false} Line3Run15(s: string)
    requires Spells(s, Line3Row)
    ensures RunLength(s, 15) == 0
  {
    RunStops(s, 15);
  }

  lemma {:induction false} Line3Run14(s: string)
    requires Spells(s, Line3Row)
    ensures RunLength(s, 14) == 1
  {
    Line3Run15(s);
    RunIs(s, 14, 0);
  }

  lemma {:induction false} Line3Run13(s: string)
    requires Spells(s, Line3Row)
    ensures RunLength(s, 13) == 2
  {
    Line3Run14(s);
    RunIs(s, 13, 1);
  }

  lemma {:induction false} Line3Run12(s: string)
    requires Spells(s, Line3Row)
    ensures RunLength(s, 12) == 3
  {
    Line3Run13(s);
    RunIs(s, 12, 2);
  }

  lemma {:induction false} Line3Run11(s: string)
    requires Spells(s, Line3Row)
    ensures RunLength(s, 11) == 4
  {
    Line3Run12(s);
    RunIs(s, 11, 3);
  }

  lemma {:induction false} Line3Run10(s: string)
    requires Spells(s, Line3Row)
    ensures RunLength(s, 10) == 5
  {
    Line3Run11(s);
    RunIs(s, 10, 4);
  }

  lemma {:induction false} Line3Run9(s: string)
    requires Spells(s, Line3Row)
    ensures RunLength(s, 9) == 6
  {
    Line3Run10(s);
    RunIs(s, 9, 5);
  }

  lemma {:induction false} Line3Run8(s: string)
    requires Spells(s, Line3Row)
    ensures RunLength(s, 8) == 7
  {
    Line3Run9(s);
    RunIs(s, 8, 6);
  }

  lemma {:induction false} Line3Run7(s: string)
    requires Spells(s, Line3Row)
    ensures RunLength(s, 7) == 8
  {
    Line3Run8(s);
    RunIs(s, 7, 7);
  }

  lemma {:induction false} Line3Run6(s: string)
    requires Spells(s, Line3Row)
    ensures RunLength(s, 6) == 9
  {
    Line3Run7(s);
    RunIs(s, 6, 8);
  }

  lemma {:induction false} Line3Run5(s: string)
    requires Spells(s, Line3Row)
    ensures RunLength(s, 5) == 10
  {
    Line3Run6(s);
    RunIs(s, 5, 9);
  }

  lemma {:induction false} Line3Run4(s: string)
    requires Spells(s, Line3Row)
    ensures RunLength(s, 4) == 11
  {
    Line3Run5(s);
    RunIs(s, 4, 10);
  }

  lemma {:induction false} Line3Run3(s: string)
    requires Spells(s, Line3Row)
    ensures RunLength(s, 3) == 12
  {
    Line3Run4(s);
    RunIs(s, 3, 11);
  }

  lemma {:induction false} Line3Run2(s: string)
    requires Spells(s, Line3Row)
    ensures RunLength(s, 2) == 13
  {
    Line3Run3(s);
    RunIs(s, 2, 12);
  }

  lemma {:induction false} Line3Run1(s: string)
    requires Spells(s, Line3Row)
    ensures RunLength(s, 1) == 14
  {
    Line3Run2(s);
    RunIs(s, 1, 13);
  }

  lemma {:induction false} Line3Run0(s: string)
    requires Spells(s, Line3Row)
    ensures RunLength(s, 0) == 15
  {
    Line3Run1(s);
    RunIs(s, 0, 14);
  }

  lemma {:induction false} Line3Counts1(s: string)
    requires Spells(s, Line3Row)
    ensures Arrangements(s[15..], []) == 1
  {
    assert s[15..] == [];
    NoGroupsLeft(s[15..]);
  }

  lemma {:induction false} Line3Counts2(s: string)
    requires Spells(s, Line3Row)
    ensures Arrangements(s[9..], [6]) == 1
  {
    Line3Counts1(s);
    Line3Run9(s);
    PlaceBroken(s, 9, [6], 15, 1);
  }

  lemma {:induction false} Line3Counts3(s: string)
    requires Spells(s, Line3Row)
    ensures Arrangements(s[7..], [1, 6]) == 1
  {
    Line3Counts2(s);
    Line3Run7(s);
    PlaceBroken(s, 7, [1, 6], 9, 1);
  }

  lemma {:induction false} Line3Counts4(s: string)
    requires Spells(s, Line3Row)
    ensures Arrangements(s[3..], [3, 1, 6]) == 1
  {
    Line3Counts3(s);
    Line3Run3(s);
    PlaceBroken(s, 3, [3, 1, 6], 7, 1);
  }

  lemma {:induction false} Line3Counts5(s: string)
    requires Spells(s, Line3Row)
    ensures Arrangements(s[1..], [1, 3, 1, 6]) == 1
  {
    Line3Counts4(s);
    Line3Run1(s);
    PlaceBroken(s, 1, [1, 3, 1, 6], 3, 1);
  }

  lemma {:induction false} Line3Counts6(s: string)
    requires Spells(s, Line3Row)
    ensures Arrangements(s[0..], [1, 3, 1, 6]) == 1
  {
    Line3Counts5(s);
    Line3Run0(s);
    BlockedIs(s, 0, [1, 3, 1, 6], 1);
  }

  /** `?#?#?#?#?#?#?#? 1,3,1,6`, the third row: 1 arrangement. */
  lemma {:induction false} ExampleLine3()
    ensures Arrangements(Line3Row, [1, 3, 1, 6]) == 1
  {
    Line3Counts6(Line3Row);
    assert Line3Row[0..] == Line3Row;
  }

  const Line4Row: string := "????.#...#..."

  lemma {:induction false} Line4Run10(s: string)
    requires Spells(s, Line4Row)
    ensures RunLength(s, 10) == 0
  {
    RunStops(s, 10);
  }

  lemma {:induction false} Line4Run9(s: string)
    requires Spells(s, Line4Row)
    ensures RunLength(s, 9) == 1
  {
    Line4Run10(s);
    RunIs(s, 9, 0);
  }

  lemma {:induction false} Line4Run6(s: string)
    requires Spells(s, Line4Row)
    ensures RunLength(s, 6) == 0
  {
    RunStops(s, 6);
  }

  lemma {:induction false} Line4Run5(s: string)
    requires Spells(s, Line4Row)
    ensures RunLength(s, 5) == 1
  {
    Line4Run6(s);
    RunIs(s, 5, 0);
  }

  lemma {:induction false} Line4Run4(s: string)
    requires Spells(s, Line4Row)
    ensures RunLength(s, 4) == 0
  {
    RunStops(s, 4);
  }

  lemma {:induction false} Line4Run3(s: string)
    requires Spells(s, Line4Row)
    ensures RunLength(s, 3) == 1
  {
    Line4Run4(s);
    RunIs(s, 3, 0);
  }

  lemma {:induction false} Line4Run2(s: string)
    requires Spells(s, Line4Row)
    ensures RunLength(s, 2) == 2
  {
    Line4Run3(s);
    RunIs(s, 2, 1);
  }

  lemma {:induction false} Line4Run1(s: string)
    requires Spells(s, Line4Row)
    ensures RunLength(s, 1) == 3
  {
    Line4Run2(s);
    RunIs(s, 1, 2);
  }

  lemma {:induction false} Line4Run0(s: string)
    requires Spells(s, Line4Row)
    ensures RunLength(s, 0) == 4
  {
    Line4Run1(s);
    RunIs(s, 0, 3);
  }

  lemma {:induction false} Line4Counts1(s: string)
    requires Spells(s, Line4Row)
    ensures Arrangements(s[5..], [4, 1, 1]) == 0
  {
    Line4Run5(s);
    BlockedBroken(s, 5, [4, 1, 1]);
  }

  lemma {:induction false} Line4Counts2(s: string)
    requires Spells(s, Line4Row)
    ensures Arrangements(s[4..], [4, 1, 1]) == 0
  {
    Line4Counts1(s);
    SkipIs(s, 4, [4, 1, 1], 0);
  }

  lemma {:induction false} Line4Counts3(s: string)
    requires Spells(s, Line4Row)
    ensures Arrangements(s[3..], [4, 1, 1]) == 0
  {
    Line4Counts2(s);
    Line4Run3(s);
    BlockedIs(s, 3, [4, 1, 1], 0);
  }

  lemma {:induction false} Line4Counts4(s: string)
    requires Spells(s, Line4Row)
    ensures Arrangements(s[2..], [4, 1, 1]) == 0
  {
    Line4Counts3(s);
    Line4Run2(s);
    BlockedIs(s, 2, [4, 1, 1], 0);
  }

  lemma {:induction false} Line4Counts5(s: string)
    requires Spells(s, Line4Row)
    ensures Arrangements(s[1..], [4, 1, 1]) == 0
  {
    Line4Counts4(s);
    Line4Run1(s);
    BlockedIs(s, 1, [4, 1, 1], 0);
  }

  lemma {:induction false} Line4Counts6(s: string)
    requires Spells(s, Line4Row)
    ensures Arrangements(s[11..], []) == 1
  {
    assert s[11..] == "..";
    NoGroupsLeft(s[11..]);
  }

  lemma {:induction false} Line4Counts7(s: string)
    requires Spells(s, Line4Row)
    ensures Arrangements(s[9..], [1]) == 1
  {
    Line4Counts6(s);
    Line4Run9(s);
    PlaceBroken(s, 9, [1], 11, 1);
  }

  lemma {:induction false} Line4Counts8(s: string)
    requires Spells(s, Line4Row)
    ensures Arrangements(s[8..], [1]) == 1
  {
    Line4Counts7(s);
    SkipIs(s, 8, [1], 1);
  }

  lemma {:induction false} Line4Counts9(s: string)
    requires Spells(s, Line4Row)
    ensures Arrangements(s[7..], [1]) == 1
  {
    Line4Counts8(s);
    SkipIs(s, 7, [1], 1);
  }

  lemma {:induction false} Line4Counts10(s: string)
    requires Spells(s, Line4Row)
    ensures Arrangements(s[5..], [1, 1]) == 1
  {
    Line4Counts9(s);
    Line4Run5(s);
    PlaceBroken(s, 5, [1, 1], 7, 1);
  }

  lemma {:induction false} Line4Counts11(s: string)
    requires Spells(s, Line4Row)
    ensures Arrangements(s[0..], [4, 1, 1]) == 1
  {
    Line4Counts5(s);
    Line4Counts10(s);
    Line4Run0(s);
    PlaceIs(s, 0, [4, 1, 1], 5, 0, 1);
  }

  /** `????.#...#... 4,1,1`, the fourth row: 1 arrangement. */
  lemma {:induction false} ExampleLine4()
    ensures Arrangements(Line4Row, [4, 1, 1]) == 1
  {
    Line4Counts11(Line4Row);
    assert Line4Row[0..] == Line4Row;
  }

  const Line5Row: string := "????.######..#####."

  lemma {:induction false} Line5Run18(s: string)
    requires Spells(s, Line5Row)
    ensures RunLength(s, 18) == 0
  {
    RunStops(s, 18);
  }

  lemma {:induction false} Line5Run17(s: string)
    requires Spells(s, Line5Row)
    ensures RunLength(s, 17) == 1
  {
    Line5Run18(s);
    RunIs(s, 17, 0);
  }

  lemma {:induction false} Line5Run16(s: string)
    requires Spells(s, Line5Row)
    ensures RunLength(s, 16) == 2
  {
    Line5Run17(s);
    RunIs(s, 16, 1);
  }

  lemma {:induction false} Line5Run15(s: string)
    requires Spells(s, Line5Row)
    ensures RunLength(s, 15) == 3
  {
    Line5Run16(s);
    RunIs(s, 15, 2);
  }

  lemma {:induction false} Line5Run14(s: string)
    requires Spells(s, Line5Row)
    ensures RunLength(s, 14) == 4
  {
    Line5Run15(s);
    RunIs(s, 14, 3);
  }

  lemma {:induction false} Line5Run13(s: string)
    requires Spells(s, Line5Row)
    ensures RunLength(s, 13) == 5
  {
    Line5Run14(s);
    RunIs(s, 13, 4);
  }

  lemma {:induction false} Line5Run11(s: string)
    requires Spells(s, Line5Row)
    ensures RunLength(s, 11) == 0
  {
    RunStops(s, 11);
  }

  lemma {:induction false} Line5Run10(s: string)
    requires Spells(s, Line5Row)
    ensures RunLength(s, 10) == 1
  {
    Line5Run11(s);
    RunIs(s, 10, 0);
  }

  lemma {:induction false} Line5Run9(s: string)
    requires Spells(s, Line5Row)
    ensures RunLength(s, 9) == 2
  {
    Line5Run10(s);
    RunIs(s, 9, 1);
  }

  lemma {:induction false} Line5Run8(s: string)
    requires Spells(s, Line5Row)
    ensures RunLength(s, 8) == 3
  {
    Line5Run9(s);
    RunIs(s, 8, 2);
  }

  lemma {:induction false} Line5Run7(s: string)
    requires Spells(s, Line5Row)
    ensures RunLength(s, 7) == 4
  {
    Line5Run8(s);
    RunIs(s, 7, 3);
  }

  lemma {:induction false} Line5Run6(s: string)
    requires Spells(s, Line5Row)
    ensures RunLength(s, 6) == 5
  {
    Line5Run7(s);
    RunIs(s, 6, 4);
  }

  lemma {:induction false} Line5Run5(s: string)
    requires Spells(s, Line5Row)
    ensures RunLength(s, 5) == 6
  {
    Line5Run6(s);
    RunIs(s, 5, 5);
  }

  lemma {:induction false} Line5Run4(s: string)
    requires Spells(s, Line5Row)
    ensures RunLength(s, 4) == 0
  {
    RunStops(s, 4);
  }

  lemma {:induction false} Line5Run3(s: string)
    requires Spells(s, Line5Row)
    ensures RunLength(s, 3) == 1
  {
    Line5Run4(s);
    RunIs(s, 3, 0);
  }

  lemma {:induction false} Line5Run2(s: string)
    requires Spells(s, Line5Row)
    ensures RunLength(s, 2) == 2
  {
    Line5Run3(s);
    RunIs(s, 2, 1);
  }

  lemma {:induction false} Line5Run1(s: string)
    requires Spells(s, Line5Row)
    ensures RunLength(s, 1) == 3
  {
    Line5Run2(s);
    RunIs(s, 1, 2);
  }

  lemma {:induction false} Line5Run0(s: string)
    requires Spells(s, Line5Row)
    ensures RunLength(s, 0) == 4
  {
    Line5Run1(s);
    RunIs(s, 0, 3);
  }

  lemma {:induction false} Line5Counts1(s: string)
    requires Spells(s, Line5Row)
    ensures Arrangements(s[5..], [1, 6, 5]) == 0
  {
    Line5Run5(s);
    BlockedBroken(s, 5, [1, 6, 5]);
  }

  lemma {:induction false} Line5Counts2(s: string)
    requires Spells(s, Line5Row)
    ensures Arrangements(s[4..], [1, 6, 5]) == 0
  {
    Line5Counts1(s);
    SkipIs(s, 4, [1, 6, 5], 0);
  }

  lemma {:induction false} Line5Counts3(s: string)
    requires Spells(s, Line5Row)
    ensures Arrangements(s[19..], []) == 1
  {
    assert s[19..] == [];
    NoGroupsLeft(s[19..]);
  }

  lemma {:induction false} Line5Counts4(s: string)
    requires Spells(s, Line5Row)
    ensures Arrangements(s[13..], [5]) == 1
  {
    Line5Counts3(s);
    Line5Run13(s);
    PlaceBroken(s, 13, [5], 19, 1);
  }

  lemma {:induction false} Line5Counts5(s: string)
    requires Spells(s, Line5Row)
    ensures Arrangements(s[12..], [5]) == 1
  {
    Line5Counts4(s);
    SkipIs(s, 12, [5], 1);
  }

  lemma {:induction false} Line5Counts6(s: string)
    requires Spells(s, Line5Row)
    ensures Arrangements(s[5..], [6, 5]) == 1
  {
    Line5Counts5(s);
    Line5Run5(s);
    PlaceBroken(s, 5, [6, 5], 12, 1);
  }

  lemma {:induction false} Line5Counts7(s: string)
    requires Spells(s, Line5Row)
    ensures Arrangements(s[3..], [1, 6, 5]) == 1
  {
    Line5Counts2(s);
    Line5Counts6(s);
    Line5Run3(s);
    PlaceIs(s, 3, [1, 6, 5], 5, 0, 1);
  }

  lemma {:induction false} Line5Counts8(s: string)
    requires Spells(s, Line5Row)
    ensures Arrangements(s[4..], [6, 5]) == 1
  {
    Line5Counts6(s);
    SkipIs(s, 4, [6, 5], 1);
  }

  lemma {:induction false} Line5Counts9(s: string)
    requires Spells(s, Line5Row)
    ensures Arrangements(s[2..], [1, 6, 5]) == 2
  {
    Line5Counts7(s);
    Line5Counts8(s);
    Line5Run2(s);
    PlaceIs(s, 2, [1, 6, 5], 4, 1, 1);
  }

  lemma {:induction false} Line5Counts10(s: string)
    requires Spells(s, Line5Row)
    ensures Arrangements(s[3..], [6, 5]) == 1
  {
    Line5Counts8(s);
    Line5Run3(s);
    BlockedIs(s, 3, [6, 5], 1);
  }

  lemma {:induction false} Line5Counts11(s: string)
    requires Spells(s, Line5Row)
    ensures Arrangements(s[1..], [1, 6, 5]) == 3
  {
    Line5Counts9(s);
    Line5Counts10(s);
    Line5Run1(s);
    PlaceIs(s, 1, [1, 6, 5], 3, 2, 1);
  }

  lemma {:induction false} Line5Counts12(s: string)
    requires Spells(s, Line5Row)
    ensures Arrangements(s[2..], [6, 5]) == 1
  {
    Line5Counts10(s);
    Line5Run2(s);
    BlockedIs(s, 2, [6, 5], 1);
  }

  lemma {:induction false} Line5Counts13(s: string)
    requires Spells(s, Line5Row)
    ensures Arrangements(s[0..], [1, 6, 5]) == 4
  {
    Line5Counts11(s);
    Line5Counts12(s);
    Line5Run0(s);
    PlaceIs(s, 0, [1, 6, 5], 2, 3, 1);
  }

  /** `????.######..#####. 1,6,5`, the fifth row: 4 arrangements. */
  lemma {:induction false} ExampleLine5()
    ensures Arrangements(Line5Row, [1, 6, 5]) == 4
  {
    Line5Counts13(Line5Row);
    assert Line5Row[0..] == Line5Row;
  }

  const Line6Row: string := "?###????????"

  lemma {:induction false} Line6Run12(s: string)
    requires Spells(s, Line6Row)
    ensures RunLength(s, 12) == 0
  {
    RunStops(s, 12);
  }

  lemma {:induction false} Line6Run11(s: string)
    requires Spells(s, Line6Row)
    ensures RunLength(s, 11) == 1
  {
    Line6Run12(s);
    RunIs(s, 11, 0);
  }

  lemma {:induction false} Line6Run10(s: string)
    requires Spells(s, Line6Row)
    ensures RunLength(s, 10) == 2
  {
    Line6Run11(s);
    RunIs(s, 10, 1);
  }

  lemma {:induction false} Line6Run9(s: string)
    requires Spells(s, Line6Row)
    ensures RunLength(s, 9) == 3
  {
    Line6Run10(s);
    RunIs(s, 9, 2);
  }

  lemma {:induction false} Line6Run8(s: string)
    requires Spells(s, Line6Row)
    ensures RunLength(s, 8) == 4
  {
    Line6Run9(s);
    RunIs(s, 8, 3);
  }

  lemma {:induction false} Line6Run7(s: string)
    requires Spells(s, Line6Row)
    ensures RunLength(s, 7) == 5
  {
    Line6Run8(s);
    RunIs(s, 7, 4);
  }

  lemma {:induction false} Line6Run6(s: string)
    requires Spells(s, Line6Row)
    ensures RunLength(s, 6) == 6
  {
    Line6Run7(s);
    RunIs(s, 6, 5);
  }

  lemma {:induction false} Line6Run5(s: string)
    requires Spells(s, Line6Row)
    ensures RunLength(s, 5) == 7
  {
    Line6Run6(s);
    RunIs(s, 5, 6);
  }

  lemma {:induction false} Line6Run4(s: string)
    requires Spells(s, Line6Row)
    ensures RunLength(s, 4) == 8
  {
    Line6Run5(s);
    RunIs(s, 4, 7);
  }

  lemma {:induction false} Line6Run3(s: string)
    requires Spells(s, Line6Row)
    ensures RunLength(s, 3) == 9
  {
    Line6Run4(s);
    RunIs(s, 3, 8);
  }

  lemma {:induction false} Line6Run2(s: string)
    requires Spells(s, Line6Row)
    ensures RunLength(s, 2) == 10
  {
    Line6Run3(s);
    RunIs(s, 2, 9);
  }

  lemma {:induction false} Line6Run1(s: string)
    requires Spells(s, Line6Row)
    ensures RunLength(s, 1) == 11
  {
    Line6Run2(s);
    RunIs(s, 1, 10);
  }

  lemma {:induction false} Line6Run0(s: string)
    requires Spells(s, Line6Row)
    ensures RunLength(s, 0) == 12
  {
    Line6Run1(s);
    RunIs(s, 0, 11);
  }

  lemma {:induction false} Line6Counts1(s: string)
    requires Spells(s, Line6Row)
    ensures Arrangements(s[9..], [2, 1]) == 0
  {
    TooShort(s[9..], [2, 1]);
  }

  lemma {:induction false} Line6Counts2(s: string)
    requires Spells(s, Line6Row)
    ensures Arrangements(s[12..], [1]) == 0
  {
    TooShort(s[12..], [1]);
  }

  lemma {:induction false} Line6Counts3(s: string)
    requires Spells(s, Line6Row)
    ensures Arrangements(s[12..], []) == 1
  {
    assert s[12..] == [];
    NoGroupsLeft(s[12..]);
  }

  lemma {:induction false} Line6Counts4(s: string)
    requires Spells(s, Line6Row)
    ensures Arrangements(s[11..], [1]) == 1
  {
    Line6Counts2(s);
    Line6Counts3(s);
    Line6Run11(s);
    PlaceIs(s, 11, [1], 12, 0, 1);
  }

  lemma {:induction false} Line6Counts5(s: string)
    requires Spells(s, Line6Row)
    ensures Arrangements(s[8..], [2, 1]) == 1
  {
    Line6Counts1(s);
    Line6Counts4(s);
    Line6Run8(s);
    PlaceIs(s, 8, [2, 1], 11, 0, 1);
  }

  lemma {:induction false} Line6Counts6(s: string)
    requires Spells(s, Line6Row)
    ensures Arrangements(s[10..], [1]) == 2
  {
    Line6Counts4(s);
    Line6Counts3(s);
    Line6Run10(s);
    PlaceIs(s, 10, [1], 12, 1, 1);
  }

  lemma {:induction false} Line6Counts7(s: string)
    requires Spells(s, Line6Row)
    ensures Arrangements(s[7..], [2, 1]) == 3
  {
    Line6Counts5(s);
    Line6Counts6(s);
    Line6Run7(s);
    PlaceIs(s, 7, [2, 1], 10, 1, 2);
  }

  lemma {:induction false} Line6Counts8(s: string)
    requires Spells(s, Line6Row)
    ensures Arrangements(s[11..], []) == 1
  {
    assert s[11..] == "?";
    NoGroupsLeft(s[11..]);
  }

  lemma {:induction false} Line6Counts9(s: string)
    requires Spells(s, Line6Row)
    ensures Arrangements(s[9..], [1]) == 3
  {
    Line6Counts6(s);
    Line6Counts8(s);
    Line6Run9(s);
    PlaceIs(s, 9, [1], 11, 2, 1);
  }

  lemma {:induction false} Line6Counts10(s: string)
    requires Spells(s, Line6Row)
    ensures Arrangements(s[6..], [2, 1]) == 6
  {
    Line6Counts7(s);
    Line6Counts9(s);
    Line6Run6(s);
    PlaceIs(s, 6, [2, 1], 9, 3, 3);
  }

  lemma {:induction false} Line6Counts11(s: string)
    requires Spells(s, Line6Row)
    ensures Arrangements(s[10..], []) == 1
  {
    assert s[10..] == "??";
    NoGroupsLeft(s[10..]);
  }

  lemma {:induction false} Line6Counts12(s: string)
    requires Spells(s, Line6Row)
    ensures Arrangements(s[8..], [1]) == 4
  {
    Line6Counts9(s);
    Line6Counts11(s);
    Line6Run8(s);
    PlaceIs(s, 8, [1], 10, 3, 1);
  }

  lemma {:induction false} Line6Counts13(s: string)
    requires Spells(s, Line6Row)
    ensures Arrangements(s[5..], [2, 1]) == 10
  {
    Line6Counts10(s);
    Line6Counts12(s);
    Line6Run5(s);
    PlaceIs(s, 5, [2, 1], 8, 6, 4);
  }

  lemma {:induction false} Line6Counts14(s: string)
    requires Spells(s, Line6Row)
    ensures Arrangements(s[1..], [3, 2, 1]) == 10
  {
    Line6Counts13(s);
    Line6Run1(s);
    PlaceBroken(s, 1, [3, 2, 1], 5, 10);
  }

  lemma {:induction false} Line6Counts15(s: string)
    requires Spells(s, Line6Row)
    ensures Arrangements(s[0..], [3, 2, 1]) == 10
  {
    Line6Counts14(s);
    Line6Run0(s);
    BlockedIs(s, 0, [3, 2, 1], 10);
  }

  /** `?###???????? 3,2,1`, the sixth row: 10 arrangements. */
  lemma {:induction false} ExampleLine6()
    ensures Arrangements(Line6Row, [3, 2, 1]) == 10
  {
    Line6Counts15(Line6Row);
    assert Line6Row[0..] == Line6Row;
  }

  const TrivialRow: string := ".#...#....###."

  lemma {:induction false} TrivialRun13(s: string)
    requires Spells(s, TrivialRow)
    ensures RunLength(s, 13) == 0
  {
    RunStops(s, 13);
  }

  lemma {:induction false} TrivialRun12(s: string)
    requires Spells(s, TrivialRow)
    ensures RunLength(s, 12) == 1
  {
    TrivialRun13(s);
    RunIs(s, 12, 0);
  }

  lemma {:induction false} TrivialRun11(s: string)
    requires Spells(s, TrivialRow)
    ensures RunLength(s, 11) == 2
  {
    TrivialRun12(s);
    RunIs(s, 11, 1);
  }

  lemma {:induction false} TrivialRun10(s: string)
    requires Spells(s, TrivialRow)
    ensures RunLength(s, 10) == 3
  {
    TrivialRun11(s);
    RunIs(s, 10, 2);
  }

  lemma {:induction false} TrivialRun6(s: string)
    requires Spells(s, TrivialRow)
    ensures RunLength(s, 6) == 0
  {
    RunStops(s, 6);
  }

  lemma {:induction false} TrivialRun5(s: string)
    requires Spells(s, TrivialRow)
    ensures RunLength(s, 5) == 1
  {
    TrivialRun6(s);
    RunIs(s, 5, 0);
  }

  lemma {:induction false} TrivialRun2(s: string)
    requires Spells(s, TrivialRow)
    ensures RunLength(s, 2) == 0
  {
    RunStops(s, 2);
  }

  lemma {:induction false} TrivialRun1(s: string)
    requires Spells(s, TrivialRow)
    ensures RunLength(s, 1) == 1
  {
    TrivialRun2(s);
    RunIs(s, 1, 0);
  }

  lemma {:induction false} TrivialCounts1(s: string)
    requires Spells(s, TrivialRow)
    ensures Arrangements(s[14..], []) == 1
  {
    assert s[14..] == [];
    NoGroupsLeft(s[14..]);
  }

  lemma {:induction false} TrivialCounts2(s: string)
    requires Spells(s, TrivialRow)
    ensures Arrangements(s[10..], [3]) == 1
  {
    TrivialCounts1(s);
    TrivialRun10(s);
    PlaceBroken(s, 10, [3], 14, 1);
  }

  lemma {:induction false} TrivialCounts3(s: string)
    requires Spells(s, TrivialRow)
    ensures Arrangements(s[9..], [3]) == 1
  {
    TrivialCounts2(s);
    SkipIs(s, 9, [3], 1);
  }

  lemma {:induction false} TrivialCounts4(s: string)
    requires Spells(s, TrivialRow)
    ensures Arrangements(s[8..], [3]) == 1
  {
    TrivialCounts3(s);
    SkipIs(s, 8, [3], 1);
  }

  lemma {:induction false} TrivialCounts5(s: string)
    requires Spells(s, TrivialRow)
    ensures Arrangements(s[7..], [3]) == 1
  {
    TrivialCounts4(s);
    SkipIs(s, 7, [3], 1);
  }

  lemma {:induction false} TrivialCounts6(s: string)
    requires Spells(s, TrivialRow)
    ensures Arrangements(s[5..], [1, 3]) == 1
  {
    TrivialCounts5(s);
    TrivialRun5(s);
    PlaceBroken(s, 5, [1, 3], 7, 1);
  }

  lemma {:induction false} TrivialCounts7(s: string)
    requires Spells(s, TrivialRow)
    ensures Arrangements(s[4..], [1, 3]) == 1
  {
    TrivialCounts6(s);
    SkipIs(s, 4, [1, 3], 1);
  }

  lemma {:induction false} TrivialCounts8(s: string)
    requires Spells(s, TrivialRow)
    ensures Arrangements(s[3..], [1, 3]) == 1
  {
    TrivialCounts7(s);
    SkipIs(s, 3, [1, 3], 1);
  }

  lemma {:induction false} TrivialCounts9(s: string)
    requires Spells(s, TrivialRow)
    ensures Arrangements(s[1..], [1, 1, 3]) == 1
  {
    TrivialCounts8(s);
    TrivialRun1(s);
    PlaceBroken(s, 1, [1, 1, 3], 3, 1);
  }

  lemma {:induction false} TrivialCounts10(s: string)
    requires Spells(s, TrivialRow)
    ensures Arrangements(s[0..], [1, 1, 3]) == 1
  {
    TrivialCounts9(s);
    SkipIs(s, 0, [1, 1, 3], 1);
  }

  /** `.#...#....###. 1,1,3`, a row with no unknown status: 1 arrangement. */
  lemma {:induction false} ExampleTrivial()
    ensures Arrangements(TrivialRow, [1, 1, 3]) == 1
  {
    TrivialCounts10(TrivialRow);
    assert TrivialRow[0..] == TrivialRow;
  }
  /** `part1` of the six-row example input: 21. */
  lemma {:induction false} ExamplePart1(rows: seq<Row>)
    requires |rows| == 6
    requires rows[0] == Row(Line1Row, [1, 1, 3]) && rows[1] == Row(Line2Row, [1, 1, 3])
    requires rows[2] == Row(Line3Row, [1, 3, 1, 6]) && rows[3] == Row(Line4Row, [4, 1, 1])
    requires rows[4] == Row(Line5Row, [1, 6, 5]) && rows[5] == Row(Line6Row, [3, 2, 1])
    ensures Part1(rows) == 21
  {
    assert rows[6..] == [];
    assert Part1(rows[5..]) == 10 by {
      ExampleLine6();
      assert rows[5..][1..] == rows[6..];
    }
    assert Part1(rows[4..]) == 14 by {
      ExampleLine5();
      assert rows[4..][1..] == rows[5..];
    }
    assert Part1(rows[3..]) == 15 by {
      ExampleLine4();
      assert rows[3..][1..] == rows[4..];
    }
    assert Part1(rows[2..]) == 16 by {
      ExampleLine3();
      assert rows[2..][1..] == rows[3..];
    }
    assert Part1(rows[1..]) == 20 by {
      ExampleLine2();
      assert rows[1..][1..] == rows[2..];
    }
    ExampleLine1();
  }
}
