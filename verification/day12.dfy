/**
 * day_12.ts: counting the arrangements of broken springs. A row lists spring
 * statuses (`.` working, `#` broken, `?` unknown) and the lengths of the
 * contiguous groups of broken springs, in order. `countCombinations` tries
 * every position that could start the first group and recurses on what
 * follows the group and its separator; `part2RowTransform` unfolds a row into
 * five copies.
 *
 * The arrangements are also defined independently, one status at a time
 * (`Arrangements`), and the source's candidate-start recursion is proved to
 * compute that count.
 */
module Day12 {
  import opened Text

  /** A parsed row: the statuses and the broken-group lengths. */
  datatype Row = Row(statuses: string, groups: seq<nat>)

  /** A status the pattern `[#?]` matches: a spring that is or may be broken. */
  predicate MaybeBroken(c: char) {
    c == '#' || c == '?'
  }

  /** The length of the run of `#`/`?` statuses starting at `i` (what `/^[#?]+/` matches there, 0 when nothing). */
  function RunLength(s: string, i: nat): (n: nat)
    ensures i + n <= |s| || n == 0
    ensures forall k :: i <= k < i + n ==> MaybeBroken(s[k])
    ensures i + n < |s| ==> !MaybeBroken(s[i + n])
    decreases |s| - i
  {
    if i < |s| && MaybeBroken(s[i]) then 1 + RunLength(s, i + 1) else 0
  }

  /** `groups.reduce((a, b) => a + b + 1, 0)`: every group with one separator after it. */
  function Spaced(groups: seq<nat>): nat {
    if groups == [] then 0 else groups[0] + 1 + Spaced(groups[1..])
  }

  /** `minimumStatusesToFillExpectedBrokenGroupLengths`: the groups with one separator between neighbours. */
  function MinimumLength(groups: seq<nat>): int {
    Spaced(groups) - 1
  }

  /** `s.indexOf(c)`: the first index of `c`, or -1. */
  function IndexOf(s: string, c: char): (r: int)
    ensures r == -1 <==> c !in s
    ensures r != -1 ==> 0 <= r < |s| && s[r] == c && c !in s[..r]
  {
    if s == [] then -1
    else if s[0] == c then 0
    else
      var k := IndexOf(s[1..], c);
      assert s == [s[0]] + s[1..];
      if k == -1 then -1 else (assert s[..k + 1] == [s[0]] + s[1..][..k]; k + 1)
  }

  /** The end index `s.slice(0, end)` uses: a negative end counts from the back, and the result is clamped to the string. */
  function SliceEnd(len: nat, end: int): (r: nat)
    ensures r <= len
    ensures 0 <= end <= len ==> r == end
    ensures end > len ==> r == len
    ensures end < 0 ==> r == (if len + end < 0 then 0 else len + end)
  {
    if end < 0 then (if len + end < 0 then 0 else len + end)
    else if end > len then len
    else end
  }

  /** `lastIndexToConsiderForStart`: past it the groups cannot fit, and no start may lie after the first `#`. */
  function LastStart(s: string, groups: seq<nat>): int {
    var last := |s| - MinimumLength(groups);
    var firstKnownBroken := IndexOf(s, '#');
    if firstKnownBroken != -1 && firstKnownBroken < last then firstKnownBroken else last
  }

  /** The statuses after a group of length `g` started at `i` and its separator (`slice(i + g + 1)`). */
  function Rest(s: string, i: nat, g: nat): (r: string)
    ensures i < |s| ==> |r| < |s| - i
    ensures i + g + 1 <= |s| ==> r == s[i + g + 1..]
    ensures i + g + 1 > |s| ==> r == []
  {
    if i + g + 1 <= |s| then s[i + g + 1..] else []
  }

  /**
   * A group of length `g` can start at `i`: the status there may be broken,
   * the run of `#`/`?` from there is long enough, and the status just after
   * the group (if any) is not a known broken spring.
   */
  predicate Accepted(s: string, g: nat, i: nat) {
    i < |s| && MaybeBroken(s[i]) && RunLength(s, i) >= g && !(i + g < |s| && s[i + g] == '#')
  }

  /**
   * The number of ways to read each `?` as `.` or `#` so that the broken
   * groups are exactly `groups`, decided one status at a time: a status that
   * is not `#` may be working, and a status that may be broken may start the
   * next group.
   */
  function Arrangements(s: string, groups: seq<nat>): nat
    decreases |s|
  {
    if s == [] then (if groups == [] then 1 else 0)
    else
      (if s[0] == '#' then 0 else Arrangements(s[1..], groups))
      + (if groups != [] && Accepted(s, groups[0], 0) then Arrangements(Rest(s, 0, groups[0]), groups[1..]) else 0)
  }

  /** With no group left there is exactly one arrangement when no spring is known broken, and none otherwise. */
  lemma {:induction false} NoGroupsLeft(s: string)
    ensures Arrangements(s, []) == if '#' in s then 0 else 1
    decreases |s|
  {
    if s != [] {
      assert s == [s[0]] + s[1..];
      NoGroupsLeft(s[1..]);
    }
  }

  /** With groups left and no status left there is no arrangement. */
  lemma {:induction false} NoStatusesLeft(groups: seq<nat>)
    requires groups != []
    ensures Arrangements([], groups) == 0
  {
  }

  // Readings: every `?` decided

  /** Statuses as the puzzle writes them: `.`, `#` or `?`. */
  predicate Statuses(s: string) {
    forall i :: 0 <= i < |s| ==> s[i] == '.' || s[i] == '#' || s[i] == '?'
  }

  /** `t` reads every `?` of `s` as `.` or `#` and keeps every known status. */
  predicate ReadsAs(s: string, t: string) {
    |t| == |s| && forall i :: 0 <= i < |s| ==> (t[i] == '.' || t[i] == '#') && (s[i] != '?' ==> t[i] == s[i])
  }

  /** The number of `#` at the front of `t`. */
  function BrokenRun(t: string): (n: nat)
    ensures n <= |t| && (forall i :: 0 <= i < n ==> t[i] == '#') && (n < |t| ==> t[n] != '#')
  {
    if t != [] && t[0] == '#' then 1 + BrokenRun(t[1..]) else 0
  }

  /** The lengths of the groups of `#` in a row, in order. */
  function BrokenGroups(t: string): (r: seq<nat>)
    ensures forall k :: 0 <= k < |r| ==> r[k] >= 1
    decreases |t|
  {
    if t == [] then []
    else if t[0] != '#' then BrokenGroups(t[1..])
    else [BrokenRun(t)] + BrokenGroups(t[BrokenRun(t)..])
  }

  /** A run of statuses that may be broken is at least as long as any stretch of them. */
  lemma {:induction false} RunLengthAtLeast(s: string, i: nat, n: nat)
    requires i + n <= |s| && forall k :: i <= k < i + n ==> MaybeBroken(s[k])
    ensures RunLength(s, i) >= n
    decreases n
  {
    if n > 0 {
      RunLengthAtLeast(s, i + 1, n - 1);
    }
  }

  lemma {:induction false} WorkingFront(t: string)
    requires t != [] && t[0] != '#'
    ensures BrokenGroups(t) == BrokenGroups(t[1..])
  {
  }

  /** A group of `g` broken springs, a working one, then `t`. */
  lemma {:induction false} GroupFront(g: nat, u: string, t: string)
    requires g >= 1 && u == seq(g, _ => '#') + ['.'] + t
    ensures BrokenGroups(u) == [g] + BrokenGroups(t)
  {
    assert BrokenRun(u) == g by {
      assert forall i :: 0 <= i < g ==> u[i] == '#';
      assert u[g] == '.';
      BrokenRunIs(u, g);
    }
    assert u[g..] == ['.'] + t;
    WorkingFront(u[g..]);
    assert u[g..][1..] == t;
  }

  /** A group of `g` broken springs that ends the row. */
  lemma {:induction false} GroupLast(g: nat, u: string)
    requires g >= 1 && u == seq(g, _ => '#')
    ensures BrokenGroups(u) == [g]
  {
    BrokenRunIs(u, g);
    assert u[g..] == [];
  }

  lemma {:induction false} BrokenRunIs(t: string, n: nat)
    requires n <= |t| && (forall i :: 0 <= i < n ==> t[i] == '#') && (n < |t| ==> t[n] != '#')
    ensures BrokenRun(t) == n
    decreases n
  {
    if n > 0 {
      BrokenRunIs(t[1..], n - 1);
    }
  }

  /** A group placed at the front of the row, its separator, then a reading of what is left. */
  lemma {:induction false} GroupReading(s: string, g: nat, rest: string) returns (t: string)
    requires Statuses(s) && g >= 1 && Accepted(s, g, 0) && ReadsAs(Rest(s, 0, g), rest)
    ensures ReadsAs(s, t) && BrokenGroups(t) == [g] + BrokenGroups(rest)
  {
    if g + 1 <= |s| {
      t := seq(g, _ => '#') + ['.'] + rest;
      GroupFront(g, t, rest);
      forall i | 0 <= i < |s| ensures (t[i] == '.' || t[i] == '#') && (s[i] != '?' ==> t[i] == s[i]) {
        if i > g {
          assert t[i] == rest[i - g - 1] && s[g + 1..][i - g - 1] == s[i];
        }
      }
    } else {
      t := seq(g, _ => '#');
      GroupLast(g, t);
    }
  }

  /** Every arrangement the count includes is a reading of the row with exactly those broken groups. */
  lemma {:induction false} ArrangementReading(s: string, groups: seq<nat>) returns (t: string)
    requires Statuses(s) && (forall k :: 0 <= k < |groups| ==> groups[k] >= 1)
    requires Arrangements(s, groups) > 0
    ensures ReadsAs(s, t) && BrokenGroups(t) == groups
    decreases |s|
  {
    if s == [] {
      t := [];
    } else if s[0] != '#' && Arrangements(s[1..], groups) > 0 {
      var rest := ArrangementReading(s[1..], groups);
      t := ['.'] + rest;
      assert t[1..] == rest;
      WorkingFront(t);
    } else {
      var g := groups[0];
      assert Accepted(s, g, 0) && Arrangements(Rest(s, 0, g), groups[1..]) > 0;
      var rest := ArrangementReading(Rest(s, 0, g), groups[1..]);
      t := GroupReading(s, g, rest);
      assert groups == [g] + groups[1..];
    }
  }

  /** A reading that starts with a working spring reads the rest of the row. */
  lemma {:induction false} ReadingWorking(s: string, t: string)
    requires ReadsAs(s, t) && t != [] && t[0] == '.'
    ensures s[0] != '#' && ReadsAs(s[1..], t[1..]) && BrokenGroups(t) == BrokenGroups(t[1..])
  {
    WorkingFront(t);
    forall i | 0 <= i < |s| - 1 ensures (t[1..][i] == '.' || t[1..][i] == '#') && (s[1..][i] != '?' ==> t[1..][i] == s[1..][i]) {
      assert t[1..][i] == t[i + 1] && s[1..][i] == s[i + 1];
    }
  }

  /** A reading that starts with a group of broken springs: the source accepts that group at the front. */
  lemma {:induction false} ReadingGroup(s: string, t: string)
    requires ReadsAs(s, t) && t != [] && t[0] == '#'
    ensures Accepted(s, BrokenRun(t), 0) && BrokenRun(t) >= 1
    ensures ReadsAs(Rest(s, 0, BrokenRun(t)), Rest(t, 0, BrokenRun(t)))
    ensures BrokenGroups(t) == [BrokenRun(t)] + BrokenGroups(Rest(t, 0, BrokenRun(t)))
  {
    var n := BrokenRun(t);
    RunLengthAtLeast(s, 0, n);
    if n < |s| {
      ReadingWorking(s[n..], t[n..]) by {
        forall i | 0 <= i < |s| - n ensures (t[n..][i] == '.' || t[n..][i] == '#') && (s[n..][i] != '?' ==> t[n..][i] == s[n..][i]) {
          assert t[n..][i] == t[n + i] && s[n..][i] == s[n + i];
        }
      }
      assert s[n..][1..] == s[n + 1..] && t[n..][1..] == t[n + 1..];
    } else {
      assert t[n..] == [];
    }
  }

  /** Every reading of the row whose broken groups are `groups` is counted. */
  lemma {:induction false} ReadingArrangement(s: string, groups: seq<nat>, t: string)
    requires ReadsAs(s, t) && BrokenGroups(t) == groups
    ensures Arrangements(s, groups) > 0
    decreases |s|
  {
    if s != [] {
      if t[0] == '.' {
        ReadingWorking(s, t);
        ReadingArrangement(s[1..], groups, t[1..]);
      } else {
        var n := BrokenRun(t);
        ReadingGroup(s, t);
        ReadingArrangement(Rest(s, 0, n), groups[1..], Rest(t, 0, n));
      }
    }
  }

  /**
   * The count is positive exactly when some way of reading each `?` as `.`
   * or `#` gives exactly the listed broken groups.
   */
  lemma {:induction false} ArrangementsReadings(s: string, groups: seq<nat>)
    requires Statuses(s) && forall k :: 0 <= k < |groups| ==> groups[k] >= 1
    ensures Arrangements(s, groups) > 0 <==> exists t :: ReadsAs(s, t) && BrokenGroups(t) == groups
  {
    if Arrangements(s, groups) > 0 {
      var t := ArrangementReading(s, groups);
    }
    forall t | ReadsAs(s, t) && BrokenGroups(t) == groups ensures Arrangements(s, groups) > 0 {
      ReadingArrangement(s, groups, t);
    }
  }

  /** What one candidate start `j` adds to the source's sum. */
  function Contribution(s: string, g: nat, tail: seq<nat>, j: nat): nat {
    if Accepted(s, g, j) then Arrangements(Rest(s, j, g), tail) else 0
  }

  /** The source's sum over the candidate starts before `k`. */
  function CandidateSum(s: string, g: nat, tail: seq<nat>, k: nat): nat {
    if k == 0 then 0 else CandidateSum(s, g, tail, k - 1) + Contribution(s, g, tail, k - 1)
  }

  /** Runs, acceptance and the rest read the same from a suffix. */
  lemma {:induction false} RunLengthSuffix(s: string, k: nat, j: nat)
    requires k <= j && k <= |s|
    ensures RunLength(s[k..], j - k) == RunLength(s, j)
    decreases |s| - j
  {
    if j < |s| && MaybeBroken(s[j]) {
      RunLengthSuffix(s, k, j + 1);
    }
  }

  lemma {:induction false} SuffixContribution(s: string, g: nat, tail: seq<nat>, k: nat)
    requires k < |s|
    ensures (if Accepted(s[k..], g, 0) then Arrangements(Rest(s[k..], 0, g), tail) else 0) == Contribution(s, g, tail, k)
  {
    RunLengthSuffix(s, k, k);
    assert Accepted(s[k..], g, 0) <==> Accepted(s, g, k);
    if k + g + 1 <= |s| {
      assert Rest(s[k..], 0, g) == Rest(s, k, g);
    }
  }

  /**
   * Before the first `#`, reading statuses one at a time is the candidate
   * sum so far plus the arrangements of what is left.
   */
  lemma {:induction false} Unroll(s: string, groups: seq<nat>, k: nat)
    requires groups != [] && k <= |s| && '#' !in s[..k]
    ensures Arrangements(s, groups) == CandidateSum(s, groups[0], groups[1..], k) + Arrangements(s[k..], groups)
  {
    if k == 0 {
      assert s[0..] == s;
    } else {
      assert '#' !in s[..k - 1] by {
        assert s[..k - 1] == s[..k][..k - 1];
      }
      Unroll(s, groups, k - 1);
      var t := s[k - 1..];
      assert Arrangements(t, groups) == Contribution(s, groups[0], groups[1..], k - 1) + Arrangements(s[k..], groups) by {
        assert t[0] == s[k - 1] && s[k - 1] in s[..k];
        assert t[1..] == s[k..];
        SuffixContribution(s, groups[0], groups[1..], k - 1);
      }
    }
  }

  /** Groups longer than the statuses, with their separators, have no arrangement. */
  lemma {:induction false} TooShort(t: string, groups: seq<nat>)
    requires |t| < MinimumLength(groups)
    ensures Arrangements(t, groups) == 0
    decreases |t|
  {
    if t != [] {
      TooShort(t[1..], groups);
      var g, tail := groups[0], groups[1..];
      if Accepted(t, g, 0) {
        if g + 1 <= |t| {
          TooShort(Rest(t, 0, g), tail);
        } else {
          assert tail != [];
        }
      }
    }
  }

  /** A start past `|s| - minimum` leaves too little room for the other groups. */
  lemma {:induction false} BeyondLastStart(s: string, groups: seq<nat>, j: nat)
    requires groups != [] && j > |s| - MinimumLength(groups)
    ensures Contribution(s, groups[0], groups[1..], j) == 0
  {
    var g, tail := groups[0], groups[1..];
    if Accepted(s, g, j) {
      if j + g + 1 <= |s| {
        TooShort(Rest(s, j, g), tail);
      } else {
        assert tail != [];
      }
    }
  }

  lemma {:induction false} CandidateSumUnchanged(s: string, g: nat, tail: seq<nat>, a: nat, b: nat)
    requires a <= b
    requires forall j :: a <= j < b ==> Contribution(s, g, tail, j) == 0
    ensures CandidateSum(s, g, tail, b) == CandidateSum(s, g, tail, a)
    decreases b
  {
    if a < b {
      CandidateSumUnchanged(s, g, tail, a, b - 1);
    }
  }

  /** The candidate sum up to the first `#` (inclusive), or over the whole row when there is none, is the arrangement count. */
  lemma {:induction false} CandidatesUpToFirstBroken(s: string, groups: seq<nat>)
    requires groups != []
    ensures var f := IndexOf(s, '#');
      Arrangements(s, groups) == CandidateSum(s, groups[0], groups[1..], if f == -1 then |s| else f + 1)
  {
    var f := IndexOf(s, '#');
    if f == -1 {
      assert s[..|s|] == s;
      Unroll(s, groups, |s|);
      assert s[|s|..] == [];
    } else {
      Unroll(s, groups, f);
      var t := s[f..];
      assert t[0] == '#';
      SuffixContribution(s, groups[0], groups[1..], f);
    }
  }

  /**
   * The starts the source considers, `statuses.slice(0, lastIndexToConsiderForStart + 1)`,
   * give the arrangement count: the starts it skips add nothing.
   */
  lemma {:induction false} CandidatesCoverArrangements(s: string, groups: seq<nat>)
    requires groups != []
    ensures CandidateSum(s, groups[0], groups[1..], SliceEnd(|s|, LastStart(s, groups) + 1)) == Arrangements(s, groups)
  {
    var g, tail := groups[0], groups[1..];
    var last := |s| - MinimumLength(groups);
    var f := IndexOf(s, '#');
    var limit := if f == -1 then |s| else f + 1;
    var end := SliceEnd(|s|, LastStart(s, groups) + 1);
    CandidatesUpToFirstBroken(s, groups);
    if end <= limit {
      forall j | end <= j < limit ensures Contribution(s, g, tail, j) == 0 {
        BeyondLastStart(s, groups, j);
      }
      CandidateSumUnchanged(s, g, tail, end, limit);
    } else {
      forall j | limit <= j < end ensures Contribution(s, g, tail, j) == 0 {
        BeyondLastStart(s, groups, j);
      }
      CandidateSumUnchanged(s, g, tail, limit, end);
    }
  }

  /**
   * `countCombinations(row)`: the base cases, then a loop over the candidate
   * starts that skips a start whose run is too short or whose group would
   * touch a known broken spring, and sums the recursive counts of the rest.
   */
  method CountCombinations(statuses: string, groups: seq<nat>) returns (combinations: nat)
    ensures combinations == Arrangements(statuses, groups)
    decreases |statuses|, 1
  {
    if |groups| == 0 {
      NoGroupsLeft(statuses);
      return if '#' in statuses then 0 else 1;
    }
    if |statuses| == 0 {
      return 0;
    }
    var next := groups[0];
    var tail := groups[1..];
    var minimum := Spaced(groups) - 1;
    var lastStart := |statuses| - minimum;
    var firstKnownBroken := IndexOf(statuses, '#');
    if firstKnownBroken != -1 && firstKnownBroken < lastStart {
      lastStart := firstKnownBroken;
    }
    var end := SliceEnd(|statuses|, lastStart + 1);
    combinations := SumCandidates(statuses, next, tail, end);
    CandidatesCoverArrangements(statuses, groups);
  }

  /** The candidate loop of `countCombinations`: each start before `end` that can hold the group adds the count of the rest. */
  method SumCandidates(statuses: string, next: nat, tail: seq<nat>, end: nat) returns (combinations: nat)
    requires end <= |statuses|
    ensures combinations == CandidateSum(statuses, next, tail, end)
    decreases |statuses|, 0
  {
    combinations := 0;
    for i := 0 to end
      invariant combinations == CandidateSum(statuses, next, tail, i)
    {
      assert CandidateSum(statuses, next, tail, i + 1) == combinations + Contribution(statuses, next, tail, i);
      if !MaybeBroken(statuses[i]) {
        continue;
      }
      var run := RunLength(statuses, i);
      if run < next {
        continue;
      }
      if i + next < |statuses| && statuses[i + next] == '#' {
        continue;
      }
      assert Accepted(statuses, next, i);
      var rest := CountCombinations(Rest(statuses, i, next), tail);
      combinations := combinations + rest;
    }
  }

  /** `k` times `m`, built by repeated addition. */
  function Times(k: nat, m: nat): nat {
    if k == 0 then 0 else m + Times(k - 1, m)
  }

  lemma {:induction false} TimesIsProduct(k: nat, m: nat)
    ensures Times(k, m) == k * m
  {
    if k > 0 {
      TimesIsProduct(k - 1, m);
    }
  }

  /** `n` copies of `s` joined by `sep`. */
  function Repeat(s: string, sep: char, n: nat): (r: string)
    requires n >= 1
    ensures |r| + 1 == Times(n, |s| + 1)
  {
    if n == 1 then s else s + [sep] + Repeat(s, sep, n - 1)
  }

  /** Copy `k` of `s` starts at `k * (|s| + 1)`. */
  lemma {:induction false} RepeatCopy(s: string, sep: char, n: nat, k: nat)
    requires k < n
    ensures Times(k, |s| + 1) + |s| <= |Repeat(s, sep, n)|
    ensures Repeat(s, sep, n)[Times(k, |s| + 1)..Times(k, |s| + 1) + |s|] == s
    decreases n
  {
    if n > 1 {
      var head := s + [sep];
      var tail := Repeat(s, sep, n - 1);
      assert Repeat(s, sep, n) == head + tail;
      if k > 0 {
        var start, start' := Times(k, |s| + 1), Times(k - 1, |s| + 1);
        RepeatCopy(s, sep, n - 1, k - 1);
        assert (head + tail)[start..start + |s|] == tail[start'..start' + |s|];
      } else {
        assert (head + tail)[..|s|] == s;
      }
    }
  }

  /** A separator follows every copy but the last. */
  lemma {:induction false} RepeatSeparator(s: string, sep: char, n: nat, k: nat)
    requires k < n - 1
    ensures Times(k, |s| + 1) + |s| < |Repeat(s, sep, n)|
    ensures Repeat(s, sep, n)[Times(k, |s| + 1) + |s|] == sep
    decreases n
  {
    var head := s + [sep];
    var tail := Repeat(s, sep, n - 1);
    assert Repeat(s, sep, n) == head + tail;
    if k > 0 {
      RepeatSeparator(s, sep, n - 1, k - 1);
    }
  }

  /** `n` concatenated copies of `xs`. */
  function Concat(xs: seq<nat>, n: nat): (r: seq<nat>)
    ensures |r| == Times(n, |xs|)
  {
    if n == 0 then [] else xs + Concat(xs, n - 1)
  }

  /** Copy `k` of `xs` starts at `k * |xs|`. */
  lemma {:induction false} ConcatCopy(xs: seq<nat>, n: nat, k: nat)
    requires k < n
    ensures Times(k, |xs|) + |xs| <= |Concat(xs, n)|
    ensures Concat(xs, n)[Times(k, |xs|)..Times(k, |xs|) + |xs|] == xs
    decreases n
  {
    var tail := Concat(xs, n - 1);
    assert Concat(xs, n) == xs + tail;
    if k > 0 {
      ConcatCopy(xs, n - 1, k - 1);
      var start' := Times(k - 1, |xs|);
      assert (xs + tail)[Times(k, |xs|)..Times(k, |xs|) + |xs|] == tail[start'..start' + |xs|];
    } else {
      assert (xs + tail)[..|xs|] == xs;
    }
  }

  /** `part2RowTransform`: five copies of the statuses joined by `?`, and the groups five times over. */
  function Part2RowTransform(row: Row): (unfolded: Row)
    ensures |unfolded.statuses| == 5 * |row.statuses| + 4
    ensures |unfolded.groups| == 5 * |row.groups|
  {
    TimesIsProduct(5, |row.statuses| + 1);
    TimesIsProduct(5, |row.groups|);
    Row(Repeat(row.statuses, '?', 5), Concat(row.groups, 5))
  }

  /** Copy `k` of the unfolded statuses is the original, starting at `k * (|statuses| + 1)`. */
  lemma {:induction false} UnfoldedStatuses(row: Row, k: nat)
    requires k < 5
    ensures var u, n := Part2RowTransform(row).statuses, |row.statuses|;
      u[k * (n + 1)..k * (n + 1) + n] == row.statuses
  {
    RepeatCopy(row.statuses, '?', 5, k);
    TimesIsProduct(k, |row.statuses| + 1);
  }

  /** Every copy of the statuses but the last is followed by a `?`. */
  lemma {:induction false} UnfoldedSeparator(row: Row, k: nat)
    requires k < 4
    ensures var u, n := Part2RowTransform(row).statuses, |row.statuses|;
      u[k * (n + 1) + n] == '?'
  {
    RepeatSeparator(row.statuses, '?', 5, k);
    TimesIsProduct(k, |row.statuses| + 1);
  }

  /** Copy `k` of the unfolded groups is the original, starting at `k * |groups|`. */
  lemma {:induction false} UnfoldedGroups(row: Row, k: nat)
    requires k < 5
    ensures var u, m := Part2RowTransform(row).groups, |row.groups|;
      u[k * m..k * m + m] == row.groups
  {
    ConcatCopy(row.groups, 5, k);
    TimesIsProduct(k, |row.groups|);
  }

  /** `part1`: the counts of all rows, summed. */
  function Part1(rows: seq<Row>): nat {
    if rows == [] then 0 else Arrangements(rows[0].statuses, rows[0].groups) + Part1(rows[1..])
  }

  /** `part2`: the counts of all unfolded rows, summed. */
  function Part2(rows: seq<Row>): nat {
    if rows == [] then 0
    else
      var unfolded := Part2RowTransform(rows[0]);
      Arrangements(unfolded.statuses, unfolded.groups) + Part2(rows[1..])
  }

  /** The total over two lists of rows is the sum of their totals. */
  lemma {:induction false} Part1Append(rows: seq<Row>, more: seq<Row>)
    ensures Part1(rows + more) == Part1(rows) + Part1(more)
  {
    if rows == [] {
      assert rows + more == more;
    } else {
      assert (rows + more)[1..] == rows[1..] + more;
      Part1Append(rows[1..], more);
    }
  }

  /** Every row unfolded by `part2RowTransform`. */
  function UnfoldAll(rows: seq<Row>): (unfolded: seq<Row>)
    ensures |unfolded| == |rows|
    ensures forall i :: 0 <= i < |rows| ==> unfolded[i] == Part2RowTransform(rows[i])
  {
    if rows == [] then [] else [Part2RowTransform(rows[0])] + UnfoldAll(rows[1..])
  }

  /** `part2` is `part1`'s count applied to the unfolded rows. */
  lemma {:induction false} Part2IsPart1OfUnfolded(rows: seq<Row>)
    ensures Part2(rows) == Part1(UnfoldAll(rows))
  {
    if rows != [] {
      Part2IsPart1OfUnfolded(rows[1..]);
      assert UnfoldAll(rows)[1..] == UnfoldAll(rows[1..]);
    }
  }
}
