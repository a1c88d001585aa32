/**
 * day_5.ts: the seed almanac. Each map is a table of conversion ranges, each
 * sending `length` consecutive source values starting at `sourceStart` to the
 * values starting at `destStart`; values no range covers map to themselves.
 * The first part maps single seeds through the chain of maps, the second maps
 * whole seed intervals by splitting each interval against the overlapping
 * conversion ranges.
 */
module Day5 {
  import opened Outcomes
  import opened Text

  datatype ConversionRange = ConversionRange(destStart: int, sourceStart: int, length: int)

  /** A run of `length` consecutive values starting at `start` (a conversion range without a destination). */
  datatype Span = Span(start: int, length: int)

  datatype InputMap = InputMap(from: string, to: string, ranges: seq<ConversionRange>)

  datatype InputData = InputData(seeds: seq<int>, maps: seq<InputMap>)

  /** `rangeEnd(range)`: the inclusive source end. */
  function RangeEnd(c: ConversionRange): int {
    c.sourceStart + c.length - 1
  }

  /** The inclusive end of a span. */
  function SpanEnd(s: Span): int {
    s.start + s.length - 1
  }

  /** Whether the interval `[sourceStart, rangeEnd]` holds `v`: exactly the `length` values from `sourceStart` on. */
  predicate Contains(c: ConversionRange, v: int)
    ensures Contains(c, v) <==> c.sourceStart <= v < c.sourceStart + c.length
  {
    c.sourceStart <= v <= RangeEnd(c)
  }

  predicate InSpan(s: Span, v: int) {
    s.start <= v <= SpanEnd(s)
  }

  /** Whether the closed intervals of a conversion range and a span share a value (the interval tree's overlap test). */
  predicate Overlaps(c: ConversionRange, s: Span) {
    c.sourceStart <= SpanEnd(s) && s.start <= RangeEnd(c)
  }

  /** Two conversion ranges whose source intervals are disjoint. */
  predicate Apart(a: ConversionRange, b: ConversionRange) {
    RangeEnd(a) < b.sourceStart || RangeEnd(b) < a.sourceStart
  }

  /** The assumption the source states for a table: no two of its ranges overlap. */
  predicate NonOverlapping(rs: seq<ConversionRange>) {
    forall i, j :: 0 <= i < j < |rs| ==> Apart(rs[i], rs[j])
  }

  predicate PositiveLengths(rs: seq<ConversionRange>) {
    forall i :: 0 <= i < |rs| ==> rs[i].length >= 1
  }

  /** A table the source's assumption holds for: non-empty, pairwise disjoint ranges. */
  predicate WellFormed(m: InputMap) {
    PositiveLengths(m.ranges) && NonOverlapping(m.ranges)
  }

  predicate Distinct(rs: seq<ConversionRange>) {
    forall i, j :: 0 <= i < j < |rs| ==> rs[i] != rs[j]
  }

  /** The first range of the table that contains `v` (the interval tree's point query, taking its first hit). */
  function FirstContaining(rs: seq<ConversionRange>, v: int): (r: Option<ConversionRange>)
    ensures r.None? <==> forall k :: 0 <= k < |rs| ==> !Contains(rs[k], v)
    ensures r.Some? ==> exists k :: 0 <= k < |rs| && rs[k] == r.value && Contains(rs[k], v)
  {
    if rs == [] then None
    else if Contains(rs[0], v) then Some(rs[0])
    else
      var r := FirstContaining(rs[1..], v);
      assert r.Some? ==> exists k :: 1 <= k < |rs| && rs[k] == r.value && Contains(rs[k], v) by {
        if r.Some? {
          var k :| 0 <= k < |rs[1..]| && rs[1..][k] == r.value && Contains(rs[1..][k], v);
          assert rs[k + 1] == r.value;
        }
      }
      r
  }

  /**
   * `mapValue(value, inputMap)`: a value inside a conversion range moves by
   * that range's offset; a value no range covers stays.
   */
  function MapValue(v: int, m: InputMap): (r: int)
    ensures (forall k :: 0 <= k < |m.ranges| ==> !Contains(m.ranges[k], v)) ==> r == v
    ensures NonOverlapping(m.ranges) ==>
              forall k :: 0 <= k < |m.ranges| && Contains(m.ranges[k], v) ==> r == m.ranges[k].destStart + (v - m.ranges[k].sourceStart)
  {
    match FirstContaining(m.ranges, v)
    case Some(c) => c.destStart + (v - c.sourceStart)
    case None => v
  }

  /** The ranges of the table that overlap the span, in table order (the interval tree's overlap query). */
  function Relevant(rs: seq<ConversionRange>, s: Span): (r: seq<ConversionRange>)
    ensures forall c :: c in r <==> c in rs && Overlaps(c, s)
    ensures Distinct(rs) ==> Distinct(r)
    ensures r == [] <==> forall k :: 0 <= k < |rs| ==> !Overlaps(rs[k], s)
  {
    if rs == [] then []
    else
      var tail := Relevant(rs[1..], s);
      assert Distinct(rs) ==> rs[0] !in rs[1..] && Distinct(rs[1..]);
      if Overlaps(rs[0], s) then [rs[0]] + tail else tail
  }

  predicate SortedByStart(rs: seq<ConversionRange>) {
    forall i, j :: 0 <= i < j < |rs| ==> rs[i].sourceStart <= rs[j].sourceStart
  }

  /** Inserting into a list sorted by source start, before the first range that starts at or after it. */
  function Insert(x: ConversionRange, rs: seq<ConversionRange>): (r: seq<ConversionRange>)
    requires SortedByStart(rs)
    ensures SortedByStart(r)
    ensures multiset(r) == multiset(rs) + multiset{x}
    ensures x !in rs && Distinct(rs) ==> Distinct(r)
  {
    if rs == [] || x.sourceStart <= rs[0].sourceStart then [x] + rs
    else
      var tail := Insert(x, rs[1..]);
      InsertHead(x, rs, tail);
      [rs[0]] + tail
  }

  lemma {:induction false} InsertHead(x: ConversionRange, rs: seq<ConversionRange>, tail: seq<ConversionRange>)
    requires rs != [] && SortedByStart(rs) && x.sourceStart > rs[0].sourceStart
    requires SortedByStart(tail) && multiset(tail) == multiset(rs[1..]) + multiset{x}
    requires x !in rs[1..] && Distinct(rs[1..]) ==> Distinct(tail)
    ensures SortedByStart([rs[0]] + tail)
    ensures multiset([rs[0]] + tail) == multiset(rs) + multiset{x}
    ensures x !in rs && Distinct(rs) ==> Distinct([rs[0]] + tail)
  {
    assert rs == [rs[0]] + rs[1..];
    forall j | 0 <= j < |tail| ensures rs[0].sourceStart <= tail[j].sourceStart {
      assert tail[j] in multiset(tail);
      if tail[j] != x {
        assert tail[j] in multiset(rs[1..]);
        var k :| 0 <= k < |rs[1..]| && rs[1..][k] == tail[j];
        assert rs[k + 1] == tail[j];
      }
    }
    var r := [rs[0]] + tail;
    forall i, j | 0 <= i < j < |r| ensures r[i].sourceStart <= r[j].sourceStart {
      if i > 0 {
        assert r[i] == tail[i - 1] && r[j] == tail[j - 1];
      } else {
        assert r[j] == tail[j - 1];
      }
    }
    if x !in rs && Distinct(rs) {
      assert rs[0] !in rs[1..];
      assert rs[0] !in multiset(tail);
      InsertHeadDistinct(rs, tail);
    }
  }

  lemma {:induction false} InsertHeadDistinct(rs: seq<ConversionRange>, tail: seq<ConversionRange>)
    requires rs != [] && Distinct(rs) && Distinct(tail) && rs[0] !in multiset(tail)
    ensures Distinct([rs[0]] + tail)
  {
    var r := [rs[0]] + tail;
    forall i, j | 0 <= i < j < |r| ensures r[i] != r[j] {
      if i == 0 {
        assert r[j] == tail[j - 1] && r[j] in multiset(tail);
      } else {
        assert r[i] == tail[i - 1] && r[j] == tail[j - 1];
      }
    }
  }

  /** `toSorted((a, b) => a.sourceStart - b.sourceStart)`, as an insertion sort. */
  function SortByStart(rs: seq<ConversionRange>): (r: seq<ConversionRange>)
    ensures SortedByStart(r)
    ensures multiset(r) == multiset(rs)
    ensures Distinct(rs) ==> Distinct(r)
  {
    if rs == [] then []
    else
      var tail := SortByStart(rs[1..]);
      SortHead(rs, tail);
      Insert(rs[0], tail)
  }

  lemma {:induction false} SortHead(rs: seq<ConversionRange>, tail: seq<ConversionRange>)
    requires rs != [] && multiset(tail) == multiset(rs[1..])
    requires Distinct(rs[1..]) ==> Distinct(tail)
    ensures multiset(rs) == multiset(tail) + multiset{rs[0]}
    ensures Distinct(rs) ==> rs[0] !in tail && Distinct(tail)
  {
    assert rs == [rs[0]] + rs[1..];
    if Distinct(rs) {
      assert rs[0] !in rs[1..];
      assert rs[0] !in multiset(rs[1..]);
    }
  }

  function Max(a: int, b: int): int {
    if a < b then b else a
  }

  function Min(a: int, b: int): int {
    if a < b then a else b
  }

  /**
   * A relevant conversion range clipped to the span: it keeps the values both
   * share and the conversion's offset.
   */
  function Clip(c: ConversionRange, s: Span): (r: ConversionRange)
    ensures r.sourceStart >= c.sourceStart && r.sourceStart >= s.start
    ensures RangeEnd(r) <= RangeEnd(c) && RangeEnd(r) <= SpanEnd(s)
    ensures r.destStart - r.sourceStart == c.destStart - c.sourceStart
    ensures Overlaps(c, s) && c.length >= 1 && s.length >= 1 ==> r.length >= 1
    ensures forall v :: Contains(r, v) <==> Contains(c, v) && InSpan(s, v)
  {
    var sourceStart := Max(c.sourceStart, s.start);
    var sourceEnd := Min(RangeEnd(c), SpanEnd(s));
    ConversionRange(c.destStart + (sourceStart - c.sourceStart), sourceStart, sourceEnd - sourceStart + 1)
  }

  function ClipAll(rs: seq<ConversionRange>, s: Span): (r: seq<ConversionRange>)
    ensures |r| == |rs| && forall i :: 0 <= i < |rs| ==> r[i] == Clip(rs[i], s)
  {
    seq(|rs|, i requires 0 <= i < |rs| => Clip(rs[i], s))
  }

  /** The identity conversion of `length` values from `position` on. */
  function Identity(position: int, length: int): ConversionRange {
    ConversionRange(position, position, length)
  }

  /**
   * The effective conversion ranges: the clipped ranges in order, with an
   * identity range for every gap before, between and after them, from
   * `position` up to `end`.
   */
  function GapFill(position: int, cs: seq<ConversionRange>, end: int): seq<ConversionRange>
    decreases |cs|
  {
    if cs == [] then
      if position <= end then [Identity(position, end - position + 1)] else []
    else
      (if cs[0].sourceStart > position then [Identity(position, cs[0].sourceStart - position)] else [])
      + [cs[0]] + GapFill(RangeEnd(cs[0]) + 1, cs[1..], end)
  }

  /** The relevant ranges of the table, sorted by source start. */
  function SortedRelevant(s: Span, m: InputMap): seq<ConversionRange> {
    SortByStart(Relevant(m.ranges, s))
  }

  /** The relevant ranges of the table, sorted by source start and clipped to the span. */
  function ClippedRelevant(s: Span, m: InputMap): seq<ConversionRange> {
    ClipAll(SortedRelevant(s, m), s)
  }

  function Effective(s: Span, m: InputMap): seq<ConversionRange> {
    GapFill(s.start, ClippedRelevant(s, m), SpanEnd(s))
  }

  /** The output span of one effective range. */
  function Convert(s: Span, c: ConversionRange): Span {
    Span(c.destStart + Max(0, s.start - c.sourceStart), c.length)
  }

  /** What `mapRange(range, inputMap)` returns: one output span per effective range. */
  function MapRangeOf(s: Span, m: InputMap): (r: seq<Span>)
    ensures |r| == |Effective(s, m)|
  {
    var eff := Effective(s, m);
    seq(|eff|, i requires 0 <= i < |eff| => Convert(s, eff[i]))
  }

  /**
   * The gap-filling loop of `mapRange`: walk the clipped ranges in order,
   * pushing an identity range for each gap and then the range itself.
   */
  method FillGaps(start: int, clipped: seq<ConversionRange>, end: int) returns (effective: seq<ConversionRange>)
    ensures effective == GapFill(start, clipped, end)
  {
    effective := [];
    var currentPosition := start;
    for i := 0 to |clipped|
      invariant effective + GapFill(currentPosition, clipped[i..], end) == GapFill(start, clipped, end)
    {
      var c := clipped[i];
      GapFillAt(effective, currentPosition, clipped, i, end);
      if c.sourceStart > currentPosition {
        effective := effective + [Identity(currentPosition, c.sourceStart - currentPosition)];
      }
      effective := effective + [c];
      currentPosition := RangeEnd(c) + 1;
    }
    assert clipped[|clipped|..] == [];
    assert effective + GapFill(currentPosition, [], end) == GapFill(start, clipped, end);
    if currentPosition <= end {
      effective := effective + [Identity(currentPosition, end - currentPosition + 1)];
    }
  }

  /** One step of the gap fill, taken at the `i`-th clipped range after `done` has been emitted. */
  lemma {:induction false} GapFillAt(done: seq<ConversionRange>, position: int, clipped: seq<ConversionRange>, i: int, end: int)
    requires 0 <= i < |clipped|
    ensures done + GapFill(position, clipped[i..], end)
      == (if clipped[i].sourceStart > position then done + [Identity(position, clipped[i].sourceStart - position)] else done)
      + [clipped[i]] + GapFill(RangeEnd(clipped[i]) + 1, clipped[i + 1..], end)
  {
    assert clipped[i..][0] == clipped[i] && clipped[i..][1..] == clipped[i + 1..];
    var gap := if clipped[i].sourceStart > position then [Identity(position, clipped[i].sourceStart - position)] else [];
    var rest := GapFill(RangeEnd(clipped[i]) + 1, clipped[i + 1..], end);
    assert GapFill(position, clipped[i..], end) == gap + [clipped[i]] + rest;
    assert done + (gap + [clipped[i]] + rest) == (done + gap) + [clipped[i]] + rest;
  }

  /** `mapRange(range, inputMap)`: sort and clip the overlapping ranges, fill the gaps, convert each effective range. */
  method MapRange(range: Span, inputMap: InputMap) returns (results: seq<Span>)
    ensures results == MapRangeOf(range, inputMap)
  {
    var clipped := ClipAll(SortByStart(Relevant(inputMap.ranges, range)), range);
    var effective := FillGaps(range.start, clipped, SpanEnd(range));
    results := seq(|effective|, k requires 0 <= k < |effective| => Convert(range, effective[k]));
  }

  /**
   * Clipped ranges as the gap fill expects them: each non-empty and inside
   * `[position, end]`, and each ending before the next one starts.
   */
  predicate ChainedWithin(cs: seq<ConversionRange>, position: int, end: int) {
    && (forall i :: 0 <= i < |cs| ==> position <= cs[i].sourceStart && cs[i].length >= 1 && RangeEnd(cs[i]) <= end)
    && (forall i, j :: 0 <= i < j < |cs| ==> RangeEnd(cs[i]) < cs[j].sourceStart)
  }

  /** The pieces are non-empty and cover `[from, to]` one after another, without gaps or overlaps. */
  predicate Tiles(pieces: seq<ConversionRange>, from: int, to: int)
    decreases |pieces|
  {
    if pieces == [] then from == to + 1
    else pieces[0].sourceStart == from && pieces[0].length >= 1 && Tiles(pieces[1..], RangeEnd(pieces[0]) + 1, to)
  }

  function SumLengths(pieces: seq<ConversionRange>): int {
    if pieces == [] then 0 else pieces[0].length + SumLengths(pieces[1..])
  }

  /** Pieces that tile an interval have lengths summing to its size. */
  lemma {:induction false} TilesLength(pieces: seq<ConversionRange>, from: int, to: int)
    requires Tiles(pieces, from, to)
    ensures SumLengths(pieces) == to - from + 1
    decreases |pieces|
  {
    if pieces != [] {
      TilesLength(pieces[1..], RangeEnd(pieces[0]) + 1, to);
    }
  }

  /** The gap fill of chained ranges covers `[position, end]` exactly, in order. */
  lemma {:induction false} GapFillTiles(position: int, cs: seq<ConversionRange>, end: int)
    requires ChainedWithin(cs, position, end) && position <= end + 1
    ensures Tiles(GapFill(position, cs, end), position, end)
    decreases |cs|
  {
    if cs != [] {
      var c := cs[0];
      var next := RangeEnd(c) + 1;
      assert ChainedWithin(cs[1..], next, end) by {
        forall i | 0 <= i < |cs[1..]| ensures next <= cs[1..][i].sourceStart {
          assert cs[1..][i] == cs[i + 1];
        }
      }
      GapFillTiles(next, cs[1..], end);
      var rest := GapFill(next, cs[1..], end);
      assert Tiles([c] + rest, c.sourceStart, end) by {
        assert ([c] + rest)[1..] == rest;
      }
      if c.sourceStart > position {
        var pieces := [Identity(position, c.sourceStart - position)] + [c] + rest;
        assert pieces[1..] == [c] + rest;
      }
    }
  }

  /** Distinct non-empty ranges of a well-formed table are disjoint. */
  lemma {:induction false} WellFormedApart(m: InputMap, a: ConversionRange, b: ConversionRange)
    requires WellFormed(m) && a in m.ranges && b in m.ranges && a != b
    ensures Apart(a, b) && a.length >= 1
  {
    var rs := m.ranges;
    var ka :| 0 <= ka < |rs| && rs[ka] == a;
    var kb :| 0 <= kb < |rs| && rs[kb] == b;
    if ka < kb { assert Apart(rs[ka], rs[kb]); } else { assert Apart(rs[kb], rs[ka]); }
  }

  lemma {:induction false} WellFormedDistinct(m: InputMap)
    requires WellFormed(m)
    ensures Distinct(m.ranges)
  {
    var rs := m.ranges;
    forall i, j | 0 <= i < j < |rs| ensures rs[i] != rs[j] {
      assert Apart(rs[i], rs[j]);
    }
  }

  /** The relevant ranges in sorted order: each overlaps the span, and each ends before the next starts. */
  lemma {:induction false} SortedRelevantChained(s: Span, m: InputMap)
    requires WellFormed(m)
    ensures forall i :: 0 <= i < |SortedRelevant(s, m)| ==>
              SortedRelevant(s, m)[i] in m.ranges && Overlaps(SortedRelevant(s, m)[i], s) && SortedRelevant(s, m)[i].length >= 1
    ensures forall i, j :: 0 <= i < j < |SortedRelevant(s, m)| ==> RangeEnd(SortedRelevant(s, m)[i]) < SortedRelevant(s, m)[j].sourceStart
  {
    WellFormedDistinct(m);
    var relevant := Relevant(m.ranges, s);
    var sorted := SortedRelevant(s, m);
    forall i | 0 <= i < |sorted| ensures sorted[i] in m.ranges && Overlaps(sorted[i], s) && sorted[i].length >= 1 {
      assert sorted[i] in multiset(sorted);
      assert sorted[i] in relevant;
      var k :| 0 <= k < |m.ranges| && m.ranges[k] == sorted[i];
    }
    forall i, j | 0 <= i < j < |sorted| ensures RangeEnd(sorted[i]) < sorted[j].sourceStart {
      WellFormedApart(m, sorted[i], sorted[j]);
      WellFormedApart(m, sorted[j], sorted[i]);
    }
  }

  /**
   * Under the source's assumption, the sorted and clipped relevant ranges are
   * chained inside the span.
   */
  lemma {:induction false} ClippedRelevantChained(s: Span, m: InputMap)
    requires WellFormed(m) && s.length >= 1
    ensures ChainedWithin(ClippedRelevant(s, m), s.start, SpanEnd(s))
  {
    SortedRelevantChained(s, m);
    var sorted := SortedRelevant(s, m);
    var cs := ClipAll(sorted, s);
    forall i | 0 <= i < |cs| ensures s.start <= cs[i].sourceStart && cs[i].length >= 1 && RangeEnd(cs[i]) <= SpanEnd(s) {
      assert Overlaps(sorted[i], s) && sorted[i].length >= 1;
      assert cs[i] == Clip(sorted[i], s);
    }
    forall i, j | 0 <= i < j < |cs| ensures RangeEnd(cs[i]) < cs[j].sourceStart {
      assert RangeEnd(sorted[i]) < sorted[j].sourceStart;
      assert cs[i] == Clip(sorted[i], s) && cs[j] == Clip(sorted[j], s);
    }
  }

  /**
   * Coverage of `mapRange`: the effective ranges tile the input range, so
   * the output lengths sum to the input length.
   */
  lemma {:induction false} MapRangeCoverage(s: Span, m: InputMap)
    requires WellFormed(m) && s.length >= 1
    ensures Tiles(Effective(s, m), s.start, SpanEnd(s))
    ensures SumLengths(Effective(s, m)) == s.length
  {
    ClippedRelevantChained(s, m);
    GapFillTiles(s.start, ClippedRelevant(s, m), SpanEnd(s));
    TilesLength(Effective(s, m), s.start, SpanEnd(s));
  }

  /**
   * Where a value of an effective range comes from: every piece lies in
   * `[position, end]` and is either one of the clipped ranges, or an
   * identity gap range that none of the clipped ranges touches.
   */
  lemma {:induction false} GapFillPiece(position: int, cs: seq<ConversionRange>, end: int, i: int, v: int)
    requires ChainedWithin(cs, position, end)
    requires 0 <= i < |GapFill(position, cs, end)| && Contains(GapFill(position, cs, end)[i], v)
    ensures position <= GapFill(position, cs, end)[i].sourceStart && position <= v <= end
    ensures GapFill(position, cs, end)[i] in cs
      || (GapFill(position, cs, end)[i].destStart == GapFill(position, cs, end)[i].sourceStart
          && forall k :: 0 <= k < |cs| ==> !Contains(cs[k], v))
    decreases |cs|
  {
    if cs != [] {
      var c := cs[0];
      var next := RangeEnd(c) + 1;
      var gap := if c.sourceStart > position then [Identity(position, c.sourceStart - position)] else [];
      var rest := GapFill(next, cs[1..], end);
      var pieces := GapFill(position, cs, end);
      assert pieces == gap + [c] + rest;
      if i < |gap| {
        forall k | 0 <= k < |cs| ensures !Contains(cs[k], v) {
          if k > 0 {
            assert RangeEnd(cs[0]) < cs[k].sourceStart;
          }
        }
      } else if i > |gap| {
        assert ChainedWithin(cs[1..], next, end) by {
          forall k | 0 <= k < |cs[1..]| ensures next <= cs[1..][k].sourceStart {
            assert cs[1..][k] == cs[k + 1];
          }
        }
        assert pieces[i] == rest[i - |gap| - 1];
        GapFillPiece(next, cs[1..], end, i - |gap| - 1, v);
        if pieces[i] in cs[1..] {
          assert pieces[i] in cs;
        } else {
          forall k | 0 <= k < |cs| ensures !Contains(cs[k], v) {
            if k > 0 {
              assert cs[k] == cs[1..][k - 1];
            }
          }
        }
      }
    }
  }

  /** A table range holding a value of the span is clipped into a range that still holds it. */
  lemma {:induction false} UnclippedValueUncovered(s: Span, m: InputMap, c: ConversionRange, v: int)
    requires WellFormed(m) && c in m.ranges && InSpan(s, v)
    requires forall k :: 0 <= k < |ClippedRelevant(s, m)| ==> !Contains(ClippedRelevant(s, m)[k], v)
    ensures !Contains(c, v)
  {
    var sorted := SortedRelevant(s, m);
    if Overlaps(c, s) {
      assert c in Relevant(m.ranges, s);
      assert c in multiset(sorted);
      var k :| 0 <= k < |sorted| && sorted[k] == c;
      assert ClippedRelevant(s, m)[k] == Clip(c, s);
    }
  }

  /**
   * `mapRange` agrees with `mapValue`: every value v of the i-th effective
   * range lies in the input range, and the i-th output range holds
   * `mapValue(v)` at the same offset, with the same length.
   */
  lemma {:induction false} MapRangeAgrees(s: Span, m: InputMap, i: int, v: int)
    requires WellFormed(m) && s.length >= 1
    requires 0 <= i < |Effective(s, m)| && Contains(Effective(s, m)[i], v)
    ensures InSpan(s, v)
    ensures MapRangeOf(s, m)[i].length == Effective(s, m)[i].length
    ensures MapRangeOf(s, m)[i].start + (v - Effective(s, m)[i].sourceStart) == MapValue(v, m)
  {
    ClippedRelevantChained(s, m);
    SortedRelevantChained(s, m);
    var cs := ClippedRelevant(s, m);
    var p := Effective(s, m)[i];
    GapFillPiece(s.start, cs, SpanEnd(s), i, v);
    assert MapRangeOf(s, m)[i] == Span(p.destStart, p.length);
    if p in cs {
      ClippedPieceAgrees(s, m, p, v);
    } else {
      forall j | 0 <= j < |m.ranges| ensures !Contains(m.ranges[j], v) {
        UnclippedValueUncovered(s, m, m.ranges[j], v);
      }
    }
  }

  /** A value of a clipped range lies in the table range it was clipped from. */
  lemma {:induction false} ClippedPieceAgrees(s: Span, m: InputMap, p: ConversionRange, v: int)
    requires WellFormed(m) && s.length >= 1
    requires p in ClippedRelevant(s, m) && Contains(p, v) && InSpan(s, v)
    ensures MapValue(v, m) == p.destStart + (v - p.sourceStart)
  {
    var cs := ClippedRelevant(s, m);
    var k :| 0 <= k < |cs| && cs[k] == p;
    var c := SortedRelevant(s, m)[k];
    assert p == Clip(c, s);
    assert c in m.ranges by {
      assert c in multiset(SortByStart(Relevant(m.ranges, s)));
    }
    var j :| 0 <= j < |m.ranges| && m.ranges[j] == c;
    assert Contains(m.ranges[j], v);
  }

  /** Pieces that tile an interval start no later than its end when there are any, and stop at its end. */
  lemma {:induction false} TilesEnd(pieces: seq<ConversionRange>, from: int, to: int)
    requires Tiles(pieces, from, to)
    ensures from <= to + 1
    ensures pieces != [] ==> from <= to && RangeEnd(pieces[0]) <= to
    decreases |pieces|
  {
    if pieces != [] {
      TilesEnd(pieces[1..], RangeEnd(pieces[0]) + 1, to);
    }
  }

  /** Every value of a tiled interval lies in one of the pieces. */
  lemma {:induction false} TilesCover(pieces: seq<ConversionRange>, from: int, to: int, v: int)
    requires Tiles(pieces, from, to) && from <= v <= to
    ensures exists k :: 0 <= k < |pieces| && Contains(pieces[k], v)
    decreases |pieces|
  {
    if !Contains(pieces[0], v) {
      TilesCover(pieces[1..], RangeEnd(pieces[0]) + 1, to, v);
      var k :| 0 <= k < |pieces[1..]| && Contains(pieces[1..][k], v);
      assert pieces[k + 1] == pieces[1..][k];
    }
  }

  /** The only tiling of the single value v is one piece of length 1 starting at v. */
  lemma {:induction false} SinglePointTiles(pieces: seq<ConversionRange>, v: int)
    requires Tiles(pieces, v, v)
    ensures |pieces| == 1 && pieces[0].sourceStart == v && pieces[0].length == 1
  {
    TilesEnd(pieces, v, v);
    TilesEnd(pieces[1..], RangeEnd(pieces[0]) + 1, v);
  }

  /** Point/interval agreement: the range of the single value v maps to the single value `mapValue(v)`. */
  lemma {:induction false} PointRange(v: int, m: InputMap)
    requires WellFormed(m)
    ensures MapRangeOf(Span(v, 1), m) == [Span(MapValue(v, m), 1)]
  {
    var s := Span(v, 1);
    var eff := Effective(s, m);
    assert |eff| == 1 && eff[0].sourceStart == v && eff[0].length == 1 by {
      MapRangeCoverage(s, m);
      SinglePointTiles(eff, v);
    }
    MapRangeAgrees(s, m, 0, v);
    var r := MapRangeOf(s, m);
    assert |r| == 1 && r[0] == Span(MapValue(v, m), 1);
  }

  /** With no conversion range overlapping it, a range maps to itself. */
  lemma {:induction false} UntouchedRange(s: Span, m: InputMap)
    requires s.length >= 1
    requires forall k :: 0 <= k < |m.ranges| ==> !Overlaps(m.ranges[k], s)
    ensures MapRangeOf(s, m) == [s]
  {
    assert Relevant(m.ranges, s) == [];
  }

  /** Every part is a non-empty run of digits. */
  predicate AllNumerals(parts: seq<string>) {
    forall k :: 0 <= k < |parts| ==> |parts[k]| >= 1 && AllDigits(parts[k])
  }

  /** The seed list `(?:\d+ )*\d+`: decimal numbers separated by single spaces. */
  function ParseSeeds(text: string): (r: Option<seq<int>>)
    ensures r.Some? <==> AllNumerals(Split(text, " "))
    ensures r.Some? ==> |r.value| == |Split(text, " ")| >= 1
    ensures r.Some? ==> forall k :: 0 <= k < |r.value| ==> r.value[k] == DigitsValue(Split(text, " ")[k])
  {
    var parts := Split(text, " ");
    if AllNumerals(parts) then
      Some(seq(|parts|, k requires 0 <= k < |parts| => DigitsValue(parts[k])))
    else None
  }

  /** The header `^(\w+)-to-(\w+) map:$` of one map. */
  function ParseHeader(line: string): (r: Result<(string, string)>)
    ensures r.Ok? ==> IsWord(r.value.0) && IsWord(r.value.1) && line == r.value.0 + "-to-" + r.value.1 + " map:"
    ensures r.Err? ==> r.message == "Invalid map header"
  {
    if |line| >= 5 && line[|line| - 5..] == " map:" then
      var names := line[..|line| - 5];
      var parts := Split(names, "-to-");
      if |parts| == 2 && IsWord(parts[0]) && IsWord(parts[1]) then
        SplitTwo(names, "-to-");
        assert line == names + " map:";
        Ok((parts[0], parts[1]))
      else Err("Invalid map header")
    else Err("Invalid map header")
  }

  /** A word has no `-`, so it holds no occurrence of `-to-`. */
  lemma {:induction false} WordHasNoSeparator(w: string, rest: string, j: nat)
    requires IsWord(w) && j < |w|
    ensures !OccursAt(w + rest, "-to-", j)
  {
    assert (w + rest)[j] == w[j];
  }

  /** Parsing a header written from two names gives the names back. */
  lemma {:induction false} HeaderRoundTrip(from: string, to: string)
    requires IsWord(from) && IsWord(to)
    ensures ParseHeader(from + "-to-" + to + " map:") == Ok((from, to))
  {
    var line := from + "-to-" + to + " map:";
    var names := from + "-to-" + to;
    assert line[..|line| - 5] == names && line[|line| - 5..] == " map:";
    forall j | 0 <= j < |from| ensures !OccursAt(names, "-to-", j) {
      WordHasNoSeparator(from, "-to-" + to, j);
      assert names == from + ("-to-" + to);
    }
    assert OccursAt(names, "-to-", |from|) by { assert names[|from|..|from| + 4] == "-to-"; }
    assert Find(names, "-to-") == Some(|from|);
    assert names[|from| + 4..] == to && names[..|from|] == from;
    forall j | 0 <= j <= |to| ensures !OccursAt(to, "-to-", j) {
      if j < |to| {
        WordHasNoSeparator(to, [], j);
        assert to + [] == to;
      }
    }
    assert Split(to, "-to-") == [to];
    assert Split(names, "-to-") == [from, to];
  }

  /** One map line: exactly three space-separated numbers, destination first. */
  function ParseRangeLine(line: string): (r: Result<ConversionRange>)
    ensures |Split(line, " ")| != 3 <==> r == Err("Invalid map line")
    ensures r.Err? ==> r.message == "Invalid map line" || r.message == "Invalid number"
  {
    var numbers := Split(line, " ");
    if |numbers| != 3 then Err("Invalid map line")
    else
      match (NumberOf(numbers[0]), NumberOf(numbers[1]), NumberOf(numbers[2]))
      case (Some(d), Some(s), Some(n)) => Ok(ConversionRange(d, s, n))
      case _ => Err("Invalid number")
  }

  /**
   * `xs.map(f)` where `f` may throw: the values when every element gives
   * one, and otherwise the error of the first element that fails.
   */
  function CollectAll<T>(rs: seq<Result<T>>): (r: Result<seq<T>>)
    ensures r.Ok? <==> forall k :: 0 <= k < |rs| ==> rs[k].Ok?
    ensures r.Ok? ==> |r.value| == |rs| && forall k :: 0 <= k < |rs| ==> rs[k] == Ok(r.value[k])
    ensures r.Err? ==> exists k :: 0 <= k < |rs| && rs[k] == Err(r.message) && forall j :: 0 <= j < k ==> rs[j].Ok?
  {
    if rs == [] then Ok([])
    else
      match rs[0]
      case Err(e) => Err(e)
      case Ok(v) =>
        assert forall k :: 1 <= k < |rs| ==> rs[k] == rs[1..][k - 1];
        match CollectAll(rs[1..])
        case Err(e) =>
          var k :| 0 <= k < |rs| - 1 && rs[1..][k] == Err(e) && forall j :: 0 <= j < k ==> rs[1..][j].Ok?;
          assert rs[k + 1] == Err(e);
          Err(e)
        case Ok(vs) =>
          var all := [v] + vs;
          assert forall k :: 0 <= k < |rs| ==> rs[k] == Ok(all[k]) by {
            forall k | 0 <= k < |rs| ensures rs[k] == Ok(all[k]) {
              if k > 0 { assert all[k] == vs[k - 1]; }
            }
          }
          Ok(all)
  }

  /** The lines after a header, one conversion range each; the first bad line decides the error. */
  function ParseRangeLines(lines: seq<string>): (r: Result<seq<ConversionRange>>)
    ensures r.Ok? ==> |r.value| == |lines|
    ensures r.Ok? ==> forall k :: 0 <= k < |lines| ==> ParseRangeLine(lines[k]) == Ok(r.value[k])
    ensures r.Err? <==> !LinesParseBefore(lines, |lines|)
    ensures r.Err? ==> exists k :: 0 <= k < |lines| && LinesParseBefore(lines, k) && ParseRangeLine(lines[k]) == Err(r.message)
  {
    var rs := seq(|lines|, k requires 0 <= k < |lines| => ParseRangeLine(lines[k]));
    assert forall k :: 0 <= k < |lines| ==> rs[k] == ParseRangeLine(lines[k]);
    var r := CollectAll(rs);
    if r.Ok? then r
    else
      var k :| 0 <= k < |rs| && rs[k] == Err(r.message) && forall j :: 0 <= j < k ==> rs[j].Ok?;
      assert LinesParseBefore(lines, k);
      r
  }

  /** Every line before the `k`-th parses. */
  predicate LinesParseBefore(lines: seq<string>, k: nat)
    requires k <= |lines|
  {
    forall j :: 0 <= j < k ==> ParseRangeLine(lines[j]).Ok?
  }

  /**
   * One block of the almanac: the header line, then one line per conversion
   * range. A bad header gives "Invalid map header"; otherwise the first bad
   * line decides the error.
   */
  function ParseMap(block: string): (r: Result<InputMap>)
    ensures r.Ok? ==> |r.value.ranges| == |Split(block, "\n")| - 1
    ensures r.Ok? ==> Split(block, "\n")[0] == r.value.from + "-to-" + r.value.to + " map:"
    ensures r.Err? <==> ParseHeader(Split(block, "\n")[0]).Err? || ParseRangeLines(Split(block, "\n")[1..]).Err?
    ensures ParseHeader(Split(block, "\n")[0]).Err? ==> r == Err("Invalid map header")
    ensures ParseHeader(Split(block, "\n")[0]).Ok? && r.Err? ==> r.message == ParseRangeLines(Split(block, "\n")[1..]).message
    ensures r.Err? ==> r.message == "Invalid map header" || r.message == "Invalid map line" || r.message == "Invalid number"
  {
    var lines := Split(block, "\n");
    match ParseHeader(lines[0])
    case Err(e) => Err(e)
    case Ok((from, to)) =>
      match ParseRangeLines(lines[1..])
      case Err(e) =>
        var k :| 0 <= k < |lines[1..]| && LinesParseBefore(lines[1..], k) && ParseRangeLine(lines[1..][k]) == Err(e);
        Err(e)
      case Ok(ranges) => Ok(InputMap(from, to, ranges))
  }

  /** The map blocks in order; the first block that fails decides the error. */
  function ParseMaps(blocks: seq<string>): (r: Result<seq<InputMap>>)
    ensures r.Ok? ==> |r.value| == |blocks|
    ensures r.Ok? ==> forall k :: 0 <= k < |blocks| ==> ParseMap(blocks[k]) == Ok(r.value[k])
    ensures r.Err? <==> !BlocksParseBefore(blocks, |blocks|)
    ensures r.Err? ==> exists k :: 0 <= k < |blocks| && BlocksParseBefore(blocks, k) && ParseMap(blocks[k]) == Err(r.message)
    ensures r.Err? ==> r.message == "Invalid map header" || r.message == "Invalid map line" || r.message == "Invalid number"
  {
    var rs := seq(|blocks|, k requires 0 <= k < |blocks| => ParseMap(blocks[k]));
    assert forall k :: 0 <= k < |blocks| ==> rs[k] == ParseMap(blocks[k]);
    var r := CollectAll(rs);
    if r.Ok? then r
    else
      var k :| 0 <= k < |rs| && rs[k] == Err(r.message) && forall j :: 0 <= j < k ==> rs[j].Ok?;
      assert BlocksParseBefore(blocks, k);
      r
  }

  /** Every block before the `k`-th parses. */
  predicate BlocksParseBefore(blocks: seq<string>, k: nat)
    requires k <= |blocks|
  {
    forall j :: 0 <= j < k ==> ParseMap(blocks[j]).Ok?
  }

  /**
   * The shape `^seeds: (…)\n\n(.*)$` asks of the trimmed input: the text
   * `seeds: `, the seed list up to the first blank line, and the map blocks
   * after it.
   */
  function SectionsOf(input: string): (r: Option<(string, string)>)
    ensures r.Some? ==> TrimEnd(input) == "seeds: " + r.value.0 + "\n\n" + r.value.1
    ensures r.Some? ==> Find(r.value.0 + "\n\n" + r.value.1, "\n\n") == Some(|r.value.0|)
    ensures r.None? <==> !(|TrimEnd(input)| >= 7 && TrimEnd(input)[..7] == "seeds: ") || Find(TrimEnd(input)[7..], "\n\n").None?
  {
    var t := TrimEnd(input);
    if !(|t| >= 7 && t[..7] == "seeds: ") then None
    else
      var rest := t[7..];
      match Find(rest, "\n\n")
      case None => None
      case Some(i) =>
        CutAt(t, i);
        Some((rest[..i], rest[i + 2..]))
  }

  /** The text after `seeds: ` is cut at its first blank line into the seed text and the map text. */
  lemma {:induction false} CutAt(t: string, i: nat)
    requires |t| >= 7 && t[..7] == "seeds: " && Find(t[7..], "\n\n") == Some(i)
    ensures t == "seeds: " + t[7..][..i] + "\n\n" + t[7..][i + 2..]
    ensures Find(t[7..][..i] + "\n\n" + t[7..][i + 2..], "\n\n") == Some(|t[7..][..i]|)
  {
    var rest := t[7..];
    assert rest[i..i + 2] == "\n\n";
    assert rest == rest[..i] + rest[i..i + 2] + rest[i + 2..];
    assert t == t[..7] + rest;
  }

  /**
   * The almanac from its two sections: "Invalid input" exactly when the seed
   * list is not numbers; otherwise the data when every map block parses, and
   * else the error of the first block that fails.
   */
  function ParseSections(seedsText: string, mapsText: string): (r: Result<InputData>)
    ensures r == Err("Invalid input") <==> ParseSeeds(seedsText).None?
    ensures r.Ok? <==> ParseSeeds(seedsText).Some? && ParseMaps(Split(mapsText, "\n\n")).Ok?
    ensures r.Ok? ==> r.value == InputData(ParseSeeds(seedsText).value, ParseMaps(Split(mapsText, "\n\n")).value)
    ensures r.Err? && r != Err("Invalid input") ==> r.message == ParseMaps(Split(mapsText, "\n\n")).message
    ensures r.Ok? ==> |r.value.seeds| >= 1 && |r.value.maps| >= 1
    ensures r.Ok? ==> forall k :: 0 <= k < |r.value.seeds| ==> r.value.seeds[k] >= 0
  {
    match ParseSeeds(seedsText)
    case None => Err("Invalid input")
    case Some(seeds) =>
      match ParseMaps(Split(mapsText, "\n\n"))
      case Err(e) => Err(e)
      case Ok(maps) => Ok(InputData(seeds, maps))
  }

  /**
   * `parse(input)`: "Invalid input" exactly when the trimmed text lacks the
   * `seeds: ` line, the blank line after it, or a seed list of numbers;
   * otherwise the data when every map block parses, and else the error of
   * the first block that fails.
   */
  function Parse(input: string): (r: Result<InputData>)
    ensures r.Ok? ==> |TrimEnd(input)| >= 7 && TrimEnd(input)[..7] == "seeds: "
    ensures r.Ok? ==> |r.value.seeds| >= 1 && |r.value.maps| >= 1
    ensures r.Ok? ==> forall k :: 0 <= k < |r.value.seeds| ==> r.value.seeds[k] >= 0
    ensures r == Err("Invalid input") <==> SectionsOf(input).None? || ParseSeeds(SectionsOf(input).value.0).None?
    ensures SectionsOf(input).Some? ==> r == ParseSections(SectionsOf(input).value.0, SectionsOf(input).value.1)
  {
    match SectionsOf(input)
    case None => Err("Invalid input")
    case Some((seedsText, mapsText)) => ParseSections(seedsText, mapsText)
  }

  /** The value reached from v by applying every map in order (`maps.reduce(mapValue, seed)`). */
  function Locate(v: int, maps: seq<InputMap>): int
    decreases |maps|
  {
    if maps == [] then v else Locate(MapValue(v, maps[0]), maps[1..])
  }

  /** `Math.min(...xs)`, where the minimum of nothing (JavaScript's `Infinity`) is `None`. */
  function MinOf(xs: seq<int>): (r: Option<int>)
    ensures r.None? <==> xs == []
    ensures r.Some? ==> r.value in xs && forall x :: x in xs ==> r.value <= x
  {
    if xs == [] then None
    else
      match MinOf(xs[1..])
      case None => Some(xs[0])
      case Some(m) =>
        assert xs == [xs[0]] + xs[1..];
        Some(if xs[0] <= m then xs[0] else m)
  }

  function Locations(data: InputData): (r: seq<int>)
    ensures |r| == |data.seeds| && forall i :: 0 <= i < |r| ==> r[i] == Locate(data.seeds[i], data.maps)
  {
    seq(|data.seeds|, i requires 0 <= i < |data.seeds| => Locate(data.seeds[i], data.maps))
  }

  /** `part1`: the smallest location any seed reaches. */
  function Part1(data: InputData): (r: Option<int>)
    ensures r.None? <==> data.seeds == []
    ensures forall i :: 0 <= i < |data.seeds| ==> r.Some? && r.value <= Locate(data.seeds[i], data.maps)
    ensures r.Some? ==> exists i :: 0 <= i < |data.seeds| && r.value == Locate(data.seeds[i], data.maps)
  {
    var locations := Locations(data);
    assert forall i :: 0 <= i < |locations| ==> locations[i] in locations;
    var r := MinOf(locations);
    assert r.Some? ==> exists i :: 0 <= i < |locations| && r.value == locations[i];
    r
  }

  /** `chunk(seeds, 2)` read as (start, length) pairs. */
  function SeedRanges(seeds: seq<int>): (r: seq<Span>)
    requires |seeds| % 2 == 0
    ensures |r| == |seeds| / 2
    ensures forall i :: 0 <= i < |r| ==> r[i] == Span(seeds[2 * i], seeds[2 * i + 1])
  {
    seq(|seeds| / 2, i requires 0 <= i < |seeds| / 2 => Span(seeds[2 * i], seeds[2 * i + 1]))
  }

  /** `ranges.flatMap((range) => mapRange(range, inputMap))`. */
  function MapAll(spans: seq<Span>, m: InputMap): seq<Span> {
    if spans == [] then [] else MapRangeOf(spans[0], m) + MapAll(spans[1..], m)
  }

  /** The ranges reached from `spans` by applying every map in order. */
  function Through(spans: seq<Span>, maps: seq<InputMap>): seq<Span>
    decreases |maps|
  {
    if maps == [] then spans else Through(MapAll(spans, maps[0]), maps[1..])
  }

  /** `seedRanges.flatMap((seedRange) => maps.reduce(..., [seedRange]))`. */
  function LocationRanges(seedRanges: seq<Span>, maps: seq<InputMap>): seq<Span> {
    if seedRanges == [] then [] else Through([seedRanges[0]], maps) + LocationRanges(seedRanges[1..], maps)
  }

  function Starts(spans: seq<Span>): (r: seq<int>)
    ensures |r| == |spans| && forall i :: 0 <= i < |spans| ==> r[i] == spans[i].start
  {
    seq(|spans|, i requires 0 <= i < |spans| => spans[i].start)
  }

  /** `part2`: the smallest start among the location ranges. */
  function Part2(data: InputData): Option<int>
    requires |data.seeds| % 2 == 0
  {
    MinOf(Starts(LocationRanges(SeedRanges(data.seeds), data.maps)))
  }

  predicate AllWellFormed(maps: seq<InputMap>) {
    forall k :: 0 <= k < |maps| ==> WellFormed(maps[k])
  }

  predicate AllPositive(spans: seq<Span>) {
    forall i :: 0 <= i < |spans| ==> spans[i].length >= 1
  }

  lemma {:induction false} TilesPositive(pieces: seq<ConversionRange>, from: int, to: int)
    requires Tiles(pieces, from, to)
    ensures forall k :: 0 <= k < |pieces| ==> pieces[k].length >= 1
    decreases |pieces|
  {
    if pieces != [] {
      TilesPositive(pieces[1..], RangeEnd(pieces[0]) + 1, to);
      assert forall k :: 1 <= k < |pieces| ==> pieces[k] == pieces[1..][k - 1];
    }
  }

  /** A non-empty range maps to at least one output range, and every output range is non-empty. */
  lemma {:induction false} MapRangePositive(s: Span, m: InputMap)
    requires WellFormed(m) && s.length >= 1
    ensures MapRangeOf(s, m) != [] && AllPositive(MapRangeOf(s, m))
  {
    MapRangeCoverage(s, m);
    TilesPositive(Effective(s, m), s.start, SpanEnd(s));
  }

  /** Whether one of the spans holds x. */
  predicate Covers(spans: seq<Span>, x: int) {
    exists j :: 0 <= j < |spans| && InSpan(spans[j], x)
  }

  lemma {:induction false} CoversConcat(a: seq<Span>, b: seq<Span>, x: int)
    ensures Covers(a + b, x) <==> Covers(a, x) || Covers(b, x)
  {
    if Covers(a, x) {
      var j :| 0 <= j < |a| && InSpan(a[j], x);
      assert (a + b)[j] == a[j];
    }
    if Covers(b, x) {
      var j :| 0 <= j < |b| && InSpan(b[j], x);
      assert (a + b)[|a| + j] == b[j];
    }
    if Covers(a + b, x) {
      var j :| 0 <= j < |a + b| && InSpan((a + b)[j], x);
      if j < |a| {
        assert a[j] == (a + b)[j];
      } else {
        assert b[j - |a|] == (a + b)[j];
      }
    }
  }

  /** Soundness of one range: the image of each of its values lies in one of the output ranges. */
  lemma {:induction false} RangeSound(s: Span, m: InputMap, v: int)
    requires WellFormed(m) && InSpan(s, v)
    ensures Covers(MapRangeOf(s, m), MapValue(v, m))
  {
    MapRangeCoverage(s, m);
    TilesCover(Effective(s, m), s.start, SpanEnd(s), v);
    var k :| 0 <= k < |Effective(s, m)| && Contains(Effective(s, m)[k], v);
    MapRangeAgrees(s, m, k, v);
    assert InSpan(MapRangeOf(s, m)[k], MapValue(v, m));
  }

  /** Completeness of one range: each value of an output range is the image of a value of the input range. */
  lemma {:induction false} RangeComplete(s: Span, m: InputMap, k: int, d: int)
    requires WellFormed(m) && s.length >= 1
    requires 0 <= k < |MapRangeOf(s, m)| && 0 <= d < MapRangeOf(s, m)[k].length
    ensures exists v :: InSpan(s, v) && MapValue(v, m) == MapRangeOf(s, m)[k].start + d
  {
    var v := Effective(s, m)[k].sourceStart + d;
    assert Contains(Effective(s, m)[k], v);
    MapRangeAgrees(s, m, k, v);
  }

  lemma {:induction false} MapAllPositive(spans: seq<Span>, m: InputMap)
    requires WellFormed(m) && AllPositive(spans)
    ensures AllPositive(MapAll(spans, m))
    decreases |spans|
  {
    if spans != [] {
      MapRangePositive(spans[0], m);
      MapAllPositive(spans[1..], m);
    }
  }

  lemma {:induction false} MapAllSound(spans: seq<Span>, m: InputMap, i: int, v: int)
    requires WellFormed(m) && 0 <= i < |spans| && InSpan(spans[i], v)
    ensures Covers(MapAll(spans, m), MapValue(v, m))
    decreases |spans|
  {
    var head := MapRangeOf(spans[0], m);
    var tail := MapAll(spans[1..], m);
    if i == 0 {
      RangeSound(spans[0], m, v);
    } else {
      assert spans[1..][i - 1] == spans[i];
      MapAllSound(spans[1..], m, i - 1, v);
    }
    assert MapAll(spans, m) == head + tail;
    CoversConcat(head, tail, MapValue(v, m));
  }

  lemma {:induction false} MapAllComplete(spans: seq<Span>, m: InputMap, j: int, d: int)
    requires WellFormed(m) && AllPositive(spans)
    requires 0 <= j < |MapAll(spans, m)| && 0 <= d < MapAll(spans, m)[j].length
    ensures exists i, v :: 0 <= i < |spans| && InSpan(spans[i], v) && MapValue(v, m) == MapAll(spans, m)[j].start + d
    decreases |spans|
  {
    var head := MapRangeOf(spans[0], m);
    var all := MapAll(spans, m);
    assert all == head + MapAll(spans[1..], m);
    if j < |head| {
      assert all[j] == head[j];
      RangeComplete(spans[0], m, j, d);
      var v :| InSpan(spans[0], v) && MapValue(v, m) == head[j].start + d;
      assert 0 <= 0 < |spans| && InSpan(spans[0], v) && MapValue(v, m) == all[j].start + d;
    } else {
      var rest := MapAll(spans[1..], m);
      assert all[j] == rest[j - |head|];
      MapAllComplete(spans[1..], m, j - |head|, d);
      var i, v :| 0 <= i < |spans[1..]| && InSpan(spans[1..][i], v) && MapValue(v, m) == rest[j - |head|].start + d;
      assert 0 <= i + 1 < |spans| && InSpan(spans[i + 1], v) && MapValue(v, m) == all[j].start + d;
    }
  }

  lemma {:induction false} ThroughPositive(spans: seq<Span>, maps: seq<InputMap>)
    requires AllWellFormed(maps) && AllPositive(spans)
    ensures AllPositive(Through(spans, maps))
    decreases |maps|
  {
    if maps != [] {
      MapAllPositive(spans, maps[0]);
      ThroughPositive(MapAll(spans, maps[0]), maps[1..]);
    }
  }

  /** Soundness of the chain of maps: the location of each value of the input ranges lies in an output range. */
  lemma {:induction false} ThroughSound(spans: seq<Span>, maps: seq<InputMap>, i: int, v: int)
    requires AllWellFormed(maps) && 0 <= i < |spans| && InSpan(spans[i], v)
    ensures Covers(Through(spans, maps), Locate(v, maps))
    decreases |maps|
  {
    if maps == [] {
      assert InSpan(Through(spans, maps)[i], Locate(v, maps));
    } else {
      var next := MapAll(spans, maps[0]);
      var w := MapValue(v, maps[0]);
      MapAllSound(spans, maps[0], i, v);
      var j :| 0 <= j < |next| && InSpan(next[j], w);
      ThroughSound(next, maps[1..], j, w);
    }
  }

  /** Completeness of the chain of maps: every value of an output range is the location of some input value. */
  lemma {:induction false} ThroughComplete(spans: seq<Span>, maps: seq<InputMap>, j: int, d: int)
    requires AllWellFormed(maps) && AllPositive(spans)
    requires 0 <= j < |Through(spans, maps)| && 0 <= d < Through(spans, maps)[j].length
    ensures exists i, v :: 0 <= i < |spans| && InSpan(spans[i], v) && Locate(v, maps) == Through(spans, maps)[j].start + d
    decreases |maps|
  {
    if maps == [] {
      var v := spans[j].start + d;
      assert InSpan(spans[j], v) && Locate(v, maps) == Through(spans, maps)[j].start + d;
    } else {
      var next := MapAll(spans, maps[0]);
      MapAllPositive(spans, maps[0]);
      ThroughComplete(next, maps[1..], j, d);
      var i', w :| 0 <= i' < |next| && InSpan(next[i'], w) && Locate(w, maps[1..]) == Through(spans, maps)[j].start + d;
      MapAllComplete(spans, maps[0], i', w - next[i'].start);
      var i, v :| 0 <= i < |spans| && InSpan(spans[i], v) && MapValue(v, maps[0]) == w;
      assert Locate(v, maps) == Locate(w, maps[1..]);
    }
  }

  lemma {:induction false} LocationSound(seedRanges: seq<Span>, maps: seq<InputMap>, i: int, v: int)
    requires AllWellFormed(maps) && 0 <= i < |seedRanges| && InSpan(seedRanges[i], v)
    ensures Covers(LocationRanges(seedRanges, maps), Locate(v, maps))
    decreases |seedRanges|
  {
    var head := Through([seedRanges[0]], maps);
    var tail := LocationRanges(seedRanges[1..], maps);
    if i == 0 {
      ThroughSound([seedRanges[0]], maps, 0, v);
    } else {
      assert seedRanges[1..][i - 1] == seedRanges[i];
      LocationSound(seedRanges[1..], maps, i - 1, v);
    }
    CoversConcat(head, tail, Locate(v, maps));
  }

  lemma {:induction false} LocationComplete(seedRanges: seq<Span>, maps: seq<InputMap>, j: int)
    requires AllWellFormed(maps) && AllPositive(seedRanges)
    requires 0 <= j < |LocationRanges(seedRanges, maps)|
    ensures exists i, v :: 0 <= i < |seedRanges| && InSpan(seedRanges[i], v) && Locate(v, maps) == LocationRanges(seedRanges, maps)[j].start
    decreases |seedRanges|
  {
    var head := Through([seedRanges[0]], maps);
    var tail := LocationRanges(seedRanges[1..], maps);
    var all := LocationRanges(seedRanges, maps);
    assert all == head + tail;
    if j < |head| {
      ThroughPositive([seedRanges[0]], maps);
      ThroughComplete([seedRanges[0]], maps, j, 0);
      var i, v :| 0 <= i < 1 && InSpan([seedRanges[0]][i], v) && Locate(v, maps) == head[j].start;
      assert InSpan(seedRanges[0], v) && Locate(v, maps) == all[j].start;
    } else {
      assert all[j] == tail[j - |head|];
      LocationComplete(seedRanges[1..], maps, j - |head|);
      var i, v :| 0 <= i < |seedRanges[1..]| && InSpan(seedRanges[1..][i], v) && Locate(v, maps) == all[j].start;
      assert InSpan(seedRanges[i + 1], v);
    }
  }

  /** No value of a seed range reaches a location below the smallest start. */
  lemma {:induction false} SmallestStartBelow(seedRanges: seq<Span>, maps: seq<InputMap>, i: int, v: int)
    requires AllWellFormed(maps) && 0 <= i < |seedRanges| && InSpan(seedRanges[i], v)
    ensures MinOf(Starts(LocationRanges(seedRanges, maps))).Some?
    ensures MinOf(Starts(LocationRanges(seedRanges, maps))).value <= Locate(v, maps)
  {
    var locationRanges := LocationRanges(seedRanges, maps);
    var starts := Starts(locationRanges);
    LocationSound(seedRanges, maps, i, v);
    var j :| 0 <= j < |locationRanges| && InSpan(locationRanges[j], Locate(v, maps));
    assert starts[j] in starts;
  }

  /** The smallest start is the location of some value of a seed range. */
  lemma {:induction false} SmallestStartReached(seedRanges: seq<Span>, maps: seq<InputMap>)
    requires AllWellFormed(maps) && AllPositive(seedRanges)
    requires MinOf(Starts(LocationRanges(seedRanges, maps))).Some?
    ensures exists i, v :: 0 <= i < |seedRanges| && InSpan(seedRanges[i], v) && MinOf(Starts(LocationRanges(seedRanges, maps))).value == Locate(v, maps)
  {
    var starts := Starts(LocationRanges(seedRanges, maps));
    var j :| 0 <= j < |starts| && starts[j] == MinOf(starts).value;
    LocationComplete(seedRanges, maps, j);
  }

  /** The smallest start of the location ranges is the smallest location of any value of the seed ranges. */
  lemma {:induction false} SmallestStart(seedRanges: seq<Span>, maps: seq<InputMap>)
    requires AllWellFormed(maps) && AllPositive(seedRanges)
    ensures MinOf(Starts(LocationRanges(seedRanges, maps))).Some? <==> seedRanges != []
    ensures forall i, v :: 0 <= i < |seedRanges| && InSpan(seedRanges[i], v) ==>
              MinOf(Starts(LocationRanges(seedRanges, maps))).Some? && MinOf(Starts(LocationRanges(seedRanges, maps))).value <= Locate(v, maps)
    ensures MinOf(Starts(LocationRanges(seedRanges, maps))).Some? ==>
              exists i, v :: 0 <= i < |seedRanges| && InSpan(seedRanges[i], v) && MinOf(Starts(LocationRanges(seedRanges, maps))).value == Locate(v, maps)
  {
    forall i, v | 0 <= i < |seedRanges| && InSpan(seedRanges[i], v)
      ensures MinOf(Starts(LocationRanges(seedRanges, maps))).Some? && MinOf(Starts(LocationRanges(seedRanges, maps))).value <= Locate(v, maps)
    {
      SmallestStartBelow(seedRanges, maps, i, v);
    }
    if seedRanges != [] {
      SmallestStartBelow(seedRanges, maps, 0, seedRanges[0].start);
    }
    if MinOf(Starts(LocationRanges(seedRanges, maps))).Some? {
      SmallestStartReached(seedRanges, maps);
    }
  }

  /**
   * `part2` is the smallest location of any seed value: every value of every
   * seed range reaches a location no smaller than the answer, and some value
   * reaches the answer exactly. This holds when the ranges of each map do not
   * overlap (the assumption the source states) and every seed range is
   * non-empty.
   */
  lemma {:induction false} Part2IsSmallestLocation(data: InputData)
    requires |data.seeds| % 2 == 0 && AllWellFormed(data.maps) && AllPositive(SeedRanges(data.seeds))
    ensures Part2(data).Some? <==> data.seeds != []
    ensures forall i, v :: 0 <= i < |SeedRanges(data.seeds)| && InSpan(SeedRanges(data.seeds)[i], v) ==>
              Part2(data).Some? && Part2(data).value <= Locate(v, data.maps)
    ensures Part2(data).Some? ==>
              exists i, v :: 0 <= i < |SeedRanges(data.seeds)| && InSpan(SeedRanges(data.seeds)[i], v) && Part2(data).value == Locate(v, data.maps)
  {
    SmallestStart(SeedRanges(data.seeds), data.maps);
  }

  /**
   * Why `Part2IsSmallestLocation` asks for non-empty seed ranges: an empty
   * seed range still overlaps a conversion range under the closed-interval
   * test, and its clipped range of length 0 contributes its start. Seeds
   * `5 0 100 1` with the single conversion `0 3 5` give 2, while the only seed
   * value, 100, reaches 100.
   */
  lemma {:induction false} EmptySeedRangeCounts(data: InputData)
    requires data.seeds == [5, 0, 100, 1] && |data.maps| == 1 && data.maps[0].ranges == [ConversionRange(0, 3, 5)]
    ensures Part2(data) == Some(2)
    ensures forall i, v :: 0 <= i < |SeedRanges(data.seeds)| && InSpan(SeedRanges(data.seeds)[i], v) ==> v == 100 && Locate(v, data.maps) == 100
  {
    var seedRanges := SeedRanges(data.seeds);
    assert seedRanges == [Span(5, 0), Span(100, 1)];
    EmptyRangeStart(data.maps);
    assert Part2(data) == Some(2);
    OnlySeedValue(data.maps);
    OnlyValueInSeedRanges(data.seeds);
  }

  lemma {:induction false} OnlyValueInSeedRanges(seeds: seq<int>)
    requires seeds == [5, 0, 100, 1]
    ensures forall i, v :: 0 <= i < |SeedRanges(seeds)| && InSpan(SeedRanges(seeds)[i], v) ==> v == 100
  {
    assert SeedRanges(seeds) == [Span(5, 0), Span(100, 1)];
  }

  lemma {:induction false} OnlySeedValue(maps: seq<InputMap>)
    requires |maps| == 1 && maps[0].ranges == [ConversionRange(0, 3, 5)]
    ensures Locate(100, maps) == 100
  {
    assert !Contains(maps[0].ranges[0], 100);
    assert MapValue(100, maps[0]) == 100;
    assert maps[1..] == [];
  }

  lemma {:induction false} EmptyRangeStart(maps: seq<InputMap>)
    requires |maps| == 1 && maps[0].ranges == [ConversionRange(0, 3, 5)]
    ensures MinOf(Starts(LocationRanges([Span(5, 0), Span(100, 1)], maps))) == Some(2)
  {
    EmptyRangeLocations(maps);
    SmallestOfTwoStarts(Span(2, 0), Span(100, 1));
  }

  lemma {:induction false} EmptyRangeLocations(maps: seq<InputMap>)
    requires |maps| == 1 && maps[0].ranges == [ConversionRange(0, 3, 5)]
    ensures LocationRanges([Span(5, 0), Span(100, 1)], maps) == [Span(2, 0), Span(100, 1)]
  {
    EmptySpanImage(maps[0]);
    SingleSpanImage(maps[0]);
    LocationRangesOfTwo(Span(5, 0), Span(100, 1), maps);
  }

  lemma {:induction false} SmallestOfTwoStarts(a: Span, b: Span)
    requires a.start <= b.start
    ensures MinOf(Starts([a, b])) == Some(a.start)
  {
    assert Starts([a, b]) == [a.start, b.start];
  }

  /** Two seed ranges through a single map. */
  lemma {:induction false} LocationRangesOfTwo(a: Span, b: Span, maps: seq<InputMap>)
    requires |maps| == 1
    ensures LocationRanges([a, b], maps) == MapAll([a], maps[0]) + MapAll([b], maps[0])
  {
    assert maps[1..] == [];
    assert Through([a], maps) == MapAll([a], maps[0]);
    assert Through([b], maps) == MapAll([b], maps[0]);
    assert [a, b][1..] == [b] && [b][1..] == [];
    assert LocationRanges([b], maps) == Through([b], maps) + LocationRanges([], maps);
  }

  lemma {:induction false} EmptySpanImage(m: InputMap)
    requires m.ranges == [ConversionRange(0, 3, 5)]
    ensures MapAll([Span(5, 0)], m) == [Span(2, 0)]
  {
    var empty := Span(5, 0);
    assert Relevant(m.ranges, empty) == m.ranges;
    assert SortByStart(m.ranges) == m.ranges;
    var clipped := ConversionRange(2, 5, 0);
    assert ClippedRelevant(empty, m) == [clipped];
    assert [clipped][1..] == [] && RangeEnd(clipped) + 1 == 5;
    assert GapFill(5, [], 4) == [];
    assert GapFill(5, [clipped], 4) == [clipped] + GapFill(5, [], 4);
    assert Effective(empty, m) == [clipped];
    OneEffectiveRange(empty, m, clipped);
  }

  lemma {:induction false} SingleSpanImage(m: InputMap)
    requires m.ranges == [ConversionRange(0, 3, 5)]
    ensures MapAll([Span(100, 1)], m) == [Span(100, 1)]
  {
    var single := Span(100, 1);
    assert Relevant(m.ranges, single) == [];
    assert SortByStart([]) == [];
    assert ClippedRelevant(single, m) == [];
    assert GapFill(100, [], 100) == [Identity(100, 1)];
    assert Effective(single, m) == [Identity(100, 1)];
    OneEffectiveRange(single, m, Identity(100, 1));
  }

  /** A span with a single effective range maps to that range's output span alone. */
  lemma {:induction false} OneEffectiveRange(s: Span, m: InputMap, c: ConversionRange)
    requires Effective(s, m) == [c]
    ensures MapAll([s], m) == [Convert(s, c)]
  {
    assert MapRangeOf(s, m) == [Convert(s, c)];
    assert MapAll([s], m) == MapRangeOf(s, m) + MapAll([], m);
  }

  const ExampleMaps: seq<InputMap> := [
    InputMap("seed", "soil", [ConversionRange(50, 98, 2), ConversionRange(52, 50, 48)]),
    InputMap("soil", "fertilizer", [ConversionRange(0, 15, 37), ConversionRange(37, 52, 2), ConversionRange(39, 0, 15)]),
    InputMap("fertilizer", "water", [ConversionRange(49, 53, 8), ConversionRange(0, 11, 42), ConversionRange(42, 0, 7), ConversionRange(57, 7, 4)]),
    InputMap("water", "light", [ConversionRange(88, 18, 7), ConversionRange(18, 25, 70)]),
    InputMap("light", "temperature", [ConversionRange(45, 77, 23), ConversionRange(81, 45, 19), ConversionRange(68, 64, 13)]),
    InputMap("temperature", "humidity", [ConversionRange(0, 69, 1), ConversionRange(1, 0, 69)]),
    InputMap("humidity", "location", [ConversionRange(60, 56, 37), ConversionRange(56, 93, 4)])
  ]

  /** The worked example's seeds through map 1. */
  lemma {:induction false} ExampleMap0()
    ensures MapValue(79, ExampleMaps[0]) == 81 && MapValue(14, ExampleMaps[0]) == 14 && MapValue(55, ExampleMaps[0]) == 57 && MapValue(13, ExampleMaps[0]) == 13
  {
  }

  /** The worked example's seeds through map 2. */
  lemma {:induction false} ExampleMap1a()
    ensures MapValue(81, ExampleMaps[1]) == 81 && MapValue(14, ExampleMaps[1]) == 53
  {
  }

  /** The worked example's seeds through map 2. */
  lemma {:induction false} ExampleMap1b()
    ensures MapValue(57, ExampleMaps[1]) == 57 && MapValue(13, ExampleMaps[1]) == 52
  {
  }

  /** The worked example's seeds through map 3. */
  lemma {:induction false} ExampleMap2a()
    ensures MapValue(81, ExampleMaps[2]) == 81 && MapValue(53, ExampleMaps[2]) == 49
  {
    ExampleMap2Value(81, 81);
    ExampleMap2Value(53, 49);
  }

  /** The worked example's seeds through map 3. */
  lemma {:induction false} ExampleMap2b()
    ensures MapValue(57, ExampleMaps[2]) == 53 && MapValue(52, ExampleMaps[2]) == 41
  {
    ExampleMap2Value(57, 53);
    ExampleMap2Value(52, 41);
  }

  /** One value through map 3, which has four ranges. */
  lemma {:induction false} ExampleMap2Value(v: int, w: int)
    requires (v, w) in {(81, 81), (53, 49), (57, 53), (52, 41)}
    ensures MapValue(v, ExampleMaps[2]) == w
  {
  }

  /** The worked example's seeds through map 4. */
  lemma {:induction false} ExampleMap3()
    ensures MapValue(81, ExampleMaps[3]) == 74 && MapValue(49, ExampleMaps[3]) == 42 && MapValue(53, ExampleMaps[3]) == 46 && MapValue(41, ExampleMaps[3]) == 34
  {
  }

  /** The worked example's seeds through map 5. */
  lemma {:induction false} ExampleMap4()
    ensures MapValue(74, ExampleMaps[4]) == 78 && MapValue(42, ExampleMaps[4]) == 42 && MapValue(46, ExampleMaps[4]) == 82 && MapValue(34, ExampleMaps[4]) == 34
  {
  }

  /** The worked example's seeds through map 6. */
  lemma {:induction false} ExampleMap5()
    ensures MapValue(78, ExampleMaps[5]) == 78 && MapValue(42, ExampleMaps[5]) == 43 && MapValue(82, ExampleMaps[5]) == 82 && MapValue(34, ExampleMaps[5]) == 35
  {
  }

  /** The worked example's seeds through map 7. */
  lemma {:induction false} ExampleMap6()
    ensures MapValue(78, ExampleMaps[6]) == 82 && MapValue(43, ExampleMaps[6]) == 43 && MapValue(82, ExampleMaps[6]) == 86 && MapValue(35, ExampleMaps[6]) == 35
  {
  }

  /** Locating through seven maps applies them one after another. */
  lemma {:induction false} LocateSeven(v: int, ms: seq<InputMap>)
    requires |ms| == 7
    ensures Locate(v, ms) == MapValue(MapValue(MapValue(MapValue(MapValue(MapValue(MapValue(v, ms[0]), ms[1]), ms[2]), ms[3]), ms[4]), ms[5]), ms[6])
  {
    var w1 := MapValue(v, ms[0]);
    var w2 := MapValue(w1, ms[1]);
    var w3 := MapValue(w2, ms[2]);
    var w4 := MapValue(w3, ms[3]);
    var w5 := MapValue(w4, ms[4]);
    var w6 := MapValue(w5, ms[5]);
    var w7 := MapValue(w6, ms[6]);
    assert ms[6..][1..] == ms[7..] && ms[5..][1..] == ms[6..] && ms[4..][1..] == ms[5..];
    assert ms[3..][1..] == ms[4..] && ms[2..][1..] == ms[3..] && ms[1..][1..] == ms[2..];
    assert Locate(w6, ms[6..]) == w7;
    assert Locate(w5, ms[5..]) == w7;
    assert Locate(w4, ms[4..]) == w7;
    assert Locate(w3, ms[3..]) == w7;
    assert Locate(w2, ms[2..]) == w7;
    assert Locate(w1, ms[1..]) == w7;
  }

  lemma {:induction false} ExampleSeed79(maps: seq<InputMap>)
    requires maps == ExampleMaps
    ensures Locate(79, maps) == 82
  {
    LocateSeven(79, maps);
    ExampleMap0();
    ExampleMap1a();
    ExampleMap2a();
    ExampleMap3();
    ExampleMap4();
    ExampleMap5();
    ExampleMap6();
  }

  lemma {:induction false} ExampleSeed14(maps: seq<InputMap>)
    requires maps == ExampleMaps
    ensures Locate(14, maps) == 43
  {
    LocateSeven(14, maps);
    ExampleMap0();
    ExampleMap1a();
    ExampleMap2a();
    ExampleMap3();
    ExampleMap4();
    ExampleMap5();
    ExampleMap6();
  }

  lemma {:induction false} ExampleSeed55(maps: seq<InputMap>)
    requires maps == ExampleMaps
    ensures Locate(55, maps) == 86
  {
    LocateSeven(55, maps);
    ExampleMap0();
    ExampleMap1b();
    ExampleMap2b();
    ExampleMap3();
    ExampleMap4();
    ExampleMap5();
    ExampleMap6();
  }

  lemma {:induction false} ExampleSeed13(maps: seq<InputMap>)
    requires maps == ExampleMaps
    ensures Locate(13, maps) == 35
  {
    LocateSeven(13, maps);
    ExampleMap0();
    ExampleMap1b();
    ExampleMap2b();
    ExampleMap3();
    ExampleMap4();
    ExampleMap5();
    ExampleMap6();
  }

  /** The worked example: the seeds 79, 14, 55 and 13 reach locations 82, 43, 86 and 35. */
  lemma {:induction false} ExampleLocations()
    ensures Locate(79, ExampleMaps) == 82 && Locate(14, ExampleMaps) == 43
    ensures Locate(55, ExampleMaps) == 86 && Locate(13, ExampleMaps) == 35
  {
    ExampleSeed79(ExampleMaps);
    ExampleSeed14(ExampleMaps);
    ExampleSeed55(ExampleMaps);
    ExampleSeed13(ExampleMaps);
  }

  /** With those locations, `part1` of the worked example is 35, the smallest. */
  lemma {:induction false} ExamplePart1(data: InputData)
    requires Locations(data) == [82, 43, 86, 35]
    ensures Part1(data) == Some(35)
  {
    assert MinOf([35]) == Some(35);
    assert MinOf([86, 35]) == Some(35);
    assert MinOf([43, 86, 35]) == Some(35);
  }
}
