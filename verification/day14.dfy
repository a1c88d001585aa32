/**
 * day_14.ts: rounded rocks (`O`) on a platform roll north until they meet a
 * cube rock (`#`), another rounded rock or the edge; the load is the sum,
 * over the rounded rocks, of their distance from the south edge.
 *
 * Each column tilts on its own. `Tilt` is the reference result for one
 * column: in every stretch between cells that never move, the rounded rocks
 * gather at the north end. `TiltedFrom` characterises a tilted column by
 * what `tiltNorth` preserves and establishes, and the two are proved to
 * agree (`TiltIsTilted`, `TiltedIsTilt`).
 */
module Day14 {
  import Text

  const Rock: char := 'O'
  const Empty: char := '.'

  /** A cell `tiltNorth` may change: a rounded rock or an empty space. Every other tile stays put. */
  predicate Movable(c: char) {
    c == Rock || c == Empty
  }

  /** The number of rounded rocks in `s`. */
  function CountRocks(s: seq<char>): (n: nat)
    ensures n <= |s|
  {
    if s == [] then 0 else CountRocks(s[..|s| - 1]) + (if s[|s| - 1] == Rock then 1 else 0)
  }

  function Rocks(n: nat): (s: seq<char>)
    ensures |s| == n && forall i :: 0 <= i < n ==> s[i] == Rock
  {
    seq(n, _ => Rock)
  }

  function Empties(n: nat): (s: seq<char>)
    ensures |s| == n && forall i :: 0 <= i < n ==> s[i] == Empty
  {
    seq(n, _ => Empty)
  }

  /** Row `r` holds a rounded rock with an empty space directly north of it. */
  predicate CanRoll(s: seq<char>, r: int) {
    1 <= r < |s| && s[r] == Rock && s[r - 1] == Empty
  }

  /** No rounded rock has an empty space directly north of it. */
  predicate Settled(s: seq<char>) {
    forall r :: 0 <= r < |s| ==> !CanRoll(s, r)
  }

  /** The same cells are movable, and the cells that are not movable hold the same tiles. */
  predicate SameShape(s: seq<char>, t: seq<char>) {
    && |s| == |t|
    && forall r :: 0 <= r < |s| ==> (Movable(s[r]) <==> Movable(t[r])) && (!Movable(s[r]) ==> t[r] == s[r])
  }

  /** A row where a stretch of movable cells ends: a fixed cell, or the south edge. */
  predicate StretchEnd(s: seq<char>, r: int) {
    0 <= r <= |s| && (r == |s| || !Movable(s[r]))
  }

  /** The number of rounded rocks north of row `r`. */
  function RocksNorthOf(s: seq<char>, r: int): nat
    requires 0 <= r <= |s|
  {
    CountRocks(s[..r])
  }

  /** Every stretch keeps its number of rounded rocks: the counts north of each stretch end agree. */
  predicate SameStretchCounts(s: seq<char>, t: seq<char>) {
    && |s| == |t|
    && forall r :: 0 <= r <= |s| && StretchEnd(s, r) ==> RocksNorthOf(s, r) == RocksNorthOf(t, r)
  }

  /** `t` is `s` tilted north: rocks moved only within their stretch, and all of them as far north as they go. */
  predicate TiltedFrom(s: seq<char>, t: seq<char>) {
    SameShape(s, t) && SameStretchCounts(s, t) && Settled(t)
  }

  /** The length of the stretch of movable cells at the north end of `s`. */
  function MovableRun(s: seq<char>): (k: nat)
    ensures k <= |s|
    ensures forall i :: 0 <= i < k ==> Movable(s[i])
    ensures k < |s| ==> !Movable(s[k])
  {
    if s == [] || !Movable(s[0]) then 0 else 1 + MovableRun(s[1..])
  }

  /** The reference tilt of one column: each stretch becomes its rocks followed by its empty cells. */
  function Tilt(s: seq<char>): (t: seq<char>)
    ensures |t| == |s|
    decreases |s|
  {
    var k := MovableRun(s);
    var n := CountRocks(s[..k]);
    Rocks(n) + Empties(k - n) + (if k < |s| then [s[k]] + Tilt(s[k + 1..]) else [])
  }

  lemma {:induction false} CountAppend(a: seq<char>, b: seq<char>)
    ensures CountRocks(a + b) == CountRocks(a) + CountRocks(b)
    decreases |b|
  {
    if b == [] {
      assert a + b == a;
    } else {
      var b' := b[..|b| - 1];
      assert (a + b)[..|a + b| - 1] == a + b';
      CountAppend(a, b');
    }
  }

  lemma {:induction false} CountRocksAndEmpties(n: nat, m: nat)
    ensures CountRocks(Rocks(n) + Empties(m)) == n
  {
    if m == 0 {
      assert Rocks(n) + Empties(m) == Rocks(n);
      RocksCount(n);
    } else {
      assert (Rocks(n) + Empties(m))[..n + m - 1] == Rocks(n) + Empties(m - 1);
      CountRocksAndEmpties(n, m - 1);
    }
  }

  lemma {:induction false} RocksCount(n: nat)
    ensures CountRocks(Rocks(n)) == n
  {
    if n > 0 {
      assert Rocks(n)[..n - 1] == Rocks(n - 1);
      RocksCount(n - 1);
    }
  }

  /** A settled stretch of movable cells is its rocks followed by its empty cells. */
  lemma {:induction false} SettledStretch(u: seq<char>)
    requires forall i :: 0 <= i < |u| ==> Movable(u[i])
    requires Settled(u)
    ensures CountRocks(u) <= |u|
    ensures u == Rocks(CountRocks(u)) + Empties(|u| - CountRocks(u))
    decreases |u|
  {
    if u != [] {
      var u' := u[..|u| - 1];
      assert Settled(u') by {
        forall r | 0 <= r < |u'| ensures !CanRoll(u', r) {
          assert !CanRoll(u, r);
        }
      }
      SettledStretch(u');
      var c := CountRocks(u');
      if u[|u| - 1] == Rock && |u| >= 2 {
        assert !CanRoll(u, |u| - 1);
        assert u[|u| - 2] == Rock;
        assert u'[|u'| - 1] == Rock;
        assert |u'| == c;
      }
      assert u == u' + [u[|u| - 1]];
    }
  }

  /** Counting north of row `k + 1 + r` splits at row `k + 1`. */
  lemma {:induction false} CountSplit(t: seq<char>, k: nat, r: nat)
    requires k + 1 + r <= |t|
    ensures RocksNorthOf(t, k + 1 + r) == RocksNorthOf(t, k + 1) + RocksNorthOf(t[k + 1..], r)
  {
    assert t[..k + 1 + r] == t[..k + 1] + t[k + 1..][..r];
    CountAppend(t[..k + 1], t[k + 1..][..r]);
  }

  /** Past the first fixed cell, two columns have the same shape exactly when their tails do. */
  lemma {:induction false} ShapeGlue(s: seq<char>, t: seq<char>, k: nat)
    requires k < |s| == |t|
    requires forall i :: 0 <= i < k ==> Movable(s[i]) && Movable(t[i])
    requires !Movable(s[k]) && t[k] == s[k]
    ensures SameShape(s, t) <==> SameShape(s[k + 1..], t[k + 1..])
  {
    var rest, tail := s[k + 1..], t[k + 1..];
    if SameShape(rest, tail) {
      forall r | 0 <= r < |s| ensures (Movable(s[r]) <==> Movable(t[r])) && (!Movable(s[r]) ==> t[r] == s[r]) {
        if r > k {
          assert t[r] == tail[r - k - 1] && s[r] == rest[r - k - 1];
        }
      }
    }
    if SameShape(s, t) {
      forall r | 0 <= r < |rest| ensures (Movable(rest[r]) <==> Movable(tail[r])) && (!Movable(rest[r]) ==> tail[r] == rest[r]) {
        assert rest[r] == s[r + k + 1] && tail[r] == t[r + k + 1];
      }
    }
  }

  /** Past the first fixed cell, with equal counts before it, the stretch counts agree exactly when the tails' do. */
  lemma {:induction false} CountsGlue(s: seq<char>, t: seq<char>, k: nat)
    requires k < |s| == |t|
    requires forall i :: 0 <= i < k ==> Movable(s[i])
    requires !Movable(s[k]) && t[k] == s[k]
    requires RocksNorthOf(s, k) == RocksNorthOf(t, k)
    ensures SameStretchCounts(s, t) <==> SameStretchCounts(s[k + 1..], t[k + 1..])
  {
    var rest, tail := s[k + 1..], t[k + 1..];
    assert RocksNorthOf(t, k + 1) == RocksNorthOf(s, k + 1) by {
      assert t[..k + 1] == t[..k] + [s[k]];
      assert s[..k + 1] == s[..k] + [s[k]];
      CountAppend(t[..k], [s[k]]);
      CountAppend(s[..k], [s[k]]);
    }
    if SameStretchCounts(rest, tail) {
      forall r | 0 <= r <= |s| && StretchEnd(s, r) ensures RocksNorthOf(s, r) == RocksNorthOf(t, r) {
        if r > k {
          var r' := r - k - 1;
          assert StretchEnd(rest, r') by {
            if r < |s| {
              assert rest[r'] == s[r];
            }
          }
          CountSplit(s, k, r');
          CountSplit(t, k, r');
        } else {
          assert r == k;
        }
      }
    }
    if SameStretchCounts(s, t) {
      forall r | 0 <= r <= |rest| && StretchEnd(rest, r) ensures RocksNorthOf(rest, r) == RocksNorthOf(tail, r) {
        assert StretchEnd(s, r + k + 1) by {
          if r < |rest| {
            assert rest[r] == s[r + k + 1];
          }
        }
        CountSplit(s, k, r);
        CountSplit(t, k, r);
      }
    }
  }

  /** A column is settled exactly when both sides of a fixed cell are. */
  lemma {:induction false} SettledGlue(t: seq<char>, k: nat)
    requires k < |t| && !Movable(t[k])
    ensures Settled(t) <==> Settled(t[..k]) && Settled(t[k + 1..])
  {
    var head, tail := t[..k], t[k + 1..];
    if Settled(head) && Settled(tail) {
      forall r | 0 <= r < |t| ensures !CanRoll(t, r) {
        if r > k + 1 {
          assert !CanRoll(tail, r - k - 1);
          assert t[r] == tail[r - k - 1] && t[r - 1] == tail[r - k - 2];
        } else if 1 <= r < k {
          assert !CanRoll(head, r);
          assert t[r] == head[r] && t[r - 1] == head[r - 1];
        }
      }
    }
    if Settled(t) {
      forall r | 0 <= r < |head| ensures !CanRoll(head, r) {
        assert !CanRoll(t, r);
        if r >= 1 {
          assert head[r] == t[r] && head[r - 1] == t[r - 1];
        }
      }
      forall r | 0 <= r < |tail| ensures !CanRoll(tail, r) {
        assert !CanRoll(t, r + k + 1);
        if r >= 1 {
          assert tail[r] == t[r + k + 1] && tail[r - 1] == t[r + k];
        }
      }
    }
  }

  /** Rocks followed by empty cells are settled. */
  lemma {:induction false} RocksThenEmptiesSettled(n: nat, m: nat)
    ensures Settled(Rocks(n) + Empties(m))
  {
    var u := Rocks(n) + Empties(m);
    forall r | 0 <= r < |u| ensures !CanRoll(u, r) {
      if 1 <= r && u[r] == Rock {
        assert r < n;
      }
    }
  }

  /** A column is tilted exactly when its first stretch is settled with the same rocks and the rest past the fixed cell is tilted. */
  lemma {:induction false} TiltedGlue(s: seq<char>, t: seq<char>, k: nat)
    requires k < |s| == |t|
    requires forall i :: 0 <= i < k ==> Movable(s[i]) && Movable(t[i])
    requires !Movable(s[k]) && t[k] == s[k]
    requires RocksNorthOf(s, k) == RocksNorthOf(t, k)
    ensures TiltedFrom(s, t) <==> Settled(t[..k]) && TiltedFrom(s[k + 1..], t[k + 1..])
  {
    ShapeGlue(s, t, k);
    CountsGlue(s, t, k);
    SettledGlue(t, k);
  }

  /** Without fixed cells, a settled column of movable cells with the same number of rocks is a tilt. */
  lemma {:induction false} TiltedOneStretch(s: seq<char>, t: seq<char>)
    requires |t| == |s|
    requires forall i :: 0 <= i < |s| ==> Movable(s[i]) && Movable(t[i])
    requires CountRocks(t) == CountRocks(s)
    requires Settled(t)
    ensures TiltedFrom(s, t)
  {
    assert s[..|s|] == s && t[..|t|] == t;
  }

  /** The reference tilt of a column without fixed cells. */
  lemma {:induction false} TiltNoFixed(s: seq<char>)
    requires MovableRun(s) == |s|
    ensures CountRocks(s) <= |s|
    ensures Tilt(s) == Rocks(CountRocks(s)) + Empties(|s| - CountRocks(s))
  {
    assert s[..|s|] == s;
  }

  /** Without fixed cells, the rocks followed by the empty cells are a tilt. */
  lemma {:induction false} RocksThenEmptiesTilted(s: seq<char>)
    requires forall i :: 0 <= i < |s| ==> Movable(s[i])
    ensures CountRocks(s) <= |s|
    ensures TiltedFrom(s, Rocks(CountRocks(s)) + Empties(|s| - CountRocks(s)))
  {
    var n := CountRocks(s);
    CountRocksAndEmpties(n, |s| - n);
    RocksThenEmptiesSettled(n, |s| - n);
    TiltedOneStretch(s, Rocks(n) + Empties(|s| - n));
  }

  /** A column without fixed cells tilts to its rocks followed by its empty cells. */
  lemma {:induction false} TiltOfOneStretch(s: seq<char>)
    requires MovableRun(s) == |s|
    ensures TiltedFrom(s, Tilt(s))
  {
    TiltNoFixed(s);
    RocksThenEmptiesTilted(s);
    var t := Tilt(s);
    var h := Rocks(CountRocks(s)) + Empties(|s| - CountRocks(s));
    assert SameShape(s, h);
    assert SameShape(s, t);
    assert SameStretchCounts(s, h);
    assert SameStretchCounts(s, t);
    assert Settled(h);
    assert Settled(t);
  }

  /** The reference tilt of a column with a fixed cell at `k`, the end of its first stretch, taken apart at `k`. */
  lemma {:induction false} TiltAtFixed(s: seq<char>, k: nat)
    requires k == MovableRun(s) < |s|
    ensures CountRocks(s[..k]) <= k
    ensures Tilt(s)[..k] == Rocks(CountRocks(s[..k])) + Empties(k - CountRocks(s[..k]))
    ensures Tilt(s)[k] == s[k]
    ensures Tilt(s)[k + 1..] == Tilt(s[k + 1..])
  {
    var n := CountRocks(s[..k]);
    var head := Rocks(n) + Empties(k - n);
    assert Tilt(s) == head + [s[k]] + Tilt(s[k + 1..]);
  }

  /** The reference tilt is a tilt: it keeps the shape and the stretch counts, and it is settled. */
  lemma {:induction false} TiltIsTilted(s: seq<char>)
    ensures TiltedFrom(s, Tilt(s))
    decreases |s|
  {
    var k := MovableRun(s);
    if k == |s| {
      TiltOfOneStretch(s);
    } else {
      TiltAtFixed(s, k);
      TiltIsTilted(s[k + 1..]);
      FixedCellTilted(s, Tilt(s), k, CountRocks(s[..k]));
    }
  }

  /** A column whose first stretch, ending at the fixed cell `k`, becomes its rocks then its empty cells, and whose rest is a tilt, is a tilt. */
  lemma {:induction false} FixedCellTilted(s: seq<char>, t: seq<char>, k: nat, n: nat)
    requires k == MovableRun(s) < |s| == |t|
    requires n == CountRocks(s[..k]) <= k
    requires t[..k] == Rocks(n) + Empties(k - n) && t[k] == s[k]
    requires TiltedFrom(s[k + 1..], t[k + 1..])
    ensures TiltedFrom(s, t)
  {
    CountRocksAndEmpties(n, k - n);
    RocksThenEmptiesSettled(n, k - n);
    assert forall i :: 0 <= i < k ==> Movable(t[i]) by {
      forall i | 0 <= i < k ensures Movable(t[i]) {
        assert t[i] == t[..k][i];
      }
    }
    TiltedGlue(s, t, k);
  }

  /** Without fixed cells, the reference tilt is the only tilt. */
  lemma {:induction false} TiltedIsTiltOneStretch(s: seq<char>, t: seq<char>)
    requires MovableRun(s) == |s|
    requires TiltedFrom(s, t)
    ensures t == Tilt(s)
  {
    assert forall i :: 0 <= i < |t| ==> Movable(t[i]);
    assert StretchEnd(s, |s|);
    assert RocksNorthOf(s, |s|) == RocksNorthOf(t, |t|);
    assert s[..|s|] == s && t[..|t|] == t;
    SettledStretch(t);
    TiltNoFixed(s);
  }

  /** Two sequences that agree before, at and after position `k` are equal. */
  lemma {:induction false} EqualByParts(a: seq<char>, b: seq<char>, k: nat)
    requires k < |a| == |b|
    requires a[..k] == b[..k] && a[k] == b[k] && a[k + 1..] == b[k + 1..]
    ensures a == b
  {
    assert a == a[..k] + [a[k]] + a[k + 1..];
    assert b == b[..k] + [b[k]] + b[k + 1..];
  }

  /** A tilt is unique: any column with the properties of a tilt is the reference tilt. */
  lemma {:induction false} TiltedIsTilt(s: seq<char>, t: seq<char>)
    requires TiltedFrom(s, t)
    ensures t == Tilt(s)
    decreases |s|
  {
    var k := MovableRun(s);
    if k == |s| {
      TiltedIsTiltOneStretch(s, t);
    } else {
      assert forall i :: 0 <= i < k ==> Movable(t[i]);
      assert StretchEnd(s, k);
      TiltedGlue(s, t, k);
      SettledStretch(t[..k]);
      TiltedIsTilt(s[k + 1..], t[k + 1..]);
      TiltAtFixed(s, k);
      EqualByParts(t, Tilt(s), k);
    }
  }

  /** Tilting twice is tilting once. */
  lemma {:induction false} TiltIdempotent(s: seq<char>)
    ensures Tilt(Tilt(s)) == Tilt(s)
  {
    var t := Tilt(s);
    TiltIsTilted(s);
    assert TiltedFrom(t, t);
    TiltedIsTilt(t, t);
  }

  // ---------------------------------------------------------------------
  // The platform: rows of tiles, tilted column by column

  /** Every row as wide as the first one. */
  predicate Rectangular(g: seq<seq<char>>) {
    forall y :: 0 <= y < |g| ==> |g[y]| == |g[0]|
  }

  function Width(g: seq<seq<char>>): nat {
    if g == [] then 0 else |g[0]|
  }

  /** Column `x` of a rectangular grid, north to south. */
  function ColumnOf(g: seq<seq<char>>, x: nat): (col: seq<char>)
    requires Rectangular(g) && x < Width(g)
    ensures |col| == |g| && forall y :: 0 <= y < |g| ==> col[y] == g[y][x]
  {
    seq(|g|, y requires 0 <= y < |g| => g[y][x])
  }

  /** The grid with every column tilted north. */
  function TiltGrid(g: seq<seq<char>>): (t: seq<seq<char>>)
    requires Rectangular(g)
    ensures |t| == |g| && Rectangular(t) && Width(t) == Width(g)
  {
    seq(|g|, y requires 0 <= y < |g| => seq(Width(g), x requires 0 <= x < Width(g) => Tilt(ColumnOf(g, x))[y]))
  }

  /** A grid of the same size whose every column is the tilt of the original column is the tilted grid. */
  lemma {:induction false} TiltGridByColumns(g: seq<seq<char>>, t: seq<seq<char>>)
    requires Rectangular(g) && Rectangular(t) && |t| == |g| && Width(t) == Width(g)
    requires forall x :: 0 <= x < Width(g) ==> ColumnOf(t, x) == Tilt(ColumnOf(g, x))
    ensures t == TiltGrid(g)
  {
    var tg := TiltGrid(g);
    forall y | 0 <= y < |g| ensures t[y] == tg[y] {
      forall x | 0 <= x < Width(g) ensures t[y][x] == tg[y][x] {
        assert ColumnOf(t, x)[y] == t[y][x];
      }
    }
  }

  /** A tilt of a platform is unique: a grid of the same size whose every column is a tilt of the original column is the tilted grid. */
  lemma {:induction false} TiltedGridIsTiltGrid(g: seq<seq<char>>, t: seq<seq<char>>)
    requires Rectangular(g) && Rectangular(t) && |t| == |g| && Width(t) == Width(g)
    requires forall x :: 0 <= x < Width(g) ==> TiltedFrom(ColumnOf(g, x), ColumnOf(t, x))
    ensures t == TiltGrid(g)
  {
    forall x | 0 <= x < Width(g) ensures ColumnOf(t, x) == Tilt(ColumnOf(g, x)) {
      TiltedIsTilt(ColumnOf(g, x), ColumnOf(t, x));
    }
    TiltGridByColumns(g, t);
  }

  /** Each column of the tilted grid is the tilt of the original column. */
  lemma {:induction false} TiltGridColumn(g: seq<seq<char>>, x: nat)
    requires Rectangular(g) && x < Width(g)
    ensures ColumnOf(TiltGrid(g), x) == Tilt(ColumnOf(g, x))
  {
  }

  /**
   * Tilting keeps every tile that is not a rounded rock or an empty space
   * in place, keeps the number of rounded rocks between consecutive fixed
   * tiles of each column, and leaves no rock below an empty space.
   */
  lemma {:induction false} TiltGridIsTilted(g: seq<seq<char>>, x: nat)
    requires Rectangular(g) && x < Width(g)
    ensures TiltedFrom(ColumnOf(g, x), ColumnOf(TiltGrid(g), x))
  {
    TiltGridColumn(g, x);
    TiltIsTilted(ColumnOf(g, x));
  }

  /** Tilting a tilted platform changes nothing. */
  lemma {:induction false} TiltGridIdempotent(g: seq<seq<char>>)
    requires Rectangular(g)
    ensures TiltGrid(TiltGrid(g)) == TiltGrid(g)
  {
    var t := TiltGrid(g);
    forall x | 0 <= x < Width(t) ensures ColumnOf(t, x) == Tilt(ColumnOf(t, x)) {
      TiltGridColumn(g, x);
      TiltIdempotent(ColumnOf(g, x));
    }
    TiltGridByColumns(t, t);
  }

  // ---------------------------------------------------------------------
  // tiltNorth, in place

  function Rows(a: array2<char>): (g: seq<seq<char>>)
    reads a
    ensures |g| == a.Length0 && Rectangular(g)
    ensures g != [] ==> Width(g) == a.Length1
  {
    seq(a.Length0, y requires 0 <= y < a.Length0 reads a => seq(a.Length1, x requires 0 <= x < a.Length1 reads a => a[y, x]))
  }

  /** Column `t` is `s` with its rows north of `y` already settled. */
  predicate TiltedAbove(s: seq<char>, t: seq<char>, y: int) {
    && SameShape(s, t)
    && SameStretchCounts(s, t)
    && forall r :: 0 <= r < |t| && r < y ==> !CanRoll(t, r)
  }

  /**
   * While the rock that started in row `y` rolls north and now sits in row
   * `cy`: rows up to `y` are settled except possibly at `cy`, and the rows
   * it rolled through are empty.
   */
  predicate Rolling(s: seq<char>, t: seq<char>, y: int, cy: int) {
    && SameShape(s, t)
    && SameStretchCounts(s, t)
    && 0 <= cy <= y < |t|
    && (forall r :: 0 <= r <= y && r != cy ==> !CanRoll(t, r))
    && (forall r :: cy < r <= y ==> t[r] == Empty)
  }

  /** Swapping a rock with the empty space north of it keeps the count of rocks north of every other row. */
  lemma {:induction false} SwapKeepsCounts(t: seq<char>, cy: nat, r: nat)
    requires 0 < cy < |t| && t[cy] == Rock && t[cy - 1] == Empty
    requires r <= |t| && r != cy
    ensures RocksNorthOf(t[cy - 1 := Rock][cy := Empty], r) == RocksNorthOf(t, r)
  {
    var t' := t[cy - 1 := Rock][cy := Empty];
    if r < cy {
      assert t'[..r] == t[..r];
    } else {
      assert t'[..r] == t[..cy - 1] + [Rock, Empty] + t[cy + 1..r];
      assert t[..r] == t[..cy - 1] + [Empty, Rock] + t[cy + 1..r];
      CountAppend(t[..cy - 1] + [Rock, Empty], t[cy + 1..r]);
      CountAppend(t[..cy - 1] + [Empty, Rock], t[cy + 1..r]);
      CountAppend(t[..cy - 1], [Rock, Empty]);
      CountAppend(t[..cy - 1], [Empty, Rock]);
      assert [Rock, Empty][..1] == [Rock] && [Empty, Rock][..1] == [Empty];
    }
  }

  /** One step of the inner loop of `tiltNorth`: the rolling rock moves one row north. */
  lemma {:induction false} RollStep(s: seq<char>, t: seq<char>, y: int, cy: int)
    requires Rolling(s, t, y, cy)
    requires cy > 0 && t[cy] == Rock && t[cy - 1] == Empty
    ensures Rolling(s, t[cy - 1 := Rock][cy := Empty], y, cy - 1)
  {
    var t' := t[cy - 1 := Rock][cy := Empty];
    assert SameShape(s, t') by {
      assert SameShape(s, t);
      forall r | 0 <= r < |s| ensures (Movable(s[r]) <==> Movable(t'[r])) && (!Movable(s[r]) ==> t'[r] == s[r]) {
      }
    }
    assert SameStretchCounts(s, t') by {
      forall r | 0 <= r <= |s| && StretchEnd(s, r) ensures RocksNorthOf(s, r) == RocksNorthOf(t', r) {
        assert Movable(t[cy]) && Movable(s[cy]);
        SwapKeepsCounts(t, cy, r);
      }
    }
    forall r | 0 <= r <= y && r != cy - 1 ensures !CanRoll(t', r) {
      if r != cy && r != cy + 1 {
        assert !CanRoll(t, r);
      }
    }
  }

  /**
   * The inner loop of `tiltNorth`: the rock in row `y` of column `x`, if
   * any, rolls north while the space north of it is empty. `cols` is the
   * grid seen column by column; only column `x` changes.
   */
  method RollNorth(tiles: array2<char>, x: int, y: int, ghost start: seq<seq<char>>, ghost cols: seq<seq<char>>)
    returns (ghost cols': seq<seq<char>>)
    modifies tiles
    requires 0 <= x < tiles.Length1 && 0 <= y < tiles.Length0
    requires |cols| == |start| == tiles.Length1
    requires forall c :: 0 <= c < tiles.Length1 ==> |cols[c]| == tiles.Length0
    requires forall r, c :: 0 <= r < tiles.Length0 && 0 <= c < tiles.Length1 ==> tiles[r, c] == cols[c][r]
    requires TiltedAbove(start[x], cols[x], y)
    ensures |cols'| == |cols| && forall c :: 0 <= c < tiles.Length1 && c != x ==> cols'[c] == cols[c]
    ensures forall c :: 0 <= c < tiles.Length1 ==> |cols'[c]| == tiles.Length0
    ensures forall r, c :: 0 <= r < tiles.Length0 && 0 <= c < tiles.Length1 ==> tiles[r, c] == cols'[c][r]
    ensures TiltedAbove(start[x], cols'[x], y + 1)
  {
    cols' := cols;
    var cy := y;
    while cy > 0 && tiles[cy, x] == Rock && tiles[cy - 1, x] == Empty
      invariant |cols'| == |cols| && forall c :: 0 <= c < tiles.Length1 && c != x ==> cols'[c] == cols[c]
      invariant forall c :: 0 <= c < tiles.Length1 ==> |cols'[c]| == tiles.Length0
      invariant forall r, c :: 0 <= r < tiles.Length0 && 0 <= c < tiles.Length1 ==> tiles[r, c] == cols'[c][r]
      invariant Rolling(start[x], cols'[x], y, cy)
    {
      RollStep(start[x], cols'[x], y, cy);
      tiles[cy - 1, x] := Rock;
      tiles[cy, x] := Empty;
      cols' := cols'[x := cols'[x][cy - 1 := Rock][cy := Empty]];
      cy := cy - 1;
    }
    assert !CanRoll(cols'[x], cy);
  }

  /** `tiltNorth`: every rounded rock rolls north as far as it goes; the result is the tilted grid. */
  method TiltNorth(tiles: array2<char>)
    modifies tiles
    ensures Rows(tiles) == TiltGrid(old(Rows(tiles)))
  {
    var h, w := tiles.Length0, tiles.Length1;
    ghost var orig := Rows(tiles);
    ghost var start: seq<seq<char>> := seq(w, x requires 0 <= x < w reads tiles => seq(h, y requires 0 <= y < h reads tiles => tiles[y, x]));
    ghost var cols := start;
    var y := 1;
    while y < h
      invariant 1 <= y && (h == 0 || y <= h)
      invariant |cols| == w && forall x :: 0 <= x < w ==> |cols[x]| == h
      invariant forall r, x :: 0 <= r < h && 0 <= x < w ==> tiles[r, x] == cols[x][r]
      invariant forall x :: 0 <= x < w ==> TiltedAbove(start[x], cols[x], y)
    {
      for x := 0 to w
        invariant |cols| == w && forall c :: 0 <= c < w ==> |cols[c]| == h
        invariant forall r, c :: 0 <= r < h && 0 <= c < w ==> tiles[r, c] == cols[c][r]
        invariant forall c :: 0 <= c < x ==> TiltedAbove(start[c], cols[c], y + 1)
        invariant forall c :: x <= c < w ==> TiltedAbove(start[c], cols[c], y)
      {
        cols := RollNorth(tiles, x, y, start, cols);
      }
      y := y + 1;
    }
    if h > 0 {
      forall x | 0 <= x < w ensures ColumnOf(Rows(tiles), x) == Tilt(ColumnOf(orig, x)) {
        assert TiltedFrom(start[x], cols[x]);
        TiltedIsTilt(start[x], cols[x]);
        assert ColumnOf(orig, x) == start[x];
        assert ColumnOf(Rows(tiles), x) == cols[x];
      }
      TiltGridByColumns(orig, Rows(tiles));
    }
  }

  // ---------------------------------------------------------------------
  // calculateLoad and part1

  /** Each rounded rock weighs as much as its distance from the south edge, counting its own row. */
  function CalculateLoad(g: seq<seq<char>>): nat {
    if g == [] then 0 else CountRocks(g[0]) * |g| + CalculateLoad(g[1..])
  }

  /** Replacing one cell changes the rock count of a row by what the old and new tiles contribute. */
  lemma {:induction false} CountUpdate(row: seq<char>, x: nat, c: char)
    requires x < |row|
    ensures CountRocks(row[x := c]) + (if row[x] == Rock then 1 else 0) == CountRocks(row) + (if c == Rock then 1 else 0)
  {
    var row' := row[x := c];
    assert row == row[..x] + [row[x]] + row[x + 1..];
    assert row' == row[..x] + [c] + row[x + 1..];
    CountAppend(row[..x] + [row[x]], row[x + 1..]);
    CountAppend(row[..x] + [c], row[x + 1..]);
    CountAppend(row[..x], [row[x]]);
    CountAppend(row[..x], [c]);
    assert [row[x]][..0] == [] && [c][..0] == [];
  }

  /** Adding one rock to row `i` adds the row's weight to the load. */
  lemma {:induction false} LoadGainsRock(g: seq<seq<char>>, i: nat, row: seq<char>)
    requires i < |g| && CountRocks(row) == CountRocks(g[i]) + 1
    ensures CalculateLoad(g[i := row]) == CalculateLoad(g) + (|g| - i)
  {
    if i > 0 {
      assert g[i := row][1..] == g[1..][i - 1 := row];
      LoadGainsRock(g[1..], i - 1, row);
    } else {
      assert g[i := row][1..] == g[1..];
    }
  }

  /** Taking one rock from row `i` takes the row's weight from the load. */
  lemma {:induction false} LoadLosesRock(g: seq<seq<char>>, i: nat, row: seq<char>)
    requires i < |g| && CountRocks(row) + 1 == CountRocks(g[i])
    ensures CalculateLoad(g[i := row]) + (|g| - i) == CalculateLoad(g)
  {
    if i > 0 {
      assert g[i := row][1..] == g[1..][i - 1 := row];
      LoadLosesRock(g[1..], i - 1, row);
    } else {
      assert g[i := row][1..] == g[1..];
    }
  }

  /** Rolling a rock one row north, the step `tiltNorth` repeats, raises the load by exactly one. */
  lemma {:induction false} RollRaisesLoad(g: seq<seq<char>>, x: nat, cy: nat)
    requires 0 < cy < |g| && x < |g[cy]| && x < |g[cy - 1]|
    requires g[cy][x] == Rock && g[cy - 1][x] == Empty
    ensures CalculateLoad(g[cy - 1 := g[cy - 1][x := Rock]][cy := g[cy][x := Empty]]) == CalculateLoad(g) + 1
  {
    var above, below := g[cy - 1][x := Rock], g[cy][x := Empty];
    var g1 := g[cy - 1 := above];
    CountUpdate(g[cy - 1], x, Rock);
    CountUpdate(g[cy], x, Empty);
    LoadGainsRock(g, cy - 1, above);
    assert g1[cy] == g[cy];
    LoadLosesRock(g1, cy, below);
  }

  /** `parse`: the lines of the input, without trailing whitespace. */
  function Parse(input: string): (g: seq<seq<char>>)
    ensures |g| >= 1
  {
    Text.Split(Text.TrimEnd(input), "\n")
  }

  /** `part1`: the load on the north support beams after tilting the platform north. */
  method Part1(input: string) returns (load: nat)
    requires Rectangular(Parse(input))
    ensures load == CalculateLoad(TiltGrid(Parse(input)))
  {
    var g := Parse(input);
    var tiles := new char[|g|, |g[0]|]((y, x) requires 0 <= y < |g| && 0 <= x < |g[0]| => g[y][x]);
    forall y | 0 <= y < |g| ensures Rows(tiles)[y] == g[y] {
      assert |g[y]| == |g[0]|;
    }
    assert Rows(tiles) == g;
    TiltNorth(tiles);
    load := CalculateLoad(Rows(tiles));
  }
}
