/**
 * The least common multiple that day_8.ts takes from a third-party maths
 * package, defined here mathematically: Euclid's greatest common divisor,
 * and the least common multiple of two numbers as one divided by their
 * greatest common divisor times the other.
 */
module Multiples {
  /** `d` is a positive divisor of `n`. */
  predicate Divides(d: nat, n: int) {
    d > 0 && n % d == 0
  }

  function Abs(x: int): nat {
    if x < 0 then -x else x
  }

  /** A multiple of `d` leaves no remainder. */
  lemma {:induction false} MultipleMod(d: nat, k: int)
    requires d > 0
    ensures Divides(d, d * k)
  {
    var q := (d * k) / d;
    var r := (d * k) % d;
    assert r == d * (k - q);
    ProductBounds(d, k - q);
  }

  /** A positive number times an integer of size at least 1 has size at least that number. */
  lemma {:induction false} ProductBounds(d: nat, j: int)
    requires d > 0
    ensures j >= 1 ==> d * j >= d
    ensures j <= -1 ==> d * j <= 0 - d
  {
    if j >= 1 {
      assert d * j == d + d * (j - 1);
    } else if j <= -1 {
      assert d * j == d * (j + 1) - d;
    }
  }

  /** A number a positive `d` divides is `d` times its quotient. */
  lemma {:induction false} DividesQuotient(d: nat, n: int)
    requires Divides(d, n)
    ensures n == d * (n / d)
  {
  }

  /** A positive multiple of `d` is at least `d`. */
  lemma {:induction false} DividesBound(d: nat, n: int)
    requires Divides(d, n) && n > 0
    ensures d <= n
  {
    DividesQuotient(d, n);
  }

  /** Euclid's algorithm. */
  function Gcd(a: nat, b: nat): nat
    decreases b
  {
    if b == 0 then a else Gcd(b, a % b)
  }

  /** The greatest common divisor of two numbers, not both zero, is positive and divides both. */
  lemma {:induction false} GcdDivides(a: nat, b: nat)
    requires a > 0 || b > 0
    ensures Gcd(a, b) > 0 && Divides(Gcd(a, b), a) && Divides(Gcd(a, b), b)
    decreases b
  {
    if b == 0 {
      assert a % a == 0;
    } else {
      var g := Gcd(b, a % b);
      GcdDivides(b, a % b);
      DividesQuotient(g, b);
      DividesQuotient(g, a % b);
      var q, c, d := a / b, b / g, (a % b) / g;
      assert a == q * b + a % b;
      assert q * b == g * (q * c) by {
        assert b == g * c;
        Regroup(q, 1, g, c);
      }
      Distributes(g, q * c, d);
      MultipleMod(g, q * c + d);
    }
  }

  /** Bézout's identity: the greatest common divisor is an integer combination of the two numbers. */
  lemma {:induction false} Bezout(a: nat, b: nat) returns (x: int, y: int)
    ensures a * x + b * y == Gcd(a, b)
    decreases b
  {
    if b == 0 {
      x, y := 1, 0;
    } else {
      var x', y' := Bezout(b, a % b);
      var q := a / b;
      assert a % b == a - q * b;
      x, y := y', x' - q * y';
      assert a * x + b * y == b * x' + (a - q * b) * y';
    }
  }

  /** The least common multiple of the sizes of two numbers; 0 when either is 0. */
  function Lcm(a: int, b: int): (l: nat)
    ensures l == 0 <==> a == 0 || b == 0
  {
    var x := Abs(a);
    var y := Abs(b);
    if x == 0 || y == 0 then 0
    else
      GcdDivides(x, y);
      var g := Gcd(x, y);
      DividesQuotient(g, x);
      (x / g) * y
  }

  /** Both numbers divide their least common multiple. */
  lemma {:induction false} LcmIsCommonMultiple(a: int, b: int)
    requires a != 0 && b != 0
    ensures Divides(Abs(a), Lcm(a, b)) && Divides(Abs(b), Lcm(a, b))
  {
    var x := Abs(a);
    var y := Abs(b);
    var g := Gcd(x, y);
    GcdDivides(x, y);
    DividesQuotient(g, x);
    DividesQuotient(g, y);
    assert Lcm(a, b) == (x / g) * y;
    assert (x / g) * y == x * (y / g) by {
      assert (x / g) * y == (x / g) * (g * (y / g));
      assert x * (y / g) == (g * (x / g)) * (y / g);
    }
    MultipleMod(x, y / g);
    MultipleMod(y, x / g);
  }

  /** The least common multiple divides every common multiple, so it is the least positive one. */
  lemma {:induction false} LcmDividesCommonMultiple(a: int, b: int, m: int)
    requires a != 0 && b != 0
    requires Divides(Abs(a), m) && Divides(Abs(b), m)
    ensures Divides(Lcm(a, b), m)
  {
    var x := Abs(a);
    var y := Abs(b);
    var g := Gcd(x, y);
    GcdDivides(x, y);
    DividesQuotient(g, x);
    var u, v := Bezout(x, y);
    var k := CommonMultipleTimesGcd(x, y, m, u, v);
    var x1 := x / g;
    assert m * g == g * (x1 * y * k) by {
      assert m * g == (g * x1) * y * k;
    }
    Cancel(g, m, x1 * y * k);
    assert Lcm(a, b) == x1 * y;
    MultipleMod(x1 * y, k);
  }

  /** A common multiple of two numbers, times their greatest common divisor, is a multiple of their product. */
  lemma {:induction false} CommonMultipleTimesGcd(x: nat, y: nat, m: int, u: int, v: int) returns (k: int)
    requires Divides(x, m) && Divides(y, m)
    requires x * u + y * v == Gcd(x, y)
    ensures m * Gcd(x, y) == x * y * k
  {
    DividesQuotient(x, m);
    DividesQuotient(y, m);
    var s := m / x;
    var t := m / y;
    k := t * u + s * v;
    var g := Gcd(x, y);
    assert m * g == m * (x * u) + m * (y * v) by {
      Distributes(m, x * u, y * v);
    }
    assert m * (x * u) == (x * y) * (t * u) by {
      Regroup(y, t, x, u);
    }
    assert m * (y * v) == (x * y) * (s * v) by {
      Regroup(x, s, y, v);
      assert (y * x) * (s * v) == (x * y) * (s * v);
    }
    Distributes(x * y, t * u, s * v);
  }

  /** Multiplication distributes over addition. */
  lemma {:induction false} Distributes(a: int, b: int, c: int)
    ensures a * (b + c) == a * b + a * c
  {
  }

  /** `(a * b) * (c * d)` regrouped as `(c * a) * (b * d)`. */
  lemma {:induction false} Regroup(a: int, b: int, c: int, d: int)
    ensures (a * b) * (c * d) == (c * a) * (b * d)
  {
  }

  /** A positive factor cancels. */
  lemma {:induction false} Cancel(g: int, m: int, n: int)
    requires g > 0 && m * g == g * n
    ensures m == n
  {
    assert g * (m - n) == 0;
  }

  /** `lcm(...xs)`: the least common multiple of all the values, folded from the right; 1 for none. */
  function LcmAll(xs: seq<int>): nat {
    if xs == [] then 1 else Lcm(xs[0], LcmAll(xs[1..]))
  }

  /** Values that are all non-zero. */
  predicate NonZero(xs: seq<int>) {
    forall i :: 0 <= i < |xs| ==> xs[i] != 0
  }

  /** Every value divides the least common multiple of all of them, which is positive. */
  lemma {:induction false} LcmAllIsCommonMultiple(xs: seq<int>)
    requires NonZero(xs)
    ensures LcmAll(xs) > 0
    ensures forall i :: 0 <= i < |xs| ==> Divides(Abs(xs[i]), LcmAll(xs))
  {
    if xs != [] {
      var rest := LcmAll(xs[1..]);
      assert NonZero(xs[1..]) by {
        forall i | 0 <= i < |xs[1..]| ensures xs[1..][i] != 0 {
          assert xs[1..][i] == xs[i + 1];
        }
      }
      LcmAllIsCommonMultiple(xs[1..]);
      LcmIsCommonMultiple(xs[0], rest);
      forall i | 0 <= i < |xs| ensures Divides(Abs(xs[i]), LcmAll(xs)) {
        if i > 0 {
          assert xs[i] == xs[1..][i - 1];
          DividesTransitive(Abs(xs[i]), rest, LcmAll(xs));
        }
      }
    }
  }

  /** Divisibility is transitive. */
  lemma {:induction false} DividesTransitive(a: nat, b: nat, c: int)
    requires Divides(a, b) && Divides(b, c)
    ensures Divides(a, c)
  {
    DividesQuotient(a, b);
    DividesQuotient(b, c);
    assert c == a * ((b / a) * (c / b));
    MultipleMod(a, (b / a) * (c / b));
  }

  /** The least common multiple of all the values divides each of their common multiples. */
  lemma {:induction false} LcmAllDividesCommonMultiple(xs: seq<int>, m: int)
    requires NonZero(xs)
    requires forall i :: 0 <= i < |xs| ==> Divides(Abs(xs[i]), m)
    ensures Divides(LcmAll(xs), m)
  {
    if xs == [] {
      assert m % 1 == 0;
    } else {
      assert NonZero(xs[1..]) by {
        forall i | 0 <= i < |xs[1..]| ensures xs[1..][i] != 0 {
          assert xs[1..][i] == xs[i + 1];
        }
      }
      forall i | 0 <= i < |xs[1..]| ensures Divides(Abs(xs[1..][i]), m) {
        assert xs[1..][i] == xs[i + 1];
      }
      LcmAllDividesCommonMultiple(xs[1..], m);
      LcmAllIsCommonMultiple(xs[1..]);
      LcmDividesCommonMultiple(xs[0], LcmAll(xs[1..]), m);
    }
  }

  /** The least common multiple of non-zero values is the least positive common multiple. */
  lemma {:induction false} LcmAllIsLeast(xs: seq<int>, m: int)
    requires NonZero(xs) && m > 0
    requires forall i :: 0 <= i < |xs| ==> Divides(Abs(xs[i]), m)
    ensures LcmAll(xs) <= m
  {
    LcmAllDividesCommonMultiple(xs, m);
    DividesBound(LcmAll(xs), m);
  }
}
