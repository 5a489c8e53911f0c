/** Newton's integer square root, and the quadratic voting power built on it. */
module VotingPower {
  import opened Constants

  predicate IsRoot(y: nat, z: nat) {
    z * z <= y < (z + 1) * (z + 1)
  }

  /** The floor of the square root of y. */
  function Isqrt(y: nat): nat {
    if y == 0 then 0
    else
      var z := Isqrt(y - 1);
      if (z + 1) * (z + 1) <= y then z + 1 else z
  }

  lemma {:induction false} IsqrtIsRoot(y: nat)
    ensures IsRoot(y, Isqrt(y))
  {
    if y > 0 {
      IsqrtIsRoot(y - 1);
      NextRoot(y, Isqrt(y - 1));
    }
  }

  lemma NextRoot(y: nat, z: nat)
    requires y > 0 && IsRoot(y - 1, z)
    ensures IsRoot(y, if (z + 1) * (z + 1) <= y then z + 1 else z)
  {
    assert (z + 2) * (z + 2) == (z + 1) * (z + 1) + 2 * z + 3;
  }

  lemma MulMonotone(a: nat, b: nat, c: nat, d: nat)
    requires a <= b && c <= d
    ensures a * c <= b * d
  {
    assert a * c <= b * c;
    assert b * c <= b * d;
  }

  lemma SquareInjective(a: nat, b: nat)
    requires a * a < b * b
    ensures a < b
  {
    if b <= a {
      MulMonotone(b, a, b, a);
    }
  }

  lemma RootUnique(y: nat, z: nat, z': nat)
    requires IsRoot(y, z) && IsRoot(y, z')
    ensures z == z'
  {
    SquareInjective(z, z' + 1);
    SquareInjective(z', z + 1);
  }

  lemma RootIs(y: nat, z: nat)
    requires IsRoot(y, z)
    ensures z == Isqrt(y)
  {
    IsqrtIsRoot(y);
    hide Isqrt;
    RootUnique(y, z, Isqrt(y));
  }

  lemma DivBounds(y: nat, x: nat)
    requires x > 0
    ensures x * (y / x) <= y < x * (y / x) + x
  {
  }

  lemma {:induction false} FourTimesProduct(a: nat, b: nat)
    ensures 4 * (a * b) <= (a + b) * (a + b)
  {
    var d := a - b;
    assert (a + b) * (a + b) == a * a + 2 * (a * b) + b * b;
    assert d * d == a * a - 2 * (a * b) + b * b;
  }

  lemma SquareDoubled(a: nat)
    ensures (2 * a) * (2 * a) == 4 * (a * a)
  {
  }

  /** Not below the root. */
  predicate AtLeastRoot(y: nat, x: nat) {
    y < (x + 1) * (x + 1)
  }

  /** A Newton step from above the root never falls below it. */
  lemma {:induction false} NewtonStep(y: nat, x: nat)
    requires x > 0
    ensures AtLeastRoot(y, (y / x + x) / 2)
  {
    var q := y / x;
    var t := (q + x) / 2;
    DivBounds(y, x);
    assert x * (q + 1) == x * q + x;
    FourTimesProduct(x, q + 1);
    MulMonotone(x + (q + 1), 2 * (t + 1), x + (q + 1), 2 * (t + 1));
    SquareDoubled(t + 1);
  }

  lemma StartAboveRoot(y: nat)
    ensures AtLeastRoot(y, y / 2 + 1)
  {
    var x := y / 2 + 1;
    MulMonotone(2, x + 1, x + 1, x + 1);
  }

  /** Where the iteration stops decreasing, the square is within y. */
  lemma StopBelowRoot(y: nat, z: nat)
    requires z > 0 && (y / z + z) / 2 >= z
    ensures z * z <= y
  {
    DivBounds(y, z);
    MulMonotone(z, z, z, y / z);
  }

  /** The sum in a Newton step stays within y, so it cannot overflow where y did not. */
  lemma {:induction false} NewtonSumFits(y: nat, x: nat)
    requires y > 3 && 2 <= x <= y / 2 + 1
    ensures y / x + x <= y
  {
    DivBounds(y, x);
    if x <= y / 2 {
      MulMonotone(2, x, y / x, y / x);
    } else if y / x >= 2 {
      MulMonotone(x, x, 2, y / x);
    }
  }

  /** A guess of the iteration: at least 2, within the first one, and at least the root. */
  predicate Guess(y: nat, x: nat) {
    2 <= x <= y / 2 + 1 && AtLeastRoot(y, x)
  }

  lemma FirstGuess(y: nat)
    requires y > 3
    ensures Guess(y, y / 2 + 1)
  {
    StartAboveRoot(y);
  }

  lemma AtLeastTwo(y: nat, x: nat)
    requires y > 3 && AtLeastRoot(y, x)
    ensures x >= 2
  {
    if x <= 1 {
      MulMonotone(x + 1, 2, x + 1, 2);
    }
  }

  /** The bounds of a guess, over plain numbers. */
  lemma SmallGuess(y: nat, q: nat, x: nat)
    requires q + x <= y && (q + x) / 2 >= 2 && AtLeastRoot(y, (q + x) / 2)
    ensures Guess(y, (q + x) / 2)
  {
    hide AtLeastRoot;
  }

  lemma NextGuess(y: nat, x: nat)
    requires y > 3 && Guess(y, x)
    ensures y / x + x <= y && Guess(y, (y / x + x) / 2)
  {
    hide AtLeastRoot;
    NewtonSumFits(y, x);
    NewtonStep(y, x);
    AtLeastTwo(y, (y / x + x) / 2);
    SmallGuess(y, y / x, x);
  }

  lemma LastGuess(y: nat, z: nat)
    requires Guess(y, z) && (y / z + z) / 2 >= z
    ensures z == Isqrt(y)
  {
    StopBelowRoot(y, z);
    RootIs(y, z);
  }

  /** Both contracts compute the root this way. */
  method IntSqrt(y: nat) returns (z: nat)
    ensures z == Isqrt(y)
  {
    if y == 0 {
      return 0;
    }
    if y <= 3 {
      RootIs(y, 1);
      return 1;
    }
    z := y;
    var x: nat := y / 2 + 1;
    FirstGuess(y);
    hide Isqrt, AtLeastRoot;
    while x < z
      invariant Guess(y, x)
      invariant x < z || (Guess(y, z) && x == (y / z + z) / 2)
      decreases z
    {
      z := x;
      NextGuess(y, z);
      x := (y / x + x) / 2;
    }
    LastGuess(y, z);
  }

  // ---------- voting power ----------

  function BasePower(capital: nat, labor: nat, verification: nat): nat {
    Isqrt(capital) + LABOR_WEIGHT * Isqrt(labor) + VERIFICATION_WEIGHT * Isqrt(verification)
  }

  function Scaled(base: nat, factor: nat): nat {
    base * factor / BASIS_POINTS
  }

  function Power(capital: nat, labor: nat, verification: nat, mult: nat): nat {
    Scaled(BasePower(capital, labor, verification), Isqrt(mult * BASIS_POINTS))
  }

  lemma RootMonotone(x: nat, y: nat)
    requires x <= y
    ensures Isqrt(x) <= Isqrt(y)
  {
    IsqrtIsRoot(x);
    IsqrtIsRoot(y);
    hide Isqrt;
    SquareInjective(Isqrt(x), Isqrt(y) + 1);
  }

  /** More honor on any axis, or a larger multiplier, never costs voting power. */
  lemma {:induction false} PowerMonotone(c: nat, l: nat, v: nat, m: nat, c': nat, l': nat, v': nat, m': nat)
    requires c <= c' && l <= l' && v <= v' && m <= m'
    ensures Power(c, l, v, m) <= Power(c', l', v', m')
  {
    RootMonotone(c, c');
    RootMonotone(l, l');
    RootMonotone(v, v');
    RootMonotone(m * BASIS_POINTS, m' * BASIS_POINTS);
    MulMonotone(BasePower(c, l, v), BasePower(c', l', v'), Isqrt(m * BASIS_POINTS), Isqrt(m' * BASIS_POINTS));
  }

  /** Volunteering only adds: the multiplier starts at 10000, where the power is the base power. */
  lemma {:induction false} PowerAtLeastBase(c: nat, l: nat, v: nat, m: nat)
    requires BASIS_POINTS <= m
    ensures Power(c, l, v, m) >= BasePower(c, l, v) == Power(c, l, v, BASIS_POINTS)
  {
    RootIs(BASIS_POINTS * BASIS_POINTS, BASIS_POINTS);
    PowerMonotone(c, l, v, BASIS_POINTS, c, l, v, m);
  }

  lemma ProductOfSquares(a: nat, b: nat)
    ensures (a * b) * (a * b) == (a * a) * (b * b)
  {
    assert (a * b) * (a * b) == a * (b * (a * b));
    assert b * (a * b) == a * (b * b);
  }

  /** The multiplier acts on the power at most by its square root. */
  lemma {:induction false} PowerBound(c: nat, l: nat, v: nat, m: nat)
    ensures var p, b := Power(c, l, v, m), BasePower(c, l, v);
            p * p * BASIS_POINTS <= b * b * m
  {
    IsqrtIsRoot(m * BASIS_POINTS);
    hide Isqrt, BasePower;
    DampedMultiplier(BasePower(c, l, v), m, Isqrt(m * BASIS_POINTS));
  }

  lemma DampedMultiplier(b: nat, m: nat, f: nat)
    requires f * f <= m * BASIS_POINTS
    ensures var p := b * f / BASIS_POINTS; p * p * BASIS_POINTS <= b * b * m
  {
    var p := b * f / BASIS_POINTS;
    SquareOfQuotient(p, b * f);
    ProductOfSquares(b, f);
    MulMonotone(b * b, b * b, f * f, m * BASIS_POINTS);
    assert (b * b) * (m * BASIS_POINTS) == BASIS_POINTS * ((b * b) * m);
  }

  lemma SquareOfQuotient(p: nat, x: nat)
    requires p == x / BASIS_POINTS
    ensures BASIS_POINTS * BASIS_POINTS * (p * p) <= x * x
  {
    MulMonotone(BASIS_POINTS * p, x, BASIS_POINTS * p, x);
    assert (BASIS_POINTS * p) * (BASIS_POINTS * p) == BASIS_POINTS * BASIS_POINTS * (p * p);
  }

  /** Capital counts once, labor and verification five times each. */
  lemma WeightsAre(c: nat, l: nat, v: nat)
    ensures BasePower(c, 0, 0) == Isqrt(c) && BasePower(0, l, 0) == 5 * Isqrt(l) && BasePower(0, 0, v) == 5 * Isqrt(v)
    ensures BasePower(c, l, v) == BasePower(c, 0, 0) + BasePower(0, l, 0) + BasePower(0, 0, v)
  {
    assert Isqrt(0) == 0;
  }

  lemma FloorOf(x: nat, p: nat)
    requires p == x / 10_000
    ensures p * 10_000 <= x < (p + 1) * 10_000
  {
  }

  lemma ScaledIs(b: nat, f: nat)
    ensures Scaled(b, f) * 10_000 <= b * f < (Scaled(b, f) + 1) * 10_000
  {
    FloorOf(b * f, Scaled(b, f));
  }

  /** The power in plain numbers: the weighted roots times the root of the multiplier, over 10000 and rounded down. */
  lemma {:induction false} PowerIs(c: nat, l: nat, v: nat, m: nat, x: nat, y: nat, z: nat, f: nat)
    requires IsRoot(c, x) && IsRoot(l, y) && IsRoot(v, z) && IsRoot(m * 10_000, f)
    ensures var p, b := Power(c, l, v, m), x + 5 * y + 5 * z; p * 10_000 <= b * f < (p + 1) * 10_000
  {
    RootIs(c, x);
    RootIs(l, y);
    RootIs(v, z);
    RootIs(m * 10_000, f);
    hide Isqrt, IsRoot, Scaled;
    ScaledIs(x + 5 * y + 5 * z, f);
  }

  /** Four times the initial multiplier doubles the power. */
  lemma PowerDoubles(c: nat, l: nat, v: nat)
    ensures Power(c, l, v, 40_000) == 2 * BasePower(c, l, v)
  {
    RootIs(40_000 * BASIS_POINTS, 20_000);
    hide Isqrt, BasePower;
  }

  // ---------- quadratic damping ----------

  lemma {:induction false} ScaledRootAbove(k: nat, y: nat, r: nat, s: nat)
    requires IsRoot(y, r) && IsRoot(k * k * y, s)
    ensures k * r <= s
  {
    ProductOfSquares(k, r);
    MulMonotone(k * k, k * k, r * r, y);
    SquareInjective(k * r, s + 1);
  }

  lemma {:induction false} ScaledRootBelow(k: nat, y: nat, r: nat, s: nat)
    requires k > 0 && IsRoot(y, r) && IsRoot(k * k * y, s)
    ensures s <= k * r + k - 1
  {
    ProductOfSquares(k, r + 1);
    StrictScale(k, y, (r + 1) * (r + 1));
    SquareInjective(s, k * (r + 1));
    assert k * (r + 1) == k * r + k;
  }

  lemma StrictScale(k: nat, x: nat, y: nat)
    requires k > 0 && x < y
    ensures k * k * x < (k * k) * y
  {
    MulMonotone(1, k, 1, k);
    MulMonotone(k * k, k * k, x + 1, y);
    assert (k * k) * (x + 1) == k * k * x + k * k;
  }

  /** k^2 times the honor gives k times the root, up to k - 1 units of rounding. */
  lemma {:induction false} RootScales(y: nat, k: nat)
    requires k > 0
    ensures k * Isqrt(y) <= Isqrt(k * k * y) <= k * Isqrt(y) + k - 1
  {
    IsqrtIsRoot(y);
    IsqrtIsRoot(k * k * y);
    hide Isqrt, IsRoot;
    ScaledRootAbove(k, y, Isqrt(y), Isqrt(k * k * y));
    ScaledRootBelow(k, y, Isqrt(y), Isqrt(k * k * y));
  }

  /** k^2 times the contribution on every axis buys k times the base power, within 11(k - 1) units. */
  lemma {:induction false} QuadraticDamping(k: nat, c: nat, l: nat, v: nat, c': nat, l': nat, v': nat)
    requires k > 0 && c' == k * k * c && l' == k * k * l && v' == k * k * v
    ensures k * BasePower(c, l, v) <= BasePower(c', l', v') <= k * BasePower(c, l, v) + 11 * (k - 1)
  {
    RootScales(c, k);
    RootScales(l, k);
    RootScales(v, k);
    hide Isqrt;
    ScaleWeights(k, Isqrt(c), Isqrt(l), Isqrt(v), Isqrt(c'), Isqrt(l'), Isqrt(v'));
  }

  lemma ScaleWeights(k: nat, x: nat, y: nat, z: nat, x': nat, y': nat, z': nat)
    requires k > 0
    requires k * x <= x' <= k * x + k - 1
    requires k * y <= y' <= k * y + k - 1
    requires k * z <= z' <= k * z + k - 1
    ensures var b := x + LABOR_WEIGHT * y + VERIFICATION_WEIGHT * z;
            k * b <= x' + LABOR_WEIGHT * y' + VERIFICATION_WEIGHT * z' <= k * b + 11 * (k - 1)
  {
    assert k * (x + 5 * y + 5 * z) == k * x + 5 * (k * y) + 5 * (k * z);
  }

  lemma SquareOfSum(a: nat, b: nat, r: nat, s: nat)
    requires a < r * r && b < s * s
    ensures a + b < (r + s) * (r + s)
  {
    assert (r + s) * (r + s) == r * r + 2 * (r * s) + s * s;
  }

  lemma {:induction false} RootSubadditive(a: nat, b: nat)
    ensures Isqrt(a + b) <= Isqrt(a) + Isqrt(b) + 1
  {
    IsqrtIsRoot(a);
    IsqrtIsRoot(b);
    IsqrtIsRoot(a + b);
    hide Isqrt;
    SquareOfSum(a, b, Isqrt(a) + 1, Isqrt(b) + 1);
    SquareInjective(Isqrt(a + b), Isqrt(a) + 1 + (Isqrt(b) + 1));
  }

  /** Merging two contributors gains them at most 11 units of base power. */
  lemma {:induction false} MergingGainsLittle(c: nat, l: nat, v: nat, c': nat, l': nat, v': nat)
    ensures BasePower(c + c', l + l', v + v') <= BasePower(c, l, v) + BasePower(c', l', v') + 11
  {
    RootSubadditive(c, c');
    RootSubadditive(l, l');
    RootSubadditive(v, v');
  }
}
