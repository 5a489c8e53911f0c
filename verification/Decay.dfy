/**
 The meaning of decay: what settling days, one after the other, does to the
 honor of one axis. The loops of both contracts, their views and the simulator
 are proved against `Days`.
 */
module Decay {
  import opened Constants

  /** What exempts a day: the sabbath of a cycle that starts on the join day, or an active day. */
  datatype Shield = Shield(joinDay: nat, sabbath: nat, active: set<nat>)

  /** One axis of a citizen: its honor, and the decay rate in force on the last settled day. */
  datatype AxisState = AxisState(honor: nat, rate: nat, day: nat)

  predicate Exempt(s: Shield, d: nat) {
    (d - s.joinDay) % 7 == s.sabbath || d in s.active
  }

  function NextRate(r: nat): (r': nat)
    ensures r' <= BASIS_POINTS
  {
    var grown := r * DECAY_GROWTH_NUM / DECAY_GROWTH_DEN;
    if grown > BASIS_POINTS then BASIS_POINTS else grown
  }

  /** The rate in force n days after joining. */
  function Rate(n: nat): nat {
    if n == 0 then BASE_DECAY_BP else NextRate(Rate(n - 1))
  }

  /** The product of which a day's decay takes the ten-thousandth part; it must not overflow. */
  function Undecayed(honor: nat, rate: nat): nat
    requires rate <= BASIS_POINTS
  {
    honor * (BASIS_POINTS - rate)
  }

  /** What an unprotected day leaves of an honor at the given rate. */
  function Keep(honor: nat, rate: nat): nat
    requires rate <= BASIS_POINTS
  {
    if rate == BASIS_POINTS then 0 else Undecayed(honor, rate) / BASIS_POINTS
  }

  function DayStep(s: Shield, a: AxisState): AxisState {
    var rate := NextRate(a.rate);
    AxisState(if Exempt(s, a.day + 1) then a.honor else Keep(a.honor, rate), rate, a.day + 1)
  }

  /** The axis after n more days have been settled. */
  function Days(s: Shield, a: AxisState, n: nat): AxisState {
    if n == 0 then a else DayStep(s, Days(s, a, n - 1))
  }

  /** The multiplication of the next day, where there is one, stays within max. */
  predicate DayFits(max: nat, s: Shield, a: AxisState) {
    var rate := NextRate(a.rate);
    Exempt(s, a.day + 1) || rate == BASIS_POINTS || Undecayed(a.honor, rate) <= max
  }

  predicate DaysFit(max: nat, s: Shield, a: AxisState, n: nat) {
    n == 0 || (DaysFit(max, s, a, n - 1) && DayFits(max, s, Days(s, a, n - 1)))
  }

  // ---------- batching ----------

  lemma {:induction false} DaysCompose(s: Shield, a: AxisState, m: nat, n: nat)
    ensures Days(s, Days(s, a, m), n) == Days(s, a, m + n)
  {
    if n > 0 {
      DaysCompose(s, a, m, n - 1);
    }
  }

  lemma {:induction false} DaysDay(s: Shield, a: AxisState, n: nat)
    ensures Days(s, a, n).day == a.day + n
  {
    if n > 0 {
      DaysDay(s, a, n - 1);
    }
  }

  /** Only the exemptions of the settled days matter. */
  lemma {:induction false} DaysAgree(s: Shield, t: Shield, a: AxisState, n: nat)
    requires forall d | a.day < d <= a.day + n :: Exempt(s, d) <==> Exempt(t, d)
    ensures Days(s, a, n) == Days(t, a, n)
  {
    if n > 0 {
      DaysAgree(s, t, a, n - 1);
      DaysDay(s, a, n - 1);
    }
  }

  // ---------- the rate ----------

  /** The rate after settling depends on the number of days since joining, never on the schedule. */
  lemma {:induction false} DaysRate(s: Shield, a: AxisState, k: nat, n: nat)
    requires a.rate == Rate(k)
    ensures Days(s, a, n).rate == Rate(k + n)
  {
    if n > 0 {
      DaysRate(s, a, k, n - 1);
    }
  }

  lemma {:induction false} RateRange(n: nat)
    ensures BASE_DECAY_BP <= Rate(n) <= BASIS_POINTS
    ensures n > 0 ==> Rate(n) > BASE_DECAY_BP
  {
    if n > 0 {
      RateRange(n - 1);
    }
  }

  /** The rate rises every day until it is exactly 100%, and then stays there. */
  lemma RateRises(n: nat)
    ensures Rate(n) < BASIS_POINTS ==> Rate(n) < Rate(n + 1)
    ensures Rate(n) == BASIS_POINTS ==> Rate(n + 1) == BASIS_POINTS
  {
    RateRange(n);
  }

  function Pow(b: nat, e: nat): nat {
    if e == 0 then 1 else b * Pow(b, e - 1)
  }

  lemma ScaleStep(r': nat, r: nat, p: nat, q: nat)
    requires r' * 100 <= r * 101
    requires r * p <= 100 * q
    ensures r' * (100 * p) <= 100 * (101 * q)
  {
    MulLe(r' * 100, r * 101, p);
    assert r' * (100 * p) == (r' * 100) * p;
    assert (r * 101) * p == 101 * (r * p);
  }

  /** Flooring keeps the rate at or below its real-number formula 1% times 1.01 to the n. */
  lemma {:induction false} RateBelowFormula(n: nat)
    ensures Rate(n) * Pow(100, n) <= BASE_DECAY_BP * Pow(101, n)
  {
    if n > 0 {
      RateBelowFormula(n - 1);
      ScaleStep(Rate(n), Rate(n - 1), Pow(100, n - 1), Pow(101, n - 1));
    }
  }

  lemma MulLe(x: nat, y: nat, z: nat)
    requires x <= y
    ensures x * z <= y * z
  {
  }

  lemma {:induction false} RateMonotone(m: nat, n: nat)
    requires m <= n
    ensures Rate(m) <= Rate(n)
  {
    if m < n {
      RateMonotone(m, n - 1);
      RateRises(n - 1);
      RateRange(n - 1);
    }
  }

  // ---------- the honor ----------

  lemma ScaleMonotone(x: nat, y: nat, q: nat)
    requires x <= y
    ensures x * q <= y * q && x * q / BASIS_POINTS <= y * q / BASIS_POINTS
  {
    MulLe(x, y, q);
  }

  lemma {:induction false} DaysMonotone(s: Shield, a: AxisState, b: AxisState, n: nat)
    requires a.rate == b.rate && a.day == b.day && a.honor <= b.honor
    ensures Days(s, a, n).rate == Days(s, b, n).rate && Days(s, a, n).day == Days(s, b, n).day
    ensures Days(s, a, n).honor <= Days(s, b, n).honor
  {
    if n > 0 {
      DaysMonotone(s, a, b, n - 1);
      var x, y := Days(s, a, n - 1), Days(s, b, n - 1);
      ScaleMonotone(x.honor, y.honor, BASIS_POINTS - NextRate(x.rate));
    }
  }

  lemma KeepLe(honor: nat, rate: nat)
    requires rate <= BASIS_POINTS
    ensures Keep(honor, rate) <= honor
  {
    MulLe(BASIS_POINTS - rate, BASIS_POINTS, honor);
    assert honor * (BASIS_POINTS - rate) <= honor * BASIS_POINTS;
  }

  lemma {:induction false} DaysShrink(s: Shield, a: AxisState, n: nat)
    ensures Days(s, a, n).honor <= a.honor
  {
    if n > 0 {
      DaysShrink(s, a, n - 1);
      KeepLe(Days(s, a, n - 1).honor, NextRate(Days(s, a, n - 1).rate));
    }
  }

  // ---------- overflow ----------

  /** A smaller honor and a wider integer type cannot overflow where the larger honor does not. */
  lemma {:induction false} DaysFitMonotone(max: nat, max': nat, s: Shield, a: AxisState, b: AxisState, n: nat)
    requires max <= max' && a.rate == b.rate && a.day == b.day && a.honor <= b.honor
    requires DaysFit(max, s, b, n)
    ensures DaysFit(max', s, a, n)
  {
    if n > 0 {
      DaysFitMonotone(max, max', s, a, b, n - 1);
      DaysMonotone(s, a, b, n - 1);
      var x, y := Days(s, a, n - 1), Days(s, b, n - 1);
      MulLe(x.honor, y.honor, BASIS_POINTS - NextRate(x.rate));
    }
  }

  lemma {:induction false} SmallHonorFits(max: nat, s: Shield, a: AxisState, n: nat)
    requires a.honor * BASIS_POINTS <= max
    ensures DaysFit(max, s, a, n)
  {
    if n > 0 {
      SmallHonorFits(max, s, a, n - 1);
      DaysShrink(s, a, n - 1);
      var h, q := Days(s, a, n - 1).honor, BASIS_POINTS - NextRate(Days(s, a, n - 1).rate);
      assert h * q <= a.honor * BASIS_POINTS by {
        MulLe(h, a.honor, q);
        MulLe(q, BASIS_POINTS, a.honor);
      }
    }
  }

  // ---------- combining deposits ----------

  lemma FloorSum(x: nat, y: nat, z: nat)
    requires z <= 198 * 9_899
    ensures 0 <= (x + y + z) / BASIS_POINTS - x / BASIS_POINTS - y / BASIS_POINTS <= 198
  {
  }

  lemma {:induction false} KeepSum(a: nat, b: nat, e: nat, rate: nat)
    requires BASE_DECAY_BP < rate <= BASIS_POINTS && e <= 198
    ensures 0 <= Keep(a + b + e, rate) - Keep(a, rate) - Keep(b, rate) <= 198
  {
    assert Undecayed(a + b + e, rate) == Undecayed(a, rate) + Undecayed(b, rate) + Undecayed(e, rate);
    assert Undecayed(e, rate) <= 198 * 9_899 by {
      MulLe(e, 198, BASIS_POINTS - rate);
    }
    hide Undecayed;
    FloorSum(Undecayed(a, rate), Undecayed(b, rate), Undecayed(e, rate));
  }

  lemma GrowthFloor(r: nat)
    requires BASE_DECAY_BP <= r
    ensures BASE_DECAY_BP < NextRate(r)
  {
  }

  lemma RoundingStep(s: Shield, x: AxisState, y: AxisState, z: AxisState)
    requires x.rate == y.rate == z.rate && x.day == y.day == z.day && BASE_DECAY_BP <= x.rate
    requires x.honor + y.honor <= z.honor <= x.honor + y.honor + 198
    ensures var parts := DayStep(s, x).honor + DayStep(s, y).honor; parts <= DayStep(s, z).honor <= parts + 198
  {
    GrowthFloor(x.rate);
    hide Keep, NextRate, Exempt;
    KeepSum(x.honor, y.honor, z.honor - x.honor - y.honor, NextRate(x.rate));
  }

  /**
   Settling a joint honor a + b (+ a leftover e) yields at least what settling
   a and b apart yields, and never more than 198 units more, over any number
   of days and under any protection.
   */
  lemma {:induction false} CombinedRounding(s: Shield, a: AxisState, b: nat, e: nat, n: nat)
    requires BASE_DECAY_BP <= a.rate && e <= 198
    ensures var whole := Days(s, a.(honor := a.honor + b + e), n).honor;
            var parts := Days(s, a, n).honor + Days(s, a.(honor := b), n).honor;
            parts <= whole <= parts + 198
    ensures BASE_DECAY_BP <= Days(s, a, n).rate
  {
    if n > 0 {
      CombinedRounding(s, a, b, e, n - 1);
      var x, y := Days(s, a, n - 1), Days(s, a.(honor := b), n - 1);
      var z := Days(s, a.(honor := a.honor + b + e), n - 1);
      SameClock(s, a, a.(honor := b), n - 1);
      SameClock(s, a, a.(honor := a.honor + b + e), n - 1);
      RoundingStep(s, x, y, z);
      assert BASE_DECAY_BP <= DayStep(s, x).rate;
      hide DayStep;
    }
  }

  lemma {:induction false} SameClock(s: Shield, a: AxisState, b: AxisState, n: nat)
    requires a.rate == b.rate && a.day == b.day
    ensures Days(s, a, n).rate == Days(s, b, n).rate && Days(s, a, n).day == Days(s, b, n).day
  {
    if n > 0 {
      SameClock(s, a, b, n - 1);
    }
  }

  // ---------- turnover ----------

  /** How many of the n days after the given one are not exempt. */
  function Unprotected(s: Shield, day: nat, n: nat): nat {
    if n == 0 then 0
    else Unprotected(s, day, n - 1) + if Exempt(s, day + n) then 0 else 1
  }

  lemma UndecayedShare(h: nat, rate: nat)
    requires BASE_DECAY_BP < rate <= BASIS_POINTS
    ensures Undecayed(h, rate) <= h * 9_899
  {
    MulLe(BASIS_POINTS - rate, 9_899, h);
  }

  /** One unprotected day takes at least 1.01%. */
  lemma KeepShare(h: nat, rate: nat)
    requires BASE_DECAY_BP < rate <= BASIS_POINTS
    ensures Keep(h, rate) * 10_000 <= h * 9_899
  {
    hide Undecayed;
    UndecayedShare(h, rate);
  }

  lemma MulAssoc(x: nat, y: nat, z: nat)
    ensures (x * y) * z == x * (y * z)
  {
  }

  lemma MulSwap(x: nat, y: nat, z: nat)
    ensures (x * y) * z == y * (x * z)
  {
  }

  lemma ShareStep(k: nat, h: nat, p: nat)
    requires k * 10_000 <= h * 9_899
    ensures k * (10_000 * p) <= 9_899 * (h * p)
  {
    MulLe(k * 10_000, h * 9_899, p);
    MulAssoc(k, 10_000, p);
    MulSwap(h, 9_899, p);
  }

  lemma KeepStep(h: nat, h0: nat, rate: nat, p: nat, q: nat)
    requires BASE_DECAY_BP < rate <= BASIS_POINTS && h * p <= h0 * q
    ensures Keep(h, rate) * (10_000 * p) <= h0 * (9_899 * q)
  {
    KeepShare(h, rate);
    hide Keep;
    ShareStep(Keep(h, rate), h, p);
    MulSwap(h0, 9_899, q);
    MulAssoc(h0, 9_899, q);
  }

  /** The bound for shield s, counting only the days that a shield t, exempting at least as many, leaves unprotected. */
  lemma {:induction false} UnprotectedDaysDecay(s: Shield, t: Shield, a: AxisState, n: nat)
    requires BASE_DECAY_BP <= a.rate
    requires forall d | a.day < d <= a.day + n && Exempt(s, d) :: Exempt(t, d)
    ensures var u := Unprotected(t, a.day, n);
            Days(s, a, n).honor * Pow(10_000, u) <= a.honor * Pow(9_899, u)
    ensures BASE_DECAY_BP <= Days(s, a, n).rate
  {
    if n > 0 {
      UnprotectedDaysDecay(s, t, a, n - 1);
      DaysDay(s, a, n - 1);
      var u := Unprotected(t, a.day, n - 1);
      var x := Days(s, a, n - 1);
      GrowthFloor(x.rate);
      KeepLe(x.honor, NextRate(x.rate));
      hide Keep, NextRate, Exempt;
      MulLe(Keep(x.honor, NextRate(x.rate)), x.honor, Pow(10_000, u));
      KeepStep(x.honor, a.honor, NextRate(x.rate), Pow(10_000, u), Pow(9_899, u));
    }
  }

  lemma {:induction false} UnprotectedSplit(s: Shield, day: nat, m: nat, n: nat)
    ensures Unprotected(s, day, m + n) == Unprotected(s, day, m) + Unprotected(s, day + m, n)
  {
    if n > 0 {
      UnprotectedSplit(s, day, m, n - 1);
    }
  }

  lemma {:induction false} UnprotectedAround(s: Shield, day: nat, n: nat, sabbath: nat)
    requires day < sabbath && forall d | day < d <= day + n :: Exempt(s, d) <==> d == sabbath
    ensures Unprotected(s, day, n) == if day + n >= sabbath then n - 1 else n
  {
    if n > 0 {
      UnprotectedAround(s, day, n - 1, sabbath);
    }
  }

  /** Without active days exactly one day of any seven consecutive ones, the sabbath, is exempt. */
  lemma OneSabbathInSeven(s: Shield, day: nat)
    requires s.sabbath < 7 && forall d | day < d <= day + 7 :: d !in s.active
    ensures Unprotected(s, day, 7) == 6
  {
    var sabbath := day + 1 + (s.sabbath - (day + 1 - s.joinDay)) % 7;
    UnprotectedAround(s, day, 7, sabbath);
  }

  lemma {:induction false} SixInSeven(s: Shield, day: nat, k: nat)
    requires s.sabbath < 7 && forall d | day < d <= day + 7 * k :: d !in s.active
    ensures Unprotected(s, day, 7 * k) == 6 * k
  {
    if k > 0 {
      SixInSeven(s, day, k - 1);
      OneSabbathInSeven(s, day + 7 * (k - 1));
      UnprotectedSplit(s, day, 7 * (k - 1), 7);
    }
  }

  /** The guaranteed turnover: k inactive weeks leave at most (98.99%) to the power 6k. */
  lemma Turnover(s: Shield, a: AxisState, k: nat)
    requires BASE_DECAY_BP <= a.rate && s.sabbath < 7
    requires forall d | a.day < d <= a.day + 7 * k :: d !in s.active
    ensures Days(s, a, 7 * k).honor * Pow(10_000, 6 * k) <= a.honor * Pow(9_899, 6 * k)
  {
    SixInSeven(s, a.day, k);
    UnprotectedDaysDecay(s, s, a, 7 * k);
  }

  /** At a rate of 100% one unprotected day takes everything; protection keeps everything. */
  lemma {:induction false} SaturatedDays(s: Shield, a: AxisState, n: nat)
    requires a.rate == BASIS_POINTS
    ensures Days(s, a, n).rate == BASIS_POINTS
    ensures Days(s, a, n).honor == if Unprotected(s, a.day, n) == 0 then a.honor else 0
  {
    if n > 0 {
      SaturatedDays(s, a, n - 1);
      DaysDay(s, a, n - 1);
    }
  }
}
