/**
 Why 128 bits are enough: honors up to (2^128 - 1) / 10000 and up to 4900
 credited weeks never make settlement or a query overflow.
 */
module Overflow {
  import opened Constants
  import opened Types
  import opened Decay
  import opened Volunteer
  import opened VotingPower
  import opened Citizens
  import opened Records
  import opened Runs
  import opened RunInvariants
  import Cosmwasm
  import Views

  const MAX_WEEKS: nat := 4_900

  predicate Bounded(honor: nat) {
    honor * BASIS_POINTS <= U128_MAX
  }

  /** The contracts compute in 128 and 256 bits. */
  lemma WidthsAre()
    ensures Doubled(1, 128) == U128_MAX + 1 && Doubled(1, 256) == U256_MAX + 1
  {
    hide Doubled;
    Doubled32(1);
    Doubled32(Doubled(1, 32));
    DoubledSplit(1, 32, 32);
    Doubled64(Doubled(1, 64));
    DoubledSplit(1, 64, 64);
    Doubled64(Doubled(1, 128));
    DoubledSplit(1, 128, 64);
    Doubled64(Doubled(1, 192));
    DoubledSplit(1, 192, 64);
  }

  lemma Doubled64(x: nat)
    ensures Doubled(x, 64) == 0x1_0000_0000_0000_0000 * x
  {
    hide Doubled;
    Doubled32(x);
    Doubled32(Doubled(x, 32));
    DoubledSplit(x, 32, 32);
  }

  // ---------- the multiplier ----------

  lemma {:induction false} DoubledSplit(x: nat, m: nat, n: nat)
    ensures Doubled(Doubled(x, m), n) == Doubled(x, m + n)
  {
    if n > 0 {
      DoubledSplit(x, m, n - 1);
    }
  }

  lemma Doubled8(x: nat)
    ensures Doubled(x, 8) == 256 * x
  {
    assert Doubled(x, 0) == x;
    assert Doubled(x, 2) == 2 * Doubled(x, 1) && Doubled(x, 1) == 2 * Doubled(x, 0);
    assert Doubled(x, 4) == 2 * Doubled(x, 3) && Doubled(x, 3) == 2 * Doubled(x, 2);
    assert Doubled(x, 6) == 2 * Doubled(x, 5) && Doubled(x, 5) == 2 * Doubled(x, 4);
    assert Doubled(x, 8) == 2 * Doubled(x, 7) && Doubled(x, 7) == 2 * Doubled(x, 6);
  }

  lemma Doubled32(x: nat)
    ensures Doubled(x, 32) == 0x1_0000_0000 * x
  {
    hide Doubled;
    Doubled8(x);
    Doubled8(Doubled(x, 8));
    Doubled8(Doubled(x, 16));
    Doubled8(Doubled(x, 24));
    DoubledSplit(x, 8, 8);
    DoubledSplit(x, 16, 8);
    DoubledSplit(x, 24, 8);
  }

  lemma Doubled97(x: nat)
    ensures Doubled(x, 97) == 0x2_0000_0000_0000_0000_0000_0000 * x
  {
    hide Doubled;
    Doubled32(x);
    Doubled32(Doubled(x, 32));
    Doubled32(Doubled(x, 64));
    DoubledSplit(x, 32, 32);
    DoubledSplit(x, 64, 32);
    assert Doubled(x, 97) == 2 * Doubled(x, 96) by {
      OneMore(x, 96);
    }
  }

  lemma OneMore(x: nat, k: nat)
    ensures Doubled(x, k + 1) == 2 * Doubled(x, k)
  {
  }

  /** 4900 weeks are less than 97 doublings. */
  lemma MultBound(k: nat)
    requires k <= MAX_WEEKS
    ensures BASIS_POINTS <= Credits(BASIS_POINTS, k)
    ensures Credits(BASIS_POINTS, k) * VOLUNTEER_BONUS_NUM <= U128_MAX
    ensures Credits(BASIS_POINTS, k) * BASIS_POINTS < 0x1_0000_0000_0000_0000_0000_0000_0000_0000
  {
    hide Credits, Doubled;
    CreditsIncrease(BASIS_POINTS, k, 51 * 97);
    CreditsDoubling(97);
    Doubled97(BASIS_POINTS);
  }

  // ---------- the capital bonus ----------

  /** Up to 13 bonuses add at most 2% each and a constant. */
  lemma {:induction false} TopUpsBound(x: nat, k: nat)
    requires k <= 13
    ensures TopUps(x, k) <= x + k * (x / 50 + 150)
  {
    if k > 0 {
      TopUpsBound(x, k - 1);
      hide TopUps;
      BonusBound(x, TopUps(x, k - 1), k);
    }
  }

  lemma BonusBound(x: nat, t: nat, k: nat)
    requires 0 < k <= 13 && t <= x + (k - 1) * (x / 50 + 150)
    ensures Bonus(t) <= x / 50 + 150
    ensures (k - 1) * (x / 50 + 150) + (x / 50 + 150) == k * (x / 50 + 150)
  {
    MulLe(k - 1, 12, x / 50 + 150);
    assert t <= x + 12 * (x / 50 + 150);
  }

  /** The weeks one settlement credits are within the bound, since it processes at most 13. */
  lemma {:induction false} WeeksFitWhenFew(vol: set<nat>, s: WeekState, n: nat)
    requires n <= 13 && Bounded(s.capital) && s.mult == Credits(BASIS_POINTS, s.weeks)
    requires s.weeks + |QualifiedAfter(vol, s.last, n)| <= MAX_WEEKS
    ensures WeeksFit(U128_MAX, vol, s, n)
  {
    if n > 0 {
      WeeksFitWhenFew(vol, s, n - 1);
      hide Credits, TopUps, WeeksFit, Weeks, Qualified, Bonus;
      WeeksCredit(vol, s, n - 1);
      var k := |QualifiedAfter(vol, s.last, n - 1)|;
      QualifiedCount(vol, s.last, n - 1);
      CreditsCompose(BASIS_POINTS, s.weeks, k);
      MultBound(s.weeks + k);
      TopUpsBound(s.capital, k);
      NextBonusFits(s.capital, TopUps(s.capital, k), k);
      WeeksFitNext(vol, s, n);
    }
  }

  lemma {:induction false} QualifiedCount(vol: set<nat>, last: nat, n: nat)
    ensures |QualifiedAfter(vol, last, n)| <= n
    ensures |QualifiedAfter(vol, last, n)| <= |QualifiedAfter(vol, last, n + 1)|
  {
    if n > 0 {
      QualifiedCount(vol, last, n - 1);
    }
  }

  lemma NextBonusFits(x: nat, t: nat, k: nat)
    requires Bounded(x) && k <= 13 && t <= x + k * (x / 50 + 150)
    ensures t * VOLUNTEER_CAPITAL_PCT <= U128_MAX && t + Bonus(t) <= U128_MAX
  {
    MulLe(k, 13, x / 50 + 150);
    assert t <= 2 * x + 2000;
  }

  lemma WeeksFitNext(vol: set<nat>, s: WeekState, n: nat)
    requires n > 0 && WeeksFit(U128_MAX, vol, s, n - 1)
    requires var t := Weeks(vol, s, n - 1);
             && t.mult * VOLUNTEER_BONUS_NUM <= U128_MAX
             && t.capital * VOLUNTEER_CAPITAL_PCT <= U128_MAX
             && t.capital + Bonus(t.capital) <= U128_MAX
    ensures WeeksFit(U128_MAX, vol, s, n)
  {
  }

  // ---------- settlement ----------

  /** One call settles at most 90 days, and so processes at most 13 weeks. */
  lemma FewWeeksPerCall(c: Citizen, i: nat, active: set<nat>, today: nat)
    requires i < 3 && c.lastWeek == LatestFullWeek(c)
    ensures WeeksDue(Decayed(c, i, active, today).lastDay[i], c.lastWeek) <= 13
  {
    DaysDay(ShieldOf(c, active), AxisOf(c, i), DaysDue(today, c.lastDay[i]));
    hide Days;
  }

  /**
   In a reachable state a settlement overflows nowhere, provided the honors it
   touches stay within (2^128 - 1) / 10000 and it leaves at most 4900 credited weeks.
   */
  lemma SettlementNeverOverflows(w: World, who: Addr, i: nat, amount: nat, today: nat)
    requires Reachable(w) && who in w.ledger.citizens && i < 3
    requires var c := w.ledger.citizens[who]; Bounded(c.honor[0]) && Bounded(c.honor[i] + amount)
    requires Cosmwasm.Settled(w.ledger, who, i, amount, today).weeks <= MAX_WEEKS
    ensures Cosmwasm.SettlementFits(w.ledger, who, i, amount, today)
  {
    ReachableSound(w);
    assert CitizenSound(w, who);
    var c, active, vol := w.ledger.citizens[who], DaysOf(w.ledger.active, who), DaysOf(w.ledger.volunteer, who);
    BoundedDecayFits(c, i, active, today);
    hide Reachable, TimelyWeeks, Credits, LatestFullWeek, Weeks, WeeksFit, Days, DaysFit, Rate, TopUps;
    FewWeeksPerCall(c, i, active, today);
    var d := Earned(Decayed(c, i, active, today), i, amount);
    DaysShrink(ShieldOf(c, active), AxisOf(c, i), DaysDue(today, c.lastDay[i]));
    WeeksCredit(vol, WeekStateOf(d), WeeksDue(d.lastDay[i], d.lastWeek));
    assert Bounded(d.honor[0]);
    WeeksFitWhenFew(vol, WeekStateOf(d), WeeksDue(d.lastDay[i], d.lastWeek));
  }

  lemma BoundedDecayFits(c: Citizen, i: nat, active: set<nat>, today: nat)
    requires i < 3 && Bounded(c.honor[i])
    ensures DecayFits(U128_MAX, c, i, active, today)
  {
    SmallHonorFits(U128_MAX, ShieldOf(c, active), AxisOf(c, i), DaysDue(today, c.lastDay[i]));
  }

  // ---------- queries ----------

  lemma BoundedRoot(h: nat)
    requires Bounded(h)
    ensures Isqrt(h) <= 0x28F_5C28_F5C2_8F5C
  {
    IsqrtIsRoot(h);
    hide Isqrt;
    SquareInjective(Isqrt(h), 0x28F_5C28_F5C2_8F5D);
  }

  lemma BoundedFactor(m: nat)
    requires m < 0x1_0000_0000_0000_0000_0000_0000_0000_0000
    ensures Isqrt(m) < 0x1_0000_0000_0000_0000
  {
    IsqrtIsRoot(m);
    hide Isqrt;
    SquareInjective(Isqrt(m), 0x1_0000_0000_0000_0000);
  }

  lemma ProductFits(b: nat, f: nat)
    requires b <= 11 * 0x28F_5C28_F5C2_8F5C && f < 0x1_0000_0000_0000_0000
    ensures b * f <= U128_MAX
  {
    MulMonotone(b, 11 * 0x28F_5C28_F5C2_8F5C, f, 0x1_0000_0000_0000_0000);
  }

  /** Under the same bounds the voting power query answers, whatever the time. */
  lemma QueriesNeverAbort(w: World, who: Addr, today: nat)
    requires Reachable(w) && who in w.ledger.citizens
    requires var c := w.ledger.citizens[who];
             && Bounded(c.honor[0]) && Bounded(c.honor[1]) && Bounded(c.honor[2])
             && c.weeks + Views.PendingCredits(c, DaysOf(w.ledger.volunteer, who), today) <= MAX_WEEKS
    ensures var c, active, vol := w.ledger.citizens[who], DaysOf(w.ledger.active, who), DaysOf(w.ledger.volunteer, who);
            Views.PowerView(U128_MAX, c, active, vol, today).Value?
  {
    ReachableSound(w);
    assert CitizenSound(w, who);
    hide Reachable, Credits, Views.PowerView, Views.PendingCredits, LatestFullWeek, TimelyWeeks, ClockSound, Bounded;
    PowerAnswers(w.ledger.citizens[who], DaysOf(w.ledger.active, who), DaysOf(w.ledger.volunteer, who), today);
  }

  lemma PowerAnswers(c: Citizen, active: set<nat>, vol: set<nat>, today: nat)
    requires Bounded(c.honor[0]) && Bounded(c.honor[1]) && Bounded(c.honor[2])
    requires c.mult == Credits(BASIS_POINTS, c.weeks) && c.weeks + Views.PendingCredits(c, vol, today) <= MAX_WEEKS
    ensures Views.PowerView(U128_MAX, c, active, vol, today).Value?
  {
    hide Views.HonorView, Power, Credits, Isqrt, BasePower, Views.PendingCredits, Bounded;
    BoundedHonorView(c, 0, active, today);
    BoundedHonorView(c, 1, active, today);
    BoundedHonorView(c, 2, active, today);
    MultAnswers(c, vol, today);
    hide Views.MultView;
    var h, l, v := Views.HonorView(U128_MAX, c, 0, active, today), Views.HonorView(U128_MAX, c, 1, active, today),
                   Views.HonorView(U128_MAX, c, 2, active, today);
    PowerFits(h.value, l.value, v.value, Views.MultView(U128_MAX, c, vol, today).value);
  }

  lemma MultAnswers(c: Citizen, vol: set<nat>, today: nat)
    requires c.mult == Credits(BASIS_POINTS, c.weeks) && c.weeks + Views.PendingCredits(c, vol, today) <= MAX_WEEKS
    ensures var m := Views.MultView(U128_MAX, c, vol, today);
            m.Value? && m.value * BASIS_POINTS < 0x1_0000_0000_0000_0000_0000_0000_0000_0000
  {
    hide Credits, Views.PendingCredits, Views.CreditsFit;
    var k := Views.PendingCredits(c, vol, today);
    PendingFit(c.weeks, k);
    CreditsCompose(BASIS_POINTS, c.weeks, k);
    MultBound(c.weeks + k);
  }

  lemma PowerFits(h: nat, l: nat, v: nat, m: nat)
    requires Bounded(h) && Bounded(l) && Bounded(v)
    requires m * BASIS_POINTS < 0x1_0000_0000_0000_0000_0000_0000_0000_0000
    ensures BasePower(h, l, v) * Isqrt(m * BASIS_POINTS) <= U128_MAX
  {
    hide Isqrt;
    BoundedRoot(h);
    BoundedRoot(l);
    BoundedRoot(v);
    BoundedFactor(m * BASIS_POINTS);
    hide Bounded;
    ProductFits(BasePower(h, l, v), Isqrt(m * BASIS_POINTS));
  }

  lemma BoundedHonorView(c: Citizen, i: nat, active: set<nat>, today: nat)
    requires i < 3 && Bounded(c.honor[i])
    ensures var h := Views.HonorView(U128_MAX, c, i, active, today); h.Value? && Bounded(h.value)
  {
    BoundedDecayFits(c, i, active, today);
    DaysShrink(ShieldOf(c, active), AxisOf(c, i), DaysDue(today, c.lastDay[i]));
  }

  lemma PendingFit(weeks: nat, k: nat)
    requires weeks + k <= MAX_WEEKS
    ensures Views.CreditsFit(U128_MAX, Credits(BASIS_POINTS, weeks), k)
  {
    forall j: nat | j < k
      ensures Credits(Credits(BASIS_POINTS, weeks), j) * VOLUNTEER_BONUS_NUM <= U128_MAX
    {
      CreditsCompose(BASIS_POINTS, weeks, j);
      MultBound(weeks + j);
    }
  }
}
