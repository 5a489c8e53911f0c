/** What decay leaves: day by day in plain numbers, and over many days no less than the rate allows. */
module Survival {
  import opened Decay

  /** The sabbath comes every seven days after the join day; attested active days protect as well. */
  predicate Protected(s: Shield, d: nat) {
    (d - s.joinDay) % 7 == s.sabbath || d in s.active
  }

  lemma RateIs(s: Shield, a: AxisState)
    ensures var b := Days(s, a, 1);
            && b.day == a.day + 1
            && (if a.rate * 101 >= 1_000_000 then b.rate == 10_000
                else b.rate * 100 <= a.rate * 101 < (b.rate + 1) * 100)
  {
    assert Days(s, a, 0) == a;
  }

  lemma FloorIs(x: nat, q: nat)
    requires q == x / 10_000
    ensures q * 10_000 <= x < (q + 1) * 10_000
  {
  }

  /** One day: a protected one takes nothing, an unprotected one the share of the rate, rounded against the citizen. */
  lemma {:induction false} DayIs(s: Shield, a: AxisState)
    ensures var b := Days(s, a, 1);
            && (Protected(s, a.day + 1) ==> b.honor == a.honor)
            && (!Protected(s, a.day + 1) && b.rate >= 10_000 ==> b.honor == 0)
            && (!Protected(s, a.day + 1) && b.rate < 10_000 ==>
                  b.honor * 10_000 <= a.honor * (10_000 - b.rate) < (b.honor + 1) * 10_000)
  {
    var b := Days(s, a, 1);
    assert Days(s, a, 0) == a;
    hide NextRate;
    if !Protected(s, a.day + 1) && b.rate < 10_000 {
      FloorIs(a.honor * (10_000 - b.rate), b.honor);
    }
  }

  /** The arithmetic of a day overflows exactly if the product of an unprotected one does. */
  lemma DayFitsIff(max: nat, s: Shield, a: AxisState)
    ensures var b := Days(s, a, 1);
            DaysFit(max, s, a, 1) <==>
              Protected(s, a.day + 1) || b.rate >= 10_000 || a.honor * (10_000 - b.rate) <= max
  {
    assert Days(s, a, 0) == a && DaysFit(max, s, a, 0);
    hide NextRate;
  }

  lemma DaysNext(s: Shield, a: AxisState, n: nat)
    requires n > 0
    ensures Days(s, a, n) == Days(s, Days(s, a, n - 1), 1) && Days(s, a, n - 1).day == a.day + n - 1
  {
    DaysCompose(s, a, n - 1, 1);
    DaysDay(s, a, n - 1);
  }

  lemma RateNeverFalls(s: Shield, a: AxisState)
    requires Days(s, a, 1).rate < 10_000
    ensures a.rate <= Days(s, a, 1).rate
  {
    RateIs(s, a);
  }

  /** One unprotected day of the bound below, over plain numbers. */
  lemma SurvivalStep(h: nat, h': nat, u: nat, h0: nat, p: nat, q: nat, k: nat)
    requires (h + u) * p >= h0 * q && (h' + 1) * 10_000 >= h * k && k <= 10_000
    ensures (h' + (u + 1)) * (10_000 * p) >= h0 * (k * q)
  {
    assert (h' + (u + 1)) * 10_000 >= (h + u) * k by {
      MulLe(k, 10_000, u);
      assert (h + u) * k == h * k + k * u;
    }
    MulLe((h + u) * k, (h' + (u + 1)) * 10_000, p);
    MulAssoc(h' + (u + 1), 10_000, p);
    MulLe(h0 * q, (h + u) * p, k);
    Regroup(h + u, k, p);
    Regroup(h0, q, k);
    MulAssoc(h0, k, q);
  }

  lemma Regroup(x: nat, y: nat, z: nat)
    ensures (x * y) * z == (x * z) * y
  {
  }

  /** Of an original h0 at least (1 - r) to the power u is left, short of one unit of rounding for each of u days. */
  predicate Survives(h0: nat, h: nat, u: nat, r: nat)
    requires r < 10_000
  {
    (h + u) * Pow(10_000, u) >= h0 * Pow(10_000 - r, u)
  }

  lemma SurvivesStart(h: nat, r: nat)
    requires r < 10_000
    ensures Survives(h, h, 0, r)
  {
  }

  /** One more unprotected day, at a rate of at most r. */
  lemma SurvivesDay(h0: nat, h: nat, h': nat, u: nat, r: nat, rate: nat)
    requires rate <= r < 10_000 && Survives(h0, h, u, r) && h * (10_000 - rate) < (h' + 1) * 10_000
    ensures Survives(h0, h', u + 1, r)
  {
    MulLe(10_000 - r, 10_000 - rate, h);
    SurvivalStep(h, h', u, h0, Pow(10_000, u), Pow(10_000 - r, u), 10_000 - r);
  }

  lemma SurvivesMore(h0: nat, h: nat, gain: nat, u: nat, r: nat)
    requires r < 10_000 && Survives(h0, h, u, r)
    ensures Survives(h0, h + gain, u, r)
  {
    MulLe(h + u, h + gain + u, Pow(10_000, u));
  }

  /** Decay takes no more than the rate, while it stays at most r. */
  lemma {:induction false} DaysSurvive(s: Shield, a: AxisState, n: nat, r: nat, h0: nat, u: nat)
    requires r < 10_000 && Days(s, a, n).rate <= r && Survives(h0, a.honor, u, r)
    ensures Survives(h0, Days(s, a, n).honor, u + Unprotected(s, a.day, n), r)
  {
    hide Survives;
    if n > 0 {
      var x := Days(s, a, n - 1);
      DaysNext(s, a, n);
      RateNeverFalls(s, x);
      DaysSurvive(s, a, n - 1, r, h0, u);
      DayIs(s, x);
      assert Protected(s, a.day + n) <==> Exempt(s, a.day + n);
      assert Unprotected(s, a.day, n) == Unprotected(s, a.day, n - 1) + if Protected(s, a.day + n) then 0 else 1;
      hide Days, Protected, Exempt, Unprotected;
      if !Protected(s, a.day + n) {
        SurvivesDay(h0, x.honor, Days(s, a, n).honor, u + Unprotected(s, a.day, n - 1), r, Days(s, a, n).rate);
      }
    }
  }

  lemma {:induction false} RateNeverFell(s: Shield, a: AxisState, n: nat)
    requires Days(s, a, n).rate < 10_000
    ensures a.rate <= Days(s, a, n).rate
  {
    if n > 0 {
      DaysNext(s, a, n);
      RateNeverFalls(s, Days(s, a, n - 1));
      RateNeverFell(s, a, n - 1);
      hide Days;
    }
  }
}
