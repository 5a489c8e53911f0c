/** The queries: they recompute what settlement would store, without storing it; here those of CosmWasm. */
module Views {
  import opened Constants
  import opened Types
  import opened Decay
  import opened Volunteer
  import opened Citizens
  import opened DayBits
  import opened Loops
  import opened VotingPower

  /** A query aborts where its u128 arithmetic overflows. */
  datatype Answer = Value(value: nat) | Aborted

  /** The honor a query reports: what settling the axis now would store. */
  function HonorView(max: nat, c: Citizen, i: nat, active: set<nat>, today: nat): Answer
    requires i < 3
  {
    if !c.isCitizen then Value(0)
    else if DecayFits(max, c, i, active, today) then Value(DecayedAxis(c, i, active, today).honor)
    else Aborted
  }

  /** How many unprocessed weeks qualify among those completed by today. */
  function PendingCredits(c: Citizen, vol: set<nat>, today: nat): nat {
    |QualifiedAfter(vol, c.lastWeek, WeeksDue(today, c.lastWeek))|
  }

  predicate CreditsFit(max: nat, mult: nat, k: nat) {
    forall j: nat | j < k :: Credits(mult, j) * VOLUNTEER_BONUS_NUM <= max
  }

  function MultView(max: nat, c: Citizen, vol: set<nat>, today: nat): Answer {
    var k := PendingCredits(c, vol, today);
    if CreditsFit(max, c.mult, k) then Value(Credits(c.mult, k)) else Aborted
  }

  /** Voting power as the product of what the other views report. */
  function PowerView(max: nat, c: Citizen, active: set<nat>, vol: set<nat>, today: nat): Answer {
    if !c.isCitizen then Value(0)
    else
      var h, l := HonorView(max, c, 0, active, today), HonorView(max, c, 1, active, today);
      var v := HonorView(max, c, 2, active, today);
      var m := MultView(max, c, vol, today);
      if h.Aborted? || l.Aborted? || v.Aborted? || m.Aborted? then Aborted
      else if m.value * BASIS_POINTS > max then Aborted
      else if BasePower(h.value, l.value, v.value) * Isqrt(m.value * BASIS_POINTS) > max then Aborted
      else Value(Power(h.value, l.value, v.value, m.value))
  }

  method SimulateCurrentHonor(c: Citizen, bits: Bits128, who: Addr, now: nat, i: nat) returns (r: Answer)
    requires i < 3 && bits.Valid() && c.joinDay <= c.lastDay[i]
    ensures r == HonorView(U128_MAX, c, i, DaysOf(bits.days, who), Today(now))
  {
    var honor: nat := c.honor[i];
    ghost var s, a := ShieldOf(c, DaysOf(bits.days, who)), AxisOf(c, i);
    SettlingStarts(U128_MAX, s, a);
    if honor == 0 || !c.isCitizen {
      if honor == 0 {
        NothingLeft(U128_MAX, s, a, a.day, a.rate, a.day + DaysDue(Today(now), a.day));
      }
      return Value(0);
    }
    var today := now / SECONDS_PER_DAY;
    var last := c.lastDay[i];
    if today <= last {
      return Value(honor);
    }
    var dayCount := today - last;
    if dayCount > MAX_DECAY_DAYS_PER_CALL {
      dayCount := MAX_DECAY_DAYS_PER_CALL;
    }
    r := ReplayDays(AxisOf(c, i), last + dayCount, c.sabbath, c.joinDay, who, bits);
  }

  /** The loop of SimulateCurrentHonor; unlike settlement it stops as soon as no honor is left. */
  method ReplayDays(a: AxisState, endDay: nat, sabbathOff: nat, join: nat, who: Addr, bits: Bits128) returns (r: Answer)
    requires bits.Valid() && join <= a.day <= endDay
    ensures var s, n := Shield(join, sabbathOff, DaysOf(bits.days, who)), endDay - a.day;
            r == if DaysFit(U128_MAX, s, a, n) then Value(Days(s, a, n).honor) else Aborted
  {
    var honor: nat, rate: nat := a.honor, a.rate;
    ghost var s := Shield(join, sabbathOff, DaysOf(bits.days, who));
    hide Settling, Days, DaysFit, Undecayed, NextRate, Exempt;
    SettlingStarts(U128_MAX, s, a);
    var d := a.day + 1;
    while d <= endDay
      invariant a.day + 1 <= d <= endDay + 1
      invariant Settling(U128_MAX, s, a, d - 1, honor, rate)
    {
      ghost var oldRate := rate;
      rate := GrowRate(rate);
      ExemptIs(s, d);
      DayCases(U128_MAX, s, a, endDay, d, honor, oldRate, rate);
      if (d - join) % 7 != sabbathOff && !bits.GetBit(who, d) {
        if rate >= BASIS_POINTS {
          NothingLeft(U128_MAX, s, a, d, rate, endDay);
          return Value(0);
        }
        if Undecayed(honor, rate) > U128_MAX {
          return Aborted;
        }
        honor := Undecayed(honor, rate) / BASIS_POINTS;
        if honor == 0 {
          NothingLeft(U128_MAX, s, a, d, rate, endDay);
          return Value(0);
        }
      }
      d := d + 1;
    }
    SettlingEnds(U128_MAX, s, a, endDay, honor, rate);
    return Value(honor);
  }

  /** Once the loop of the query has passed week w, this is its multiplier, and nothing overflowed. */
  predicate Compounding(max: nat, vol: set<nat>, c: Citizen, w: nat, mult: nat)
    requires c.lastWeek <= w
  {
    var k := |QualifiedAfter(vol, c.lastWeek, w - c.lastWeek)|;
    mult == Credits(c.mult, k) && CreditsFit(max, c.mult, k)
  }

  /** Every way week w, of those up to the last one, can go. */
  lemma CompoundCases(max: nat, vol: set<nat>, c: Citizen, last: nat, w: nat, mult: nat)
    requires c.lastWeek < w <= last && Compounding(max, vol, c, w - 1, mult)
    ensures var product, total := mult * VOLUNTEER_BONUS_NUM, |QualifiedAfter(vol, c.lastWeek, last - c.lastWeek)|;
            && (!Qualified(vol, w) ==> Compounding(max, vol, c, w, mult))
            && (Qualified(vol, w) && product <= max ==> Compounding(max, vol, c, w, product / VOLUNTEER_BONUS_DEN))
            && (Qualified(vol, w) && product > max ==> !CreditsFit(max, c.mult, total))
  {
    hide Qualified;
    var k := |QualifiedAfter(vol, c.lastWeek, w - 1 - c.lastWeek)|;
    QualifiedAfterSplit(vol, c.lastWeek, w - c.lastWeek, last - w);
    assert Credits(c.mult, k) == mult;
  }

  method SimulateCurrentMultBp(c: Citizen, bits: Bits128, who: Addr, now: nat) returns (r: Answer)
    requires bits.Valid()
    ensures r == MultView(U128_MAX, c, DaysOf(bits.days, who), Today(now))
  {
    var multBp: nat := c.mult;
    var today := now / SECONDS_PER_DAY;
    if today < 6 {
      return Value(multBp);
    }
    var lastCompleteWeek := (today - 6) / 7;
    if lastCompleteWeek <= c.lastWeek {
      return Value(multBp);
    }
    ghost var vol := DaysOf(bits.days, who);
    assert Compounding(U128_MAX, vol, c, c.lastWeek, multBp);
    assert WeeksDue(today, c.lastWeek) == lastCompleteWeek - c.lastWeek;
    var w := c.lastWeek + 1;
    while w <= lastCompleteWeek
      invariant c.lastWeek + 1 <= w <= lastCompleteWeek + 1
      invariant Compounding(U128_MAX, vol, c, w - 1, multBp)
    {
      hide Compounding, Qualified, CreditsFit, QualifiedAfter, Credits;
      CompoundCases(U128_MAX, vol, c, lastCompleteWeek, w, multBp);
      var qualified := bits.WeekQualifies(who, w);
      if qualified {
        if multBp * VOLUNTEER_BONUS_NUM > U128_MAX {
          return Aborted;
        }
        multBp := multBp * VOLUNTEER_BONUS_NUM / VOLUNTEER_BONUS_DEN;
      }
      w := w + 1;
    }
    return Value(multBp);
  }

  method QueryVotingPower(c: Citizen, active: Bits128, vol: Bits128, who: Addr, now: nat) returns (r: Answer)
    requires active.Valid() && vol.Valid() && OnTime(c)
    ensures r == PowerView(U128_MAX, c, DaysOf(active.days, who), DaysOf(vol.days, who), Today(now))
  {
    hide HonorView, MultView, Isqrt, Today, BasePower, Power;
    if !c.isCitizen {
      return Value(0);
    }
    var h := SimulateCurrentHonor(c, active, who, now, 0);
    var l := SimulateCurrentHonor(c, active, who, now, 1);
    var v := SimulateCurrentHonor(c, active, who, now, 2);
    var m := SimulateCurrentMultBp(c, vol, who, now);
    if h.Aborted? || l.Aborted? || v.Aborted? || m.Aborted? {
      return Aborted;
    }
    r := CombinePower(U128_MAX, h.value, l.value, v.value, m.value);
  }

  /** The last lines of both contracts' queries: roots, weights and the damped multiplier. */
  method CombinePower(max: nat, h: nat, l: nat, v: nat, m: nat) returns (r: Answer)
    ensures r == if m * BASIS_POINTS > max || BasePower(h, l, v) * Isqrt(m * BASIS_POINTS) > max then Aborted
                 else Value(Power(h, l, v, m))
  {
    hide Isqrt, IsRoot;
    var rootC := IntSqrt(h);
    var rootL := IntSqrt(l);
    var rootV := IntSqrt(v);
    var baseVp: nat := rootC + LABOR_WEIGHT * rootL + VERIFICATION_WEIGHT * rootV;
    assert baseVp == BasePower(h, l, v);
    if m * BASIS_POINTS > max {
      return Aborted;
    }
    var sqrtFactor := IntSqrt(m * BASIS_POINTS);
    hide BasePower;
    if baseVp * sqrtFactor > max {
      return Aborted;
    }
    return Value(baseVp * sqrtFactor / BASIS_POINTS);
  }

  // ---------- views and settlement ----------

  lemma CreditsFitSplit(max: nat, mult: nat, m: nat, n: nat)
    requires CreditsFit(max, mult, m + n)
    ensures CreditsFit(max, Credits(mult, m), n)
  {
    forall j: nat | j < n
      ensures Credits(Credits(mult, m), j) * VOLUNTEER_BONUS_NUM <= max
    {
      CreditsCompose(mult, m, j);
    }
  }

  lemma ProcessingKeepsMultView(max: nat, d: Citizen, i: nat, vol: set<nat>, today: nat)
    requires i < 3 && d.lastDay[i] <= today && MultView(max, d, vol, today).Value?
    ensures var d' := Processed(d, i, vol);
            && MultView(max, d', vol, today) == MultView(max, d, vol, today)
            && (WeeksDue(d.lastDay[i], d.lastWeek) == WeeksDue(today, d.lastWeek) ==>
                  MultView(max, d, vol, today) == Value(d'.mult))
  {
    var m, n := WeeksDue(d.lastDay[i], d.lastWeek), WeeksDue(today, d.lastWeek);
    hide Weeks, QualifiedAfter, Credits, TopUps, CreditsFit;
    WeeksCredit(vol, WeekStateOf(d), m);
    QualifiedAfterSplit(vol, d.lastWeek, m, n - m);
    var j, k := |QualifiedAfter(vol, d.lastWeek, m)|, |QualifiedAfter(vol, d.lastWeek + m, n - m)|;
    CreditsCompose(d.mult, j, k);
    CreditsFitSplit(max, d.mult, j, k);
    assert WeeksDue(today, d.lastWeek + m) == n - m;
    if n == m {
      NothingDue(vol, d.lastWeek + m);
    }
  }

  /**
   Settling any axis leaves the multiplier that the query reports as it is; and
   where at most 90 days were unsettled, that multiplier is then stored.
   */
  lemma SettlingKeepsMultView(max: nat, c: Citizen, i: nat, amount: nat, active: set<nat>, vol: set<nat>, today: nat)
    requires i < 3 && c.lastDay[i] <= today && MultView(max, c, vol, today).Value?
    ensures var c' := Processed(Earned(Decayed(c, i, active, today), i, amount), i, vol);
            && MultView(max, c', vol, today) == MultView(max, c, vol, today)
            && (today - c.lastDay[i] <= MAX_DECAY_DAYS_PER_CALL ==> MultView(max, c, vol, today) == Value(c'.mult))
  {
    DaysDay(ShieldOf(c, active), AxisOf(c, i), DaysDue(today, c.lastDay[i]));
    hide Days, CreditsFit, Credits, QualifiedAfter, Processed;
    var d := Earned(Decayed(c, i, active, today), i, amount);
    assert d.lastDay[i] <= today && MultView(max, d, vol, today) == MultView(max, c, vol, today);
    ProcessingKeepsMultView(max, d, i, vol, today);
  }

  lemma NothingDue(vol: set<nat>, last: nat)
    ensures QualifiedAfter(vol, last, 0) == []
  {
  }

  /**
   The voting power query in plain numbers: for a citizen it is made of the three
   honors and the multiplier that the other queries report, and it aborts exactly
   if one of them does or one of its two products overflows.
   */
  lemma PowerViewIs(max: nat, c: Citizen, active: set<nat>, vol: set<nat>, today: nat, h: Answer, l: Answer, v: Answer,
                    m: Answer, x: nat, y: nat, z: nat, f: nat)
    requires c.isCitizen && h == HonorView(max, c, 0, active, today) && l == HonorView(max, c, 1, active, today)
    requires v == HonorView(max, c, 2, active, today) && m == MultView(max, c, vol, today)
    requires h.Value? && l.Value? && v.Value? && m.Value? ==>
               IsRoot(h.value, x) && IsRoot(l.value, y) && IsRoot(v.value, z) && IsRoot(m.value * 10_000, f)
    ensures var p, b := PowerView(max, c, active, vol, today), x + 5 * y + 5 * z;
            && (p.Aborted? <==>
                  || h.Aborted? || l.Aborted? || v.Aborted? || m.Aborted?
                  || m.value * 10_000 > max || b * f > max)
            && (p.Value? ==> p.value * 10_000 <= b * f < (p.value + 1) * 10_000)
  {
    hide HonorView, MultView, Isqrt, IsRoot, Power;
    if h.Value? && l.Value? && v.Value? && m.Value? {
      RootIs(h.value, x);
      RootIs(l.value, y);
      RootIs(v.value, z);
      RootIs(m.value * 10_000, f);
      PowerIs(h.value, l.value, v.value, m.value, x, y, z, f);
    }
  }

  /** Whoever is not a citizen has no voting power and no honor. */
  lemma NoPowerForOthers(max: nat, c: Citizen, i: nat, active: set<nat>, vol: set<nat>, today: nat)
    requires i < 3 && !c.isCitizen
    ensures PowerView(max, c, active, vol, today) == HonorView(max, c, i, active, today) == Value(0)
  {
  }

  /** One pending week: the query multiplies by 1.01342, rounded down, and aborts exactly if the product overflows. */
  lemma MultViewIs(max: nat, c: Citizen, vol: set<nat>, today: nat)
    requires PendingCredits(c, vol, today) == 1
    ensures var m := MultView(max, c, vol, today);
            && (m.Aborted? <==> c.mult * 101_342 > max)
            && (m.Value? ==> m.value * 100_000 <= c.mult * 101_342 < (m.value + 1) * 100_000)
  {
    assert Credits(c.mult, 0) == c.mult && Credits(c.mult, 1) == Credit(Credits(c.mult, 0));
    CreditIs(c.mult);
    hide PendingCredits, Credit;
  }
}
