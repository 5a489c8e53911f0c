/** The views of the Solidity contract, proved against the same functions. */
module SolidityViews {
  import opened Constants
  import opened Types
  import opened Decay
  import opened Volunteer
  import opened Citizens
  import opened DayBits
  import opened Loops
  import opened VotingPower
  import opened Views

  method GetCurrentHonor(c: Citizen, bits: Bits256, who: Addr, now: nat, i: nat) returns (r: Answer)
    requires i < 3 && bits.Valid() && c.joinDay <= c.lastDay[i]
    ensures r == HonorView(U256_MAX, c, i, DaysOf(bits.days, who), Today(now))
  {
    var honor: nat := c.honor[i];
    ghost var s, a := ShieldOf(c, DaysOf(bits.days, who)), AxisOf(c, i);
    SettlingStarts(U256_MAX, s, a);
    if !c.isCitizen || honor == 0 {
      if honor == 0 {
        NothingLeft(U256_MAX, s, a, a.day, a.rate, a.day + DaysDue(Today(now), a.day));
      }
      return Value(0);
    }
    var today := now / SECONDS_PER_DAY;
    var last := c.lastDay[i];
    if today <= last {
      return Value(honor);
    }
    var dayCount := today - last;
    if dayCount > MAX_DECAY_DAYS_PER_CALL {
      dayCount := MAX_DECAY_DAYS_PER_CALL;
    }
    r := ReplayDays(AxisOf(c, i), last + dayCount, c.sabbath, c.joinDay, who, bits);
  }

  /** The loop of GetCurrentHonor; unlike settlement it stops as soon as no honor is left. */
  method ReplayDays(a: AxisState, endDay: nat, sabbathOff: nat, join: nat, who: Addr, bits: Bits256) returns (r: Answer)
    requires bits.Valid() && join <= a.day <= endDay
    ensures var s, n := Shield(join, sabbathOff, DaysOf(bits.days, who)), endDay - a.day;
            r == if DaysFit(U256_MAX, s, a, n) then Value(Days(s, a, n).honor) else Aborted
  {
    var honor: nat, rate: nat := a.honor, a.rate;
    ghost var s := Shield(join, sabbathOff, DaysOf(bits.days, who));
    hide Settling, Days, DaysFit, Undecayed, NextRate, Exempt;
    SettlingStarts(U256_MAX, s, a);
    for d := a.day + 1 to endDay + 1
      invariant Settling(U256_MAX, s, a, d - 1, honor, rate)
    {
      ghost var oldRate := rate;
      rate := GrowRate(rate);
      ExemptIs(s, d);
      DayCases(U256_MAX, s, a, endDay, d, honor, oldRate, rate);
      if (d - join) % 7 != sabbathOff && !bits.GetBit(who, d) {
        if rate >= BASIS_POINTS {
          NothingLeft(U256_MAX, s, a, d, rate, endDay);
          return Value(0);
        }
        if Undecayed(honor, rate) > U256_MAX {
          return Aborted;
        }
        honor := Undecayed(honor, rate) / BASIS_POINTS;
        if honor == 0 {
          NothingLeft(U256_MAX, s, a, d, rate, endDay);
          return Value(0);
        }
      }
    }
    SettlingEnds(U256_MAX, s, a, endDay, honor, rate);
    return Value(honor);
  }

  method ComputeCurrentMultBP(c: Citizen, bits: Bits256, who: Addr, now: nat) returns (r: Answer)
    requires bits.Valid()
    ensures r == MultView(U256_MAX, c, DaysOf(bits.days, who), Today(now))
  {
    var multBP: nat := c.mult;
    var today := now / SECONDS_PER_DAY;
    if today < 6 {
      return Value(multBP);
    }
    var lastCompleteWeek := (today - 6) / 7;
    if lastCompleteWeek <= c.lastWeek {
      return Value(multBP);
    }
    ghost var vol := DaysOf(bits.days, who);
    assert Compounding(U256_MAX, vol, c, c.lastWeek, multBP);
    assert WeeksDue(today, c.lastWeek) == lastCompleteWeek - c.lastWeek;
    for w := c.lastWeek + 1 to lastCompleteWeek + 1
      invariant Compounding(U256_MAX, vol, c, w - 1, multBP)
    {
      hide Compounding, Qualified, CreditsFit, QualifiedAfter, Credits;
      CompoundCases(U256_MAX, vol, c, lastCompleteWeek, w, multBP);
      var qualified := bits.WeekQualifies(who, w);
      if qualified {
        if multBP * VOLUNTEER_BONUS_NUM > U256_MAX {
          return Aborted;
        }
        multBP := multBP * VOLUNTEER_BONUS_NUM / VOLUNTEER_BONUS_DEN;
      }
    }
    return Value(multBP);
  }

  method GetVotingPower(c: Citizen, active: Bits256, vol: Bits256, who: Addr, now: nat) returns (r: Answer)
    requires active.Valid() && vol.Valid() && OnTime(c)
    ensures r == PowerView(U256_MAX, c, DaysOf(active.days, who), DaysOf(vol.days, who), Today(now))
  {
    hide HonorView, MultView, Isqrt, Today, BasePower, Power;
    if !c.isCitizen {
      return Value(0);
    }
    var h := GetCurrentHonor(c, active, who, now, 0);
    var l := GetCurrentHonor(c, active, who, now, 1);
    var v := GetCurrentHonor(c, active, who, now, 2);
    var m := ComputeCurrentMultBP(c, vol, who, now);
    if h.Aborted? || l.Aborted? || v.Aborted? || m.Aborted? {
      return Aborted;
    }
    r := CombinePower(U256_MAX, h.value, l.value, v.value, m.value);
  }
}
