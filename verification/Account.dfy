/** The CosmWasm contract's working copy of a citizen, loaded from storage and updated field by field. */
module Account {
  import opened Constants
  import opened Types
  import opened Decay
  import opened Volunteer
  import opened Citizens
  import opened DayBits
  import opened Loops

  class MutCitizen {
    var isCitizen: bool
    var joinDay: nat
    var sabbathOffset: nat
    var lockedKwr: nat
    var baseHonor: Triple
    var lastDecayDay: Triple
    var decayRateAtLastDay: Triple
    var volunteerWeeks: nat
    var lastProcessedWeek: nat
    var volunteerMultBp: nat

    function Value(): Citizen
      reads this
    {
      Citizen(isCitizen, joinDay, sabbathOffset, lockedKwr, baseHonor, lastDecayDay, decayRateAtLastDay,
              volunteerWeeks, lastProcessedWeek, volunteerMultBp)
    }

    constructor (c: Citizen)
      ensures Value() == c
    {
      isCitizen, joinDay, sabbathOffset, lockedKwr := c.isCitizen, c.joinDay, c.sabbath, c.locked;
      baseHonor, lastDecayDay, decayRateAtLastDay := c.honor, c.lastDay, c.rate;
      volunteerWeeks, lastProcessedWeek, volunteerMultBp := c.weeks, c.lastWeek, c.mult;
    }

    static lemma NothingDue(c: Citizen, i: nat, active: set<nat>, today: nat)
      requires i < 3 && today <= c.lastDay[i]
      ensures DecayFits(U128_MAX, c, i, active, today) && Decayed(c, i, active, today) == c
    {
    }

    /** Settles up to 90 days of one axis; ok is false where u128 arithmetic would overflow. */
    method ApplyDecay(nowSeconds: nat, axis: nat, who: Addr, bits: Bits128) returns (ok: bool)
      requires axis < 3 && bits.Valid() && joinDay <= lastDecayDay[axis]
      modifies this
      ensures var active := DaysOf(bits.days, who);
              && (ok <==> DecayFits(U128_MAX, old(Value()), axis, active, Today(nowSeconds)))
              && (ok ==> Value() == Decayed(old(Value()), axis, active, Today(nowSeconds)))
    {
      var today := nowSeconds / SECONDS_PER_DAY;
      var last := lastDecayDay[axis];
      hide Days, DaysFit;
      if today <= last {
        NothingDue(Value(), axis, DaysOf(bits.days, who), today);
        return true;
      }
      var dayCount := today - last;
      if dayCount > MAX_DECAY_DAYS_PER_CALL {
        dayCount := MAX_DECAY_DAYS_PER_CALL;
      }
      var endDay := last + dayCount;

      var honor, rate;
      ok, honor, rate :=
        ReplayDays(AxisState(baseHonor[axis], decayRateAtLastDay[axis], last), endDay, sabbathOffset, joinDay,
                   who, bits);
      if !ok {
        return;
      }
      baseHonor := baseHonor[axis := honor];
      lastDecayDay := lastDecayDay[axis := endDay];
      decayRateAtLastDay := decayRateAtLastDay[axis := rate];
    }

    /** The loop of ApplyDecay, over the days after last up to endDay. */
    static method ReplayDays(a: AxisState, endDay: nat, sabbathOff: nat, join: nat, who: Addr, bits: Bits128)
      returns (ok: bool, honor: nat, rate: nat)
      requires bits.Valid() && join <= a.day <= endDay
      ensures var s := Shield(join, sabbathOff, DaysOf(bits.days, who));
              && (ok <==> DaysFit(U128_MAX, s, a, endDay - a.day))
              && (ok ==> Days(s, a, endDay - a.day) == AxisState(honor, rate, endDay))
    {
      honor, rate := a.honor, a.rate;
      ghost var s := Shield(join, sabbathOff, DaysOf(bits.days, who));
      hide Settling, Days, DaysFit, Undecayed, NextRate, Exempt;
      SettlingStarts(U128_MAX, s, a);
      var d := a.day + 1;
      while d <= endDay
        invariant a.day + 1 <= d <= endDay + 1
        invariant Settling(U128_MAX, s, a, d - 1, honor, rate)
      {
        ghost var oldRate := rate;
        rate := GrowRate(rate);
        ExemptIs(s, d);
        DayCases(U128_MAX, s, a, endDay, d, honor, oldRate, rate);
        if honor != 0 && (d - join) % 7 != sabbathOff && !bits.GetBit(who, d) {
          if rate >= BASIS_POINTS {
            honor := 0;
          } else {
            if Undecayed(honor, rate) > U128_MAX {
              return false, honor, rate;
            }
            honor := Undecayed(honor, rate) / BASIS_POINTS;
          }
        }
        d := d + 1;
      }
      SettlingEnds(U128_MAX, s, a, endDay, honor, rate);
      return true, honor, rate;
    }

    /** Settles the weeks completed by one axis; ok is false where u128 arithmetic would overflow. */
    method ProcessWeeks(who: Addr, bits: Bits128, axis: nat) returns (ok: bool)
      requires axis < 3 && bits.Valid()
      modifies this
      ensures var vol := DaysOf(bits.days, who);
              && (ok <==> ProcessFits(U128_MAX, old(Value()), axis, vol))
              && (ok ==> Value() == Processed(old(Value()), axis, vol))
    {
      var throughDay := lastDecayDay[axis];
      if throughDay < 6 {
        return true;
      }
      var lastCompleteWeek := (throughDay - 6) / 7;
      if lastCompleteWeek <= lastProcessedWeek {
        return true;
      }

      var capital, weeks, multBp;
      ok, capital, weeks, multBp := ReplayWeeks(who, bits, lastCompleteWeek);
      if !ok {
        return;
      }
      baseHonor := baseHonor[0 := capital];
      volunteerWeeks := weeks;
      volunteerMultBp := multBp;
      lastProcessedWeek := lastCompleteWeek;
    }

    /** The loop of ProcessWeeks, over the unprocessed weeks up to lastCompleteWeek. */
    method ReplayWeeks(who: Addr, bits: Bits128, lastCompleteWeek: nat)
      returns (ok: bool, capital: nat, weeks: nat, multBp: nat)
      requires bits.Valid() && lastProcessedWeek <= lastCompleteWeek
      ensures var vol, s, due := DaysOf(bits.days, who), WeekStateOf(Value()), lastCompleteWeek - lastProcessedWeek;
              && (ok <==> WeeksFit(U128_MAX, vol, s, due))
              && (ok ==> Weeks(vol, s, due) == WeekState(capital, weeks, multBp, lastCompleteWeek))
    {
      capital, weeks, multBp := baseHonor[0], volunteerWeeks, volunteerMultBp;
      ghost var vol, s := DaysOf(bits.days, who), WeekStateOf(Value());
      hide Crediting, Weeks, WeeksFit, Qualified;
      CreditingStarts(U128_MAX, vol, s);
      var w := lastProcessedWeek + 1;
      while w <= lastCompleteWeek
        invariant lastProcessedWeek + 1 <= w <= lastCompleteWeek + 1
        invariant Crediting(U128_MAX, vol, s, w - 1, capital, weeks, multBp)
      {
        WeekCases(U128_MAX, vol, s, lastCompleteWeek, w, capital, weeks, multBp);
        var qualified := bits.WeekQualifies(who, w);
        if qualified {
          if multBp * VOLUNTEER_BONUS_NUM > U128_MAX || capital * VOLUNTEER_CAPITAL_PCT > U128_MAX {
            return false, capital, weeks, multBp;
          }
          weeks := weeks + 1;
          multBp := multBp * VOLUNTEER_BONUS_NUM / VOLUNTEER_BONUS_DEN;
          var capBonus := capital * VOLUNTEER_CAPITAL_PCT / BASIS_POINTS;
          if capBonus < VOLUNTEER_CAPITAL_MIN {
            capBonus := VOLUNTEER_CAPITAL_MIN;
          }
          if capital + capBonus > U128_MAX {
            return false, capital, weeks, multBp;
          }
          capital := capital + capBonus;
        }
        w := w + 1;
      }
      CreditingEnds(U128_MAX, vol, s, lastCompleteWeek, capital, weeks, multBp);
      return true, capital, weeks, multBp;
    }
  }
}
