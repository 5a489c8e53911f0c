/** A citizen's record, and what settling its axes and weeks means for it. */
module Citizens {
  import opened Constants
  import opened Types
  import opened Decay
  import opened Volunteer

  datatype Axis = Capital | Labor | Verification {
    function Index(): (i: nat)
      ensures i < 3
    {
      match this
      case Capital => 0
      case Labor => 1
      case Verification => 2
    }
  }

  /** One entry per axis: capital, labor, verification. */
  type Triple = s: seq<nat> | |s| == 3 witness [0, 0, 0]

  datatype Citizen = Citizen(
    isCitizen: bool,
    joinDay: nat,
    sabbath: nat,
    locked: nat,
    honor: Triple,
    lastDay: Triple,
    rate: Triple,
    weeks: nat,
    lastWeek: nat,
    mult: nat)

  /** A citizen who joins today. */
  function Newborn(today: nat): Citizen {
    Citizen(true, today, DEFAULT_SABBATH_OFFSET, 0, [INITIAL_CAPITAL_HONOR, 0, 0], [today, today, today],
            [BASE_DECAY_BP, BASE_DECAY_BP, BASE_DECAY_BP], 0, today / 7, BASIS_POINTS)
  }

  function Today(nowSeconds: nat): nat {
    nowSeconds / SECONDS_PER_DAY
  }

  /** A day has 86400 seconds. */
  lemma TodayIs(d: nat, s: nat)
    requires s < 86_400
    ensures Today(86_400 * d + s) == d
  {
  }

  // ---------- one axis ----------

  function AxisOf(c: Citizen, i: nat): AxisState
    requires i < 3
  {
    AxisState(c.honor[i], c.rate[i], c.lastDay[i])
  }

  function WithAxis(c: Citizen, i: nat, a: AxisState): Citizen
    requires i < 3
  {
    c.(honor := c.honor[i := a.honor], rate := c.rate[i := a.rate], lastDay := c.lastDay[i := a.day])
  }

  function ShieldOf(c: Citizen, active: set<nat>): Shield {
    Shield(c.joinDay, c.sabbath, active)
  }

  /** How many unsettled days one call settles. */
  function DaysDue(today: nat, last: nat): nat {
    if today <= last then 0
    else if today - last > MAX_DECAY_DAYS_PER_CALL then MAX_DECAY_DAYS_PER_CALL
    else today - last
  }

  function DecayedAxis(c: Citizen, i: nat, active: set<nat>, today: nat): AxisState
    requires i < 3
  {
    Days(ShieldOf(c, active), AxisOf(c, i), DaysDue(today, c.lastDay[i]))
  }

  function Decayed(c: Citizen, i: nat, active: set<nat>, today: nat): Citizen
    requires i < 3
  {
    WithAxis(c, i, DecayedAxis(c, i, active, today))
  }

  predicate DecayFits(max: nat, c: Citizen, i: nat, active: set<nat>, today: nat)
    requires i < 3
  {
    DaysFit(max, ShieldOf(c, active), AxisOf(c, i), DaysDue(today, c.lastDay[i]))
  }

  function Earned(c: Citizen, i: nat, amount: nat): Citizen
    requires i < 3
  {
    c.(honor := c.honor[i := c.honor[i] + amount])
  }

  // ---------- volunteer weeks ----------

  function WeekStateOf(c: Citizen): WeekState {
    WeekState(c.honor[0], c.weeks, c.mult, c.lastWeek)
  }

  function WithWeeks(c: Citizen, s: WeekState): Citizen {
    c.(honor := c.honor[0 := s.capital], weeks := s.weeks, mult := s.mult, lastWeek := s.last)
  }

  /** The weeks settled once axis i has been settled through its last day. */
  function Processed(c: Citizen, i: nat, vol: set<nat>): Citizen
    requires i < 3
  {
    WithWeeks(c, Weeks(vol, WeekStateOf(c), WeeksDue(c.lastDay[i], c.lastWeek)))
  }

  predicate ProcessFits(max: nat, c: Citizen, i: nat, vol: set<nat>)
    requires i < 3
  {
    WeeksFit(max, vol, WeekStateOf(c), WeeksDue(c.lastDay[i], c.lastWeek))
  }

  /** No axis lags behind the join day. */
  predicate OnTime(c: Citizen) {
    forall i | 0 <= i < 3 :: c.joinDay <= c.lastDay[i]
  }

  lemma DecayKeepsOnTime(c: Citizen, i: nat, active: set<nat>, today: nat)
    requires i < 3 && OnTime(c)
    ensures OnTime(Decayed(c, i, active, today))
  {
    DaysDay(ShieldOf(c, active), AxisOf(c, i), DaysDue(today, c.lastDay[i]));
  }

  /** The weeks that settling axis i credits. */
  function CreditedBy(c: Citizen, i: nat, vol: set<nat>): seq<nat>
    requires i < 3
  {
    QualifiedAfter(vol, c.lastWeek, WeeksDue(c.lastDay[i], c.lastWeek))
  }
}

/** Step by step, what the settlement loops of both contracts and their views keep. */
module Loops {
  import opened Constants
  import opened Decay
  import opened Volunteer

  /** Once a loop over the days after a.day has passed day d, these are its variables, and nothing overflowed. */
  predicate Settling(max: nat, s: Shield, a: AxisState, d: nat, honor: nat, rate: nat)
    requires a.day <= d
  {
    Days(s, a, d - a.day) == AxisState(honor, rate, d) && DaysFit(max, s, a, d - a.day)
  }

  lemma SettlingStarts(max: nat, s: Shield, a: AxisState)
    ensures Settling(max, s, a, a.day, a.honor, a.rate)
  {
  }

  lemma SettlingEnds(max: nat, s: Shield, a: AxisState, d: nat, honor: nat, rate: nat)
    requires a.day <= d && Settling(max, s, a, d, honor, rate)
    ensures Days(s, a, d - a.day) == AxisState(honor, rate, d) && DaysFit(max, s, a, d - a.day)
  {
  }

  /** The growth of the rate at the start of each day. */
  method GrowRate(rate: nat) returns (rate': nat)
    ensures rate' == NextRate(rate)
  {
    rate' := rate * DECAY_GROWTH_NUM / DECAY_GROWTH_DEN;
    if rate' > BASIS_POINTS {
      rate' := BASIS_POINTS;
    }
  }

  lemma ExemptIs(s: Shield, d: nat)
    ensures Exempt(s, d) <==> (d - s.joinDay) % 7 == s.sabbath || d in s.active
  {
  }

  /** Every way day d, of those up to the last one, can go. */
  lemma DayCases(max: nat, s: Shield, a: AxisState, last: nat, d: nat, honor: nat, rate: nat, rate': nat)
    requires a.day < d <= last && Settling(max, s, a, d - 1, honor, rate) && rate' == NextRate(rate)
    ensures var exempt, product := Exempt(s, d), Undecayed(honor, rate');
            && (honor == 0 || exempt ==> Settling(max, s, a, d, honor, rate'))
            && (!exempt && rate' == BASIS_POINTS ==> Settling(max, s, a, d, 0, rate'))
            && (!exempt && rate' < BASIS_POINTS && product <= max ==>
                  Settling(max, s, a, d, product / BASIS_POINTS, rate'))
            && (!exempt && rate' < BASIS_POINTS && product > max ==> !DaysFit(max, s, a, last - a.day))
  {
    if honor == 0 {
      assert Undecayed(honor, rate') == 0;
    }
    hide Undecayed;
    if DaysFit(max, s, a, last - a.day) {
      DaysFitPrefix(max, s, a, d - a.day, last - a.day);
    }
  }

  lemma {:induction false} DaysFitPrefix(max: nat, s: Shield, a: AxisState, k: nat, n: nat)
    requires k <= n && DaysFit(max, s, a, n)
    ensures DaysFit(max, s, a, k)
  {
    if k < n {
      DaysFitPrefix(max, s, a, k, n - 1);
    }
  }

  /** Once the honor is gone, or one unprotected day at 100% has passed, nothing is left at the end. */
  lemma {:induction false} NothingLeft(max: nat, s: Shield, a: AxisState, d: nat, rate: nat, last: nat)
    requires a.day <= d <= last && Settling(max, s, a, d, 0, rate)
    ensures Days(s, a, last - a.day).honor == 0 && DaysFit(max, s, a, last - a.day)
    decreases last - d
  {
    if d < last {
      DayCases(max, s, a, last, d + 1, 0, rate, NextRate(rate));
      NothingLeft(max, s, a, d + 1, NextRate(rate), last);
    }
  }

  /** Once a loop over the weeks after s.last has passed week w, these are its variables, and nothing overflowed. */
  predicate Crediting(max: nat, vol: set<nat>, s: WeekState, w: nat, capital: nat, weeks: nat, mult: nat)
    requires s.last <= w
  {
    Weeks(vol, s, w - s.last) == WeekState(capital, weeks, mult, w) && WeeksFit(max, vol, s, w - s.last)
  }

  lemma CreditingStarts(max: nat, vol: set<nat>, s: WeekState)
    ensures Crediting(max, vol, s, s.last, s.capital, s.weeks, s.mult)
  {
  }

  lemma CreditingEnds(max: nat, vol: set<nat>, s: WeekState, w: nat, capital: nat, weeks: nat, mult: nat)
    requires s.last <= w && Crediting(max, vol, s, w, capital, weeks, mult)
    ensures Weeks(vol, s, w - s.last) == WeekState(capital, weeks, mult, w) && WeeksFit(max, vol, s, w - s.last)
  {
  }

  predicate CreditFits(max: nat, capital: nat, mult: nat) {
    && mult * VOLUNTEER_BONUS_NUM <= max
    && capital * VOLUNTEER_CAPITAL_PCT <= max
    && capital + Bonus(capital) <= max
  }

  /** Every way week w, of those up to the last one, can go. */
  lemma WeekCases(max: nat, vol: set<nat>, s: WeekState, last: nat, w: nat, capital: nat, weeks: nat, mult: nat)
    requires s.last < w <= last && Crediting(max, vol, s, w - 1, capital, weeks, mult)
    ensures var qualified := Qualified(vol, w);
            && (!qualified ==> Crediting(max, vol, s, w, capital, weeks, mult))
            && (qualified && CreditFits(max, capital, mult) ==>
                  Crediting(max, vol, s, w, capital + Bonus(capital), weeks + 1, Credit(mult)))
            && (qualified && !CreditFits(max, capital, mult) ==> !WeeksFit(max, vol, s, last - s.last))
  {
    if WeeksFit(max, vol, s, last - s.last) {
      WeeksFitPrefix(max, vol, s, w - s.last, last - s.last);
    }
  }

  lemma {:induction false} WeeksFitPrefix(max: nat, vol: set<nat>, s: WeekState, k: nat, n: nat)
    requires k <= n && WeeksFit(max, vol, s, n)
    ensures WeeksFit(max, vol, s, k)
  {
    if k < n {
      WeeksFitPrefix(max, vol, s, k, n - 1);
    }
  }
}
