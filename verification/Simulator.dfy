/** The page's day-by-day simulation: the eager reference for the lazy contracts. */
module Simulator {
  import opened Constants
  import opened Decay
  import opened Volunteer
  import opened VotingPower
  import opened Citizens

  datatype Input = Input(
    honors: Triple,
    days: nat,
    activityPct: int,
    sabbathOffset: nat,
    autoVolunteer: bool,
    initVolWeeks: nat)

  /** One entry per day, from day 0 on. */
  datatype Series = Series(honor: seq<Triple>, rate: seq<nat>, mult: seq<nat>, vp: seq<nat>)

  /** The given percentage of days is active, spread evenly. */
  predicate IsActiveDay(d: nat, activityPct: int)
    requires d >= 1
  {
    if activityPct >= 100 then true
    else if activityPct <= 0 then false
    else d * activityPct / 100 > (d - 1) * activityPct / 100
  }

  function ActiveDays(activityPct: int, days: nat): set<nat> {
    set d: nat | 1 <= d <= days && IsActiveDay(d, activityPct)
  }

  /** Of the first d days exactly the given percentage, rounded down, is active. */
  lemma {:induction false} ActiveShare(activityPct: int, d: nat)
    requires 0 <= activityPct <= 100
    ensures |ActiveDays(activityPct, d)| == d * activityPct / 100
  {
    if d == 0 {
      assert ActiveDays(activityPct, d) == {};
    } else {
      ActiveShare(activityPct, d - 1);
      var before := ActiveDays(activityPct, d - 1);
      assert ActiveDays(activityPct, d) == before + if IsActiveDay(d, activityPct) then {d} else {};
      assert d !in before;
      assert d * activityPct == (d - 1) * activityPct + activityPct;
    }
  }

  function ShieldFor(input: Input): Shield {
    Shield(0, input.sabbathOffset, ActiveDays(input.activityPct, input.days))
  }

  /** Whether a week of simulated volunteering ends on day d. */
  predicate BonusDay(input: Input, d: nat) {
    input.autoVolunteer && d % 7 == 0
  }

  /** One more day on axis i: decay, and on capital the bonus of a volunteered week. */
  function Advanced(input: Input, i: nat, a: AxisState): AxisState {
    var b := DayStep(ShieldFor(input), a);
    if i == 0 && BonusDay(input, b.day) then b.(honor := b.honor + Bonus(b.honor)) else b
  }

  /** Axis i after n simulated days from a given state. */
  function Continued(input: Input, i: nat, a: AxisState, n: nat): AxisState {
    if n == 0 then a else Advanced(input, i, Continued(input, i, a, n - 1))
  }

  /** Axis i on day d of the simulation. */
  function Simulated(input: Input, i: nat, d: nat): AxisState
    requires i < 3
  {
    Continued(input, i, AxisState(input.honors[i], BASE_DECAY_BP, 0), d)
  }

  function VolunteeredWeeks(input: Input, d: nat): nat {
    input.initVolWeeks + if input.autoVolunteer then d / 7 else 0
  }

  /** Labor, verification, and without volunteering also capital, only decay. */
  lemma {:induction false} ContinuedIsDays(input: Input, i: nat, a: AxisState, n: nat)
    requires i > 0 || !input.autoVolunteer
    ensures Continued(input, i, a, n) == Days(ShieldFor(input), a, n)
  {
    if n > 0 {
      ContinuedIsDays(input, i, a, n - 1);
      hide DayStep;
    }
  }

  lemma {:induction false} ContinuedCompose(input: Input, i: nat, a: AxisState, m: nat, n: nat)
    ensures Continued(input, i, Continued(input, i, a, m), n) == Continued(input, i, a, m + n)
  {
    if n > 0 {
      ContinuedCompose(input, i, a, m, n - 1);
      hide Advanced;
    }
  }

  lemma {:induction false} SimulatedClock(input: Input, i: nat, d: nat)
    requires i < 3
    ensures Simulated(input, i, d).day == d && Simulated(input, i, d).rate == Rate(d)
  {
    if d > 0 {
      SimulatedClock(input, i, d - 1);
      hide Exempt, Keep, NextRate, Bonus;
    }
  }

  /** One more simulated day of capital: a settled day, and every seventh day with volunteering 1%, but at least 100. */
  lemma CapitalDayIs(input: Input, a: AxisState)
    ensures var plain, b := Days(ShieldFor(input), a, 1), Advanced(input, 0, a);
            var gain := b.honor - plain.honor;
            && b.day == plain.day == a.day + 1 && b.rate == plain.rate
            && (!input.autoVolunteer || (a.day + 1) % 7 != 0 ==> gain == 0)
            && (input.autoVolunteer && (a.day + 1) % 7 == 0 ==>
                  if plain.honor < 10_100 then gain == 100 else gain * 100 <= plain.honor < (gain + 1) * 100)
  {
    assert Days(ShieldFor(input), a, 0) == a;
    BonusIs(DayStep(ShieldFor(input), a).honor);
    hide NextRate, Keep, Exempt, Bonus;
  }

  /** How many volunteered weeks end on the n days after the given one. */
  function WeeksEnding(input: Input, day: nat, n: nat): nat {
    if input.autoVolunteer then (day + n) / 7 - day / 7 else 0
  }

  lemma WeeksEndingNext(input: Input, day: nat, n: nat)
    requires n > 0
    ensures WeeksEnding(input, day, n) == WeeksEnding(input, day, n - 1) + if BonusDay(input, day + n) then 1 else 0
  {
    WeekEnds(day + n);
  }

  lemma AdvancedBetween(input: Input, x: AxisState, y: AxisState, top: nat)
    requires y.day == x.day && y.rate == x.rate && y.honor <= x.honor <= top
    ensures var b, c := Advanced(input, 0, x), DayStep(ShieldFor(input), y);
            && b.day == c.day == x.day + 1 && b.rate == c.rate
            && c.honor <= b.honor <= top + if BonusDay(input, x.day + 1) then Bonus(top) else 0
  {
    var s := ShieldFor(input);
    OneDay(s, x);
    OneDay(s, y);
    DaysMonotone(s, y, x, 1);
    DaysShrink(s, x, 1);
    BonusMonotone(DayStep(s, x).honor, top);
    hide Days, Keep, NextRate, Exempt, Bonus, ShieldFor;
  }

  /** Capital stays between what decay alone would leave and what k bonuses alone would make of it. */
  predicate Between(a: AxisState, plain: AxisState, b: AxisState, k: nat) {
    b.day == plain.day && b.rate == plain.rate && plain.honor <= b.honor <= TopUps(a.honor, k)
  }

  lemma BetweenNext(input: Input, a: AxisState, y: AxisState, x: AxisState, k: nat)
    requires Between(a, y, x, k)
    ensures Between(a, DayStep(ShieldFor(input), y), Advanced(input, 0, x),
                    k + if BonusDay(input, x.day + 1) then 1 else 0)
  {
    hide DayStep, Advanced, Bonus, BonusDay;
    assert TopUps(a.honor, k + 1) == TopUps(a.honor, k) + Bonus(TopUps(a.honor, k));
    AdvancedBetween(input, x, y, TopUps(a.honor, k));
  }

  /** So it does over any number of days, with k the number of volunteered weeks that end on them. */
  lemma {:induction false} CapitalBetween(input: Input, a: AxisState, n: nat)
    ensures Between(a, Days(ShieldFor(input), a, n), Continued(input, 0, a, n), WeeksEnding(input, a.day, n))
  {
    if n == 0 {
      assert TopUps(a.honor, 0) == a.honor;
    } else {
      hide DayStep, Advanced, Between, BonusDay, ShieldFor, WeeksEnding;
      CapitalBetween(input, a, n - 1);
      DaysDay(ShieldFor(input), a, n - 1);
      WeeksEndingNext(input, a.day, n);
      var x, y := Continued(input, 0, a, n - 1), Days(ShieldFor(input), a, n - 1);
      BetweenDay(a, y, x, WeeksEnding(input, a.day, n - 1));
      BetweenNext(input, a, y, x, WeeksEnding(input, a.day, n - 1));
    }
  }

  lemma BetweenDay(a: AxisState, plain: AxisState, b: AxisState, k: nat)
    requires Between(a, plain, b, k)
    ensures b.day == plain.day
  {
  }

  lemma OneDay(s: Shield, a: AxisState)
    ensures Days(s, a, 1) == DayStep(s, a)
  {
    assert Days(s, a, 0) == a;
  }

  method ApplyVolBonus(mult: nat, weeks: nat) returns (multBp: nat)
    ensures multBp == Credits(mult, weeks)
  {
    multBp := mult;
    for i := 0 to weeks
      invariant multBp == Credits(mult, i)
    {
      multBp := multBp * VOLUNTEER_BONUS_NUM / VOLUNTEER_BONUS_DEN;
    }
  }

  method ComputeVP(honors: Triple, multBp: nat) returns (vp: nat)
    ensures vp == Power(honors[0], honors[1], honors[2], multBp)
  {
    hide Isqrt, IsRoot;
    var rootC := IntSqrt(honors[0]);
    var rootL := IntSqrt(honors[1]);
    var rootV := IntSqrt(honors[2]);
    var base: nat := rootC + LABOR_WEIGHT * rootL + VERIFICATION_WEIGHT * rootV;
    assert base == BasePower(honors[0], honors[1], honors[2]);
    var sqrtFactor := IntSqrt(multBp * BASIS_POINTS);
    hide BasePower;
    vp := base * sqrtFactor / BASIS_POINTS;
  }

  /** The first half of a day: rates grow, and unprotected honor decays. */
  method DecayDay(input: Input, d: nat, honors: Triple, rates: Triple) returns (honors': Triple, rates': Triple)
    requires 1 <= d <= input.days && rates == [rates[0], rates[0], rates[0]]
    ensures rates' == [rates'[0], rates'[0], rates'[0]]
    ensures forall i | 0 <= i < 3 ::
              DayStep(ShieldFor(input), AxisState(honors[i], rates[i], d - 1)) == AxisState(honors'[i], rates'[i], d)
  {
    honors', rates' := honors, rates;
    hide NextRate, IsActiveDay;
    for i := 0 to 3
      invariant forall j | 0 <= j < 3 :: rates'[j] == if j < i then NextRate(rates[0]) else rates[0]
    {
      var grown := rates'[i] * DECAY_GROWTH_NUM / DECAY_GROWTH_DEN;
      NextRateIs(rates'[i], grown);
      rates' := rates'[i := if grown > BASIS_POINTS then BASIS_POINTS else grown];
    }
    var sabbath := d % 7 == input.sabbathOffset;
    var active := IsActiveDay(d, input.activityPct);
    assert Exempt(ShieldFor(input), d) <==> sabbath || active;
    hide Exempt;
    if !(sabbath || active) {
      for i := 0 to 3
        invariant forall j | 0 <= j < 3 ::
                    honors'[j] == if j < i then Keep(honors[j], NextRate(rates[0])) else honors[j]
      {
        if rates'[i] >= BASIS_POINTS {
          honors' := honors'[i := 0];
        } else if honors'[i] > 0 {
          honors' := honors'[i := Undecayed(honors'[i], rates'[i]) / BASIS_POINTS];
        } else {
          KeepZero(rates'[i]);
        }
      }
    }
  }

  lemma NextRateIs(rate: nat, grown: nat)
    requires grown == rate * DECAY_GROWTH_NUM / DECAY_GROWTH_DEN
    ensures NextRate(rate) == if grown > BASIS_POINTS then BASIS_POINTS else grown
  {
  }

  lemma KeepZero(rate: nat)
    requires rate <= BASIS_POINTS
    ensures Keep(0, rate) == 0
  {
  }

  /** One pass of the loop over days. */
  method SimulateDay(input: Input, d: nat, honors: Triple, rates: Triple, mult: nat)
    returns (honors': Triple, rates': Triple, mult': nat)
    requires 1 <= d <= input.days && rates == [rates[0], rates[0], rates[0]]
    ensures rates' == [rates'[0], rates'[0], rates'[0]]
    ensures forall i | 0 <= i < 3 ::
              Advanced(input, i, AxisState(honors[i], rates[i], d - 1)) == AxisState(honors'[i], rates'[i], d)
    ensures mult' == if BonusDay(input, d) then Credit(mult) else mult
  {
    honors', rates' := DecayDay(input, d, honors, rates);
    mult' := mult;
    hide DayStep;
    if input.autoVolunteer && d % 7 == 0 {
      mult' := mult' * VOLUNTEER_BONUS_NUM / VOLUNTEER_BONUS_DEN;
      var capBonus := honors'[0] * VOLUNTEER_CAPITAL_PCT / BASIS_POINTS;
      if capBonus < VOLUNTEER_CAPITAL_MIN {
        capBonus := VOLUNTEER_CAPITAL_MIN;
      }
      honors' := honors'[0 := honors'[0] + capBonus];
    }
  }

  /** What entry d of the series shows. */
  predicate Shown(input: Input, d: nat, honors: Triple, rate: nat, mult: nat, vp: nat) {
    && rate == Rate(d)
    && (forall i | 0 <= i < 3 :: Simulated(input, i, d) == AxisState(honors[i], rate, d))
    && mult == Credits(BASIS_POINTS, VolunteeredWeeks(input, d))
    && vp == Power(honors[0], honors[1], honors[2], mult)
  }

  lemma ShownNext(input: Input, d: nat, honors: Triple, rate: nat, mult: nat, vp: nat,
                  honors': Triple, rate': nat, mult': nat, vp': nat)
    requires d >= 1 && Shown(input, d - 1, honors, rate, mult, vp)
    requires forall i | 0 <= i < 3 ::
               Advanced(input, i, AxisState(honors[i], rate, d - 1)) == AxisState(honors'[i], rate', d)
    requires mult' == if BonusDay(input, d) then Credit(mult) else mult
    requires vp' == Power(honors'[0], honors'[1], honors'[2], mult')
    ensures Shown(input, d, honors', rate', mult', vp')
  {
    hide Power, Credit, Rate, Advanced;
    SimulatedClock(input, 0, d);
    forall i | 0 <= i < 3
      ensures Simulated(input, i, d) == Advanced(input, i, Simulated(input, i, d - 1))
    {
    }
    WeekEnds(d);
  }

  lemma WeekEnds(d: nat)
    requires d >= 1
    ensures d / 7 == (d - 1) / 7 + if d % 7 == 0 then 1 else 0
  {
  }

  /** Every entry of the series shows its day. */
  predicate AllShown(input: Input, s: Series, d: nat) {
    && |s.honor| == |s.rate| == |s.mult| == |s.vp| == d
    && forall e | 0 <= e < d :: Shown(input, e, s.honor[e], s.rate[e], s.mult[e], s.vp[e])
  }

  function Pushed(s: Series, honors: Triple, rate: nat, mult: nat, vp: nat): Series {
    Series(s.honor + [honors], s.rate + [rate], s.mult + [mult], s.vp + [vp])
  }

  lemma PushShown(input: Input, s: Series, d: nat, honors: Triple, rate: nat, mult: nat, vp: nat)
    requires AllShown(input, s, d) && Shown(input, d, honors, rate, mult, vp)
    ensures AllShown(input, Pushed(s, honors, rate, mult, vp), d + 1)
  {
    hide Shown;
  }

  /** What an entry shows of volunteering and voting power, in plain terms. */
  lemma SeriesIs(input: Input, s: Series)
    requires AllShown(input, s, input.days + 1)
    ensures |s.honor| == |s.rate| == |s.mult| == |s.vp| == input.days + 1
    ensures forall d | 0 <= d <= input.days ::
              && s.mult[d] == Credits(10_000, input.initVolWeeks + if input.autoVolunteer then d / 7 else 0)
              && s.vp[d] == Power(s.honor[d][0], s.honor[d][1], s.honor[d][2], s.mult[d])
  {
    hide Power, Credits, Simulated, Rate;
  }

  /** The whole series, day by day. */
  method Simulate(input: Input) returns (s: Series)
    ensures AllShown(input, s, input.days + 1)
  {
    var honors, rates: Triple := input.honors, [BASE_DECAY_BP, BASE_DECAY_BP, BASE_DECAY_BP];
    var multBp := ApplyVolBonus(BASIS_POINTS, input.initVolWeeks);
    var vp := ComputeVP(honors, multBp);
    s := Pushed(Series([], [], [], []), honors, BASE_DECAY_BP, multBp, vp);
    assert Shown(input, 0, honors, BASE_DECAY_BP, multBp, vp);
    for d := 1 to input.days + 1
      invariant rates == [rates[0], rates[0], rates[0]] && Shown(input, d - 1, honors, rates[0], multBp, vp)
      invariant AllShown(input, s, d)
    {
      hide Shown, AllShown, Pushed, Power, Advanced, Credit;
      var honors', rates', mult' := SimulateDay(input, d, honors, rates, multBp);
      var vp' := ComputeVP(honors', mult');
      ShownNext(input, d, honors, rates[0], multBp, vp, honors', rates'[0], mult', vp');
      PushShown(input, s, d, honors', rates'[0], mult', vp');
      honors, rates, multBp, vp := honors', rates', mult', vp';
      s := Pushed(s, honors, rates[0], multBp, vp);
    }
  }
}

/** Lazy settlement in capped calls computes the same as settling every day as it comes. */
module LazyIsEager {
  import opened Constants
  import opened Decay
  import opened Volunteer
  import opened Citizens
  import Simulator

  /** A call that settles the given axis on the given day, adds honor to it, and settles the weeks it completes. */
  datatype Visit = Visit(axis: nat, today: nat, amount: nat)

  function Visited(c: Citizen, active: set<nat>, vol: set<nat>, v: Visit): Citizen
    requires v.axis < 3
  {
    Processed(Earned(Decayed(c, v.axis, active, v.today), v.axis, v.amount), v.axis, vol)
  }

  /** Honor is added to any axis but i. */
  predicate Sparing(visits: seq<Visit>, i: nat) {
    forall v | v in visits :: v.axis < 3 && (v.axis == i ==> v.amount == 0)
  }

  function AllVisited(c: Citizen, active: set<nat>, vol: set<nat>, visits: seq<Visit>): Citizen
    requires forall v | v in visits :: v.axis < 3
  {
    if visits == [] then c
    else Visited(AllVisited(c, active, vol, visits[..|visits| - 1]), active, vol, visits[|visits| - 1])
  }

  lemma VisitedAxis(c: Citizen, active: set<nat>, vol: set<nat>, v: Visit, i: nat)
    requires v.axis < 3 && 0 < i < 3 && (v.axis == i ==> v.amount == 0)
    ensures AxisOf(Visited(c, active, vol, v), i)
         == if v.axis == i then DecayedAxis(c, i, active, v.today) else AxisOf(c, i)
    ensures ShieldOf(Visited(c, active, vol, v), active) == ShieldOf(c, active)
  {
    hide Days, Weeks;
  }

  lemma NextDays(s: Shield, a: AxisState, m: nat, n: nat)
    ensures Days(s, Days(s, a, m), n) == Days(s, a, m + n) && Days(s, a, m + n).day == a.day + m + n
  {
    hide Days;
    DaysCompose(s, a, m, n);
    DaysDay(s, a, m + n);
  }

  /** Axis i has been settled day by day from c to c', and the days exempt are the same. */
  predicate OnCourse(c: Citizen, c': Citizen, active: set<nat>, i: nat)
    requires i < 3
  {
    && c'.lastDay[i] >= c.lastDay[i]
    && AxisOf(c', i) == Days(ShieldOf(c, active), AxisOf(c, i), c'.lastDay[i] - c.lastDay[i])
    && ShieldOf(c', active) == ShieldOf(c, active)
  }

  lemma VisitKeepsCourse(c: Citizen, b: Citizen, active: set<nat>, vol: set<nat>, v: Visit, i: nat)
    requires 0 < i < 3 && v.axis < 3 && (v.axis == i ==> v.amount == 0) && OnCourse(c, b, active, i)
    ensures OnCourse(c, Visited(b, active, vol, v), active, i)
  {
    VisitedAxis(b, active, vol, v, i);
    hide Days, Visited;
    NextDays(ShieldOf(c, active), AxisOf(c, i), b.lastDay[i] - c.lastDay[i], DaysDue(v.today, b.lastDay[i]));
  }

  /**
   Labor and verification honor do not depend on the schedule: whatever calls
   on whatever axes, in whatever order, lead an axis to a day, its honor and
   rate are those of settling all days up to that day at once.
   */
  lemma {:induction false} ScheduleFree(c: Citizen, active: set<nat>, vol: set<nat>, visits: seq<Visit>, i: nat)
    requires 0 < i < 3 && Sparing(visits, i)
    ensures OnCourse(c, AllVisited(c, active, vol, visits), active, i)
  {
    if visits != [] {
      var before, v := visits[..|visits| - 1], visits[|visits| - 1];
      ScheduleFree(c, active, vol, before, i);
      hide OnCourse, Visited;
      VisitKeepsCourse(c, AllVisited(c, active, vol, before), active, vol, v, i);
    }
  }

  function Calls(i: nat, today: nat, k: nat): seq<Visit> {
    seq(k, _ => Visit(i, today, 0))
  }

  lemma CallsNext(i: nat, today: nat, k: nat)
    requires k > 0
    ensures Calls(i, today, k)[..k - 1] == Calls(i, today, k - 1) && Calls(i, today, k)[k - 1] == Visit(i, today, 0)
  {
  }

  /** k calls on the same axis and day advance it by at most 90 days each. */
  lemma {:induction false} CallsAdvance(c: Citizen, active: set<nat>, vol: set<nat>, i: nat, today: nat, k: nat)
    requires 0 < i < 3 && c.lastDay[i] <= today
    ensures var day := AllVisited(c, active, vol, Calls(i, today, k)).lastDay[i];
            day == if c.lastDay[i] + 90 * k <= today then c.lastDay[i] + 90 * k else today
  {
    if k > 0 {
      CallsNext(i, today, k);
      CallsAdvance(c, active, vol, i, today, k - 1);
      var b := AllVisited(c, active, vol, Calls(i, today, k - 1));
      hide Days, Visited, Calls;
      VisitedAxis(b, active, vol, Visit(i, today, 0), i);
      DaysDay(ShieldOf(b, active), AxisOf(b, i), DaysDue(today, b.lastDay[i]));
    }
  }

  /** An axis t days behind is caught up by k calls exactly if k is at least t / 90 rounded up. */
  lemma CatchUp(c: Citizen, active: set<nat>, vol: set<nat>, i: nat, today: nat, k: nat)
    requires 0 < i < 3 && c.lastDay[i] <= today
    ensures AllVisited(c, active, vol, Calls(i, today, k)).lastDay[i] == today
            <==> k >= (today - c.lastDay[i] + 89) / 90
  {
    CallsAdvance(c, active, vol, i, today, k);
  }

  /** Only the distance from the join day matters. */
  lemma {:induction false} DaysShift(s: Shield, t: Shield, a: AxisState, join: nat, n: nat)
    requires s.joinDay == join && t.joinDay == 0 && s.sabbath == t.sabbath
    requires forall d | a.day < d <= a.day + n :: join + d in s.active <==> d in t.active
    ensures var x, y := Days(s, a.(day := join + a.day), n), Days(t, a, n);
            x == y.(day := join + y.day)
  {
    if n > 0 {
      DaysShift(s, t, a, join, n - 1);
      DaysDay(t, a, n - 1);
      assert Exempt(s, join + (a.day + n)) <==> Exempt(t, a.day + n);
    }
  }

  /** The simulated citizen keeps the same sabbaths and active days as the real one, after day k and up to day k + n. */
  predicate SameDays(input: Simulator.Input, s: Shield, k: nat, n: nat) {
    && input.sabbathOffset == s.sabbath && k + n <= input.days
    && forall d | k < d <= k + n :: s.joinDay + d in s.active <==> Simulator.IsActiveDay(d, input.activityPct)
  }

  /** The real state is the simulated one, counting days from the join day. */
  predicate Matches(actual: AxisState, joinDay: nat, simulated: AxisState) {
    actual == simulated.(day := joinDay + simulated.day)
  }

  /** Settling n days from day k after joining is continuing the simulation for n days from there. */
  lemma DaysMatch(input: Simulator.Input, i: nat, s: Shield, a: AxisState, k: nat, n: nat)
    requires 0 < i && a.day == s.joinDay + k && SameDays(input, s, k, n)
    ensures Matches(Days(s, a, n), s.joinDay, Simulator.Continued(input, i, a.(day := k), n))
  {
    Simulator.ContinuedIsDays(input, i, a.(day := k), n);
    hide Simulator.IsActiveDay, Days, Simulator.Continued;
    DaysShift(s, Simulator.ShieldFor(input), a.(day := k), s.joinDay, n);
  }

  /** If the simulation agreed with the axis on day k, it still does on day k + n. */
  lemma DaysMatchSimulation(input: Simulator.Input, i: nat, s: Shield, a: AxisState, k: nat, n: nat)
    requires 0 < i < 3 && SameDays(input, s, k, n) && Matches(a, s.joinDay, Simulator.Simulated(input, i, k))
    ensures Matches(Days(s, a, n), s.joinDay, Simulator.Simulated(input, i, k + n))
  {
    Simulator.SimulatedClock(input, i, k);
    DaysMatch(input, i, s, a, k, n);
    hide Days, SameDays;
    Simulator.ContinuedCompose(input, i, AxisState(input.honors[i], BASE_DECAY_BP, 0), k, n);
  }

  /**
   Any schedule takes an axis where continuing the simulation from its present
   state takes it; and if the simulation agreed with it so far, it still does.
   */
  lemma LazyEqualsEager(c: Citizen, active: set<nat>, vol: set<nat>, visits: seq<Visit>, i: nat,
                        input: Simulator.Input, k: nat, n: nat)
    requires 0 < i < 3 && Sparing(visits, i) && c.lastDay[i] == c.joinDay + k
    requires AllVisited(c, active, vol, visits).lastDay[i] == c.lastDay[i] + n
    requires SameDays(input, ShieldOf(c, active), k, n)
    ensures var a, a' := AxisOf(c, i), AxisOf(AllVisited(c, active, vol, visits), i);
            && Matches(a', c.joinDay, Simulator.Continued(input, i, a.(day := k), n))
            && (Matches(a, c.joinDay, Simulator.Simulated(input, i, k)) ==>
                  Matches(a', c.joinDay, Simulator.Simulated(input, i, k + n)))
  {
    ScheduleFree(c, active, vol, visits, i);
    hide AllVisited, SameDays, Days, Simulator.Continued, Simulator.Simulated, Matches;
    CourseMatches(ShieldOf(c, active), AxisOf(c, i), i, input, k, n);
  }

  lemma CourseMatches(s: Shield, a: AxisState, i: nat, input: Simulator.Input, k: nat, n: nat)
    requires 0 < i < 3 && a.day == s.joinDay + k && SameDays(input, s, k, n)
    ensures Matches(Days(s, a, n), s.joinDay, Simulator.Continued(input, i, a.(day := k), n))
    ensures Matches(a, s.joinDay, Simulator.Simulated(input, i, k)) ==>
              Matches(Days(s, a, n), s.joinDay, Simulator.Simulated(input, i, k + n))
  {
    hide SameDays, Days, Simulator.Continued, Simulator.Simulated, Matches;
    DaysMatch(input, i, s, a, k, n);
    if Matches(a, s.joinDay, Simulator.Simulated(input, i, k)) {
      DaysMatchSimulation(input, i, s, a, k, n);
    }
  }
}
