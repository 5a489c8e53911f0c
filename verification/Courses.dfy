/** How an axis moves through a run: settled day by day, with honor added on the way. */
module Courses {
  import opened Constants
  import opened Decay
  import opened Volunteer
  import opened Citizens
  import opened LazyIsEager
  import opened Survival
  import Simulator

  /** From a to b the days in between were settled, and then honor was added. */
  predicate Moved(s: Shield, a: AxisState, b: AxisState, gain: nat) {
    b.day >= a.day && var d := Days(s, a, b.day - a.day); b == d.(honor := d.honor + gain)
  }

  /** What was added, where the axis moved so. */
  function GainOf(s: Shield, a: AxisState, b: AxisState): nat {
    if b.day >= a.day && b.honor >= Days(s, a, b.day - a.day).honor
    then b.honor - Days(s, a, b.day - a.day).honor
    else 0
  }

  lemma GainIs(s: Shield, a: AxisState, b: AxisState, gain: nat)
    requires Moved(s, a, b, gain)
    ensures GainOf(s, a, b) == gain
  {
    hide Days;
  }

  lemma NotMoved(s: Shield, a: AxisState)
    ensures Moved(s, a, a, 0)
  {
  }

  /** The shield t exempts at least the days that s exempts. */
  predicate Covers(t: Shield, s: Shield) {
    t.joinDay == s.joinDay && t.sabbath == s.sabbath && s.active <= t.active
  }

  lemma CoversExempt(t: Shield, s: Shield, d: nat)
    requires Covers(t, s) && Exempt(s, d)
    ensures Exempt(t, d)
  {
  }

  // ---------- settlement of one record ----------

  lemma TopUpsAtLeast(x: nat, k: nat)
    ensures TopUps(x, k) >= x
  {
    TopUpsGrow(x, 0, k);
  }

  /** Processing weeks leaves every axis alone, except that it may top up capital. */
  lemma ProcessedAxes(c: Citizen, j: nat, vol: set<nat>, i: nat)
    requires i < 3 && j < 3
    ensures var c' := Processed(c, j, vol);
            && c'.honor[i] >= c.honor[i] && (i > 0 ==> c'.honor[i] == c.honor[i])
            && c'.rate == c.rate && c'.lastDay == c.lastDay && c'.joinDay == c.joinDay && c'.sabbath == c.sabbath
            && c'.isCitizen == c.isCitizen
  {
    var n := WeeksDue(c.lastDay[j], c.lastWeek);
    WeeksCredit(vol, WeekStateOf(c), n);
    TopUpsAtLeast(c.honor[0], |QualifiedAfter(vol, c.lastWeek, n)|);
    hide Weeks, TopUps, QualifiedAfter;
  }

  /** Settling one axis moves it by the days due, and leaves the others where they are. */
  lemma DecayedAxes(c: Citizen, j: nat, active: set<nat>, today: nat, i: nat)
    requires i < 3 && j < 3
    ensures var c' := Decayed(c, j, active, today);
            && Moved(ShieldOf(c, active), AxisOf(c, i), AxisOf(c', i), 0)
            && c'.joinDay == c.joinDay && c'.sabbath == c.sabbath && c'.isCitizen == c.isCitizen
  {
    DaysDay(ShieldOf(c, active), AxisOf(c, i), DaysDue(today, c.lastDay[i]));
    assert Days(ShieldOf(c, active), AxisOf(c, i), 0) == AxisOf(c, i);
    hide Days;
  }

  /** Honor added after the move is a gain. */
  lemma MovedMore(s: Shield, a: AxisState, b: AxisState, c: AxisState, gain: nat)
    requires Moved(s, a, b, gain) && c.day == b.day && c.rate == b.rate && c.honor >= b.honor
    ensures Moved(s, a, c, gain + (c.honor - b.honor))
  {
    hide Days;
  }

  function Gained(c: Citizen, c': Citizen, active: set<nat>, i: nat): nat
    requires i < 3
  {
    GainOf(ShieldOf(c, active), AxisOf(c, i), AxisOf(c', i))
  }

  /** The same citizenship with the same sabbath; on axis i days were settled and honor may have been added. */
  predicate Drifted(c: Citizen, c': Citizen, active: set<nat>, i: nat)
    requires i < 3
  {
    && c'.joinDay == c.joinDay && c'.sabbath == c.sabbath && c'.isCitizen == c.isCitizen
    && Moved(ShieldOf(c, active), AxisOf(c, i), AxisOf(c', i), Gained(c, c', active, i))
  }

  lemma NotDrifted(c: Citizen, c': Citizen, active: set<nat>, i: nat)
    requires i < 3 && c'.joinDay == c.joinDay && c'.sabbath == c.sabbath && c'.isCitizen == c.isCitizen
    requires AxisOf(c', i) == AxisOf(c, i)
    ensures Drifted(c, c', active, i) && Gained(c, c', active, i) == 0
  {
    NotMoved(ShieldOf(c, active), AxisOf(c, i));
    GainIs(ShieldOf(c, active), AxisOf(c, i), AxisOf(c', i), 0);
    hide Moved, GainOf;
  }

  /** A drift of the axis, with more honor added. */
  lemma DriftedMore(c: Citizen, d: Citizen, c': Citizen, active: set<nat>, i: nat)
    requires i < 3 && c'.joinDay == d.joinDay == c.joinDay && c'.sabbath == d.sabbath == c.sabbath
    requires c'.isCitizen == d.isCitizen == c.isCitizen
    requires Moved(ShieldOf(c, active), AxisOf(c, i), AxisOf(d, i), 0)
    requires c'.lastDay[i] == d.lastDay[i] && c'.rate[i] == d.rate[i] && c'.honor[i] >= d.honor[i]
    ensures Drifted(c, c', active, i) && Gained(c, c', active, i) == c'.honor[i] - d.honor[i]
  {
    hide Moved, GainOf;
    MovedMore(ShieldOf(c, active), AxisOf(c, i), AxisOf(d, i), AxisOf(c', i), 0);
    GainIs(ShieldOf(c, active), AxisOf(c, i), AxisOf(c', i), c'.honor[i] - d.honor[i]);
  }

  lemma LockingDrifts(c: Citizen, c': Citizen, locked: nat, active: set<nat>, i: nat)
    requires i < 3 && Drifted(c, c', active, i)
    ensures Drifted(c, c'.(locked := locked), active, i)
    ensures Gained(c, c'.(locked := locked), active, i) == Gained(c, c', active, i)
  {
    hide Moved, GainOf;
  }

  /** Settling axis j with an amount drifts axis i, if the amount is added before the weeks ... */
  lemma AddedBeforeWeeksDrifts(c: Citizen, j: nat, amount: nat, active: set<nat>, vol: set<nat>, today: nat, i: nat)
    requires i < 3 && j < 3
    ensures var c' := Processed(Earned(Decayed(c, j, active, today), j, amount), j, vol);
            Drifted(c, c', active, i) && (i > 0 ==> Gained(c, c', active, i) == if i == j then amount else 0)
  {
    var d := Decayed(c, j, active, today);
    DecayedAxes(c, j, active, today, i);
    ProcessedAxes(Earned(d, j, amount), j, vol, i);
    hide Decayed, Processed, Moved, Drifted, Gained;
    DriftedMore(c, d, Processed(Earned(d, j, amount), j, vol), active, i);
  }

  /** ... and if it is added after them. */
  lemma AddedAfterWeeksDrifts(c: Citizen, j: nat, amount: nat, active: set<nat>, vol: set<nat>, today: nat, i: nat)
    requires i < 3 && j < 3
    ensures var c' := Earned(Processed(Decayed(c, j, active, today), j, vol), j, amount);
            Drifted(c, c', active, i) && (i > 0 ==> Gained(c, c', active, i) == if i == j then amount else 0)
  {
    var d := Decayed(c, j, active, today);
    DecayedAxes(c, j, active, today, i);
    ProcessedAxes(d, j, vol, i);
    hide Decayed, Processed, Moved, Drifted, Gained;
    DriftedMore(c, d, Earned(Processed(d, j, vol), j, amount), active, i);
  }

  // ---------- what is left of the honor ----------

  /** Of an original honor h0, at most (98.99%)^u is left in h beside the gains. */
  predicate Remains(h0: nat, gains: nat, h: nat, u: nat) {
    h * Pow(10_000, u) <= gains * Pow(10_000, u) + h0 * Pow(9_899, u)
  }

  lemma {:induction false} PowAdd(b: nat, m: nat, n: nat)
    ensures Pow(b, m + n) == Pow(b, m) * Pow(b, n)
  {
    if n > 0 {
      PowAdd(b, m, n - 1);
      MulSwap(b, Pow(b, m), Pow(b, n - 1));
      MulAssoc(b, Pow(b, m), Pow(b, n - 1));
    }
  }

  lemma {:induction false} PowLe(n: nat)
    ensures Pow(9_899, n) <= Pow(10_000, n)
  {
    if n > 0 {
      PowLe(n - 1);
    }
  }

  lemma Distribute(x: nat, y: nat, z: nat)
    ensures (x + y) * z == x * z + y * z
  {
  }

  lemma SwapFactors(x: nat, y: nat, z: nat)
    ensures (x * y) * z == (x * z) * y
  {
  }

  /** The step of the bound, over plain numbers. */
  lemma RemainsStep(h: nat, gains: nat, h0: nat, p1: nat, q1: nat, d: nat, g: nat, p2: nat, q2: nat)
    requires h * p1 <= gains * p1 + h0 * q1 && d * p2 <= h * q2 && q2 <= p2
    ensures (d + g) * (p1 * p2) <= (gains + g) * (p1 * p2) + h0 * (q1 * q2)
  {
    assert d * (p1 * p2) <= gains * (p1 * p2) + h0 * (q1 * q2) by {
      MulAssoc(d, p1, p2);
      SwapFactors(d, p1, p2);
      MulLe(d * p2, h * q2, p1);
      SwapFactors(h, q2, p1);
      MulLe(h * p1, gains * p1 + h0 * q1, q2);
      Distribute(gains * p1, h0 * q1, q2);
      MulAssoc(h0, q1, q2);
      MulAssoc(gains, p1, p2);
      MulLe(q2, p2, gains * p1);
      Chain(d * (p1 * p2), (d * p2) * p1, (h * q2) * p1, (gains * p1 + h0 * q1) * q2, (gains * p1) * q2, h0 * (q1 * q2),
            gains * (p1 * p2));
    }
    Distribute(d, g, p1 * p2);
    Distribute(gains, g, p1 * p2);
  }

  lemma Chain(a: nat, b: nat, c: nat, d: nat, e: nat, f: nat, g: nat)
    requires a == b <= c <= d == e + f && e <= g
    ensures a <= g + f
  {
  }

  /** A move keeps the bound, over the days that even the wider shield t leaves unprotected. */
  lemma MoveRemains(h0: nat, gains: nat, u: nat, s: Shield, t: Shield, a: AxisState, b: AxisState, gain: nat)
    requires Remains(h0, gains, a.honor, u) && b.day >= a.day && Moved(s, a, b, gain)
    requires Covers(t, s) && BASE_DECAY_BP <= a.rate
    ensures Remains(h0, gains + gain, b.honor, u + Unprotected(t, a.day, b.day - a.day))
    ensures BASE_DECAY_BP <= b.rate
  {
    var n := b.day - a.day;
    forall d | a.day < d <= a.day + n && Exempt(s, d)
      ensures Exempt(t, d)
    {
      CoversExempt(t, s, d);
    }
    hide Exempt, Days, Unprotected, Pow, Covers;
    UnprotectedDaysDecay(s, t, a, n);
    var v := Unprotected(t, a.day, n);
    PowAdd(10_000, u, v);
    PowAdd(9_899, u, v);
    PowLe(v);
    RemainsStep(a.honor, gains, h0, Pow(10_000, u), Pow(9_899, u), Days(s, a, n).honor, gain,
                Pow(10_000, v), Pow(9_899, v));
  }

  lemma SameExemptions(s: Shield, t: Shield, d: nat)
    requires Covers(t, s) && (d in t.active ==> d in s.active)
    ensures Exempt(s, d) <==> Exempt(t, d)
  {
  }

  /** Where nothing was added, and t exempts no more of the days in question than s, the move settles days under t. */
  lemma MoveIsDays(s: Shield, t: Shield, a: AxisState, b: AxisState, c: AxisState)
    requires b.day >= a.day && b == Days(t, a, b.day - a.day) && Moved(s, b, c, 0) && Covers(t, s)
    requires forall d | b.day < d <= c.day && d in t.active :: d in s.active
    ensures c == Days(t, a, c.day - a.day)
  {
    hide Days, Exempt;
    forall d | b.day < d <= c.day
      ensures Exempt(s, d) <==> Exempt(t, d)
    {
      SameExemptions(s, t, d);
    }
    hide Covers;
    DaysAgree(s, t, b, c.day - b.day);
    DaysCompose(t, a, b.day - a.day, c.day - b.day);
  }

  // ---------- one record over a run ----------

  /** From c to c' axis i has decayed, on all days that t leaves unprotected, apart from the gains. */
  predicate Worn(c: Citizen, c': Citizen, i: nat, gains: nat, t: Shield)
    requires i < 3
  {
    && c'.joinDay == c.joinDay && c'.sabbath == c.sabbath
    && c'.lastDay[i] >= c.lastDay[i] && c'.rate[i] >= BASE_DECAY_BP
    && Remains(c.honor[i], gains, c'.honor[i], Unprotected(t, c.lastDay[i], c'.lastDay[i] - c.lastDay[i]))
  }

  /** From c to c' axis i has been settled day by day under t, and nothing else. */
  predicate OnlySettled(c: Citizen, c': Citizen, i: nat, t: Shield)
    requires i < 3
  {
    && c'.joinDay == c.joinDay && c'.sabbath == c.sabbath
    && c'.lastDay[i] >= c.lastDay[i]
    && AxisOf(c', i) == Days(t, AxisOf(c, i), c'.lastDay[i] - c.lastDay[i])
  }

  /** The record between the ends of a run that settles axis i under t and adds nothing. */
  predicate SettledUntil(c: Citizen, c': Citizen, i: nat, t: Shield, last: nat)
    requires i < 3
  {
    && c'.isCitizen == c.isCitizen && c'.joinDay == c.joinDay && c'.sabbath == c.sabbath
    && c'.lastDay[i] >= c.lastDay[i]
    && (c'.lastDay[i] <= last ==> OnlySettled(c, c', i, t))
  }

  lemma WornStart(c: Citizen, i: nat, t: Shield)
    requires i < 3 && c.rate[i] >= BASE_DECAY_BP
    ensures Worn(c, c, i, 0, t)
  {
  }

  lemma WornNext(c0: Citizen, c: Citizen, c': Citizen, i: nat, gains: nat, active: set<nat>, t: Shield)
    requires i < 3 && Worn(c0, c, i, gains, t) && Drifted(c, c', active, i) && Covers(t, ShieldOf(c, active))
    ensures Worn(c0, c', i, gains + Gained(c, c', active, i), t)
  {
    assert c'.lastDay[i] >= c.lastDay[i];
    hide Remains, Covers, Moved, GainOf, Gained, Unprotected;
    var m, n := c.lastDay[i] - c0.lastDay[i], c'.lastDay[i] - c.lastDay[i];
    UnprotectedSplit(t, c0.lastDay[i], m, n);
    MoveRemains(c0.honor[i], gains, Unprotected(t, c0.lastDay[i], m), ShieldOf(c, active), t,
                AxisOf(c, i), AxisOf(c', i), Gained(c, c', active, i));
  }

  lemma OnlySettledNext(c0: Citizen, c: Citizen, c': Citizen, i: nat, active: set<nat>, t: Shield)
    requires i < 3 && OnlySettled(c0, c, i, t) && Drifted(c, c', active, i) && Gained(c, c', active, i) == 0
    requires Covers(t, ShieldOf(c, active))
    requires forall d | c.lastDay[i] < d <= c'.lastDay[i] && d in t.active :: d in active
    ensures OnlySettled(c0, c', i, t)
  {
    assert c'.lastDay[i] >= c.lastDay[i];
    hide Days, Covers, GainOf, Gained;
    MoveIsDays(ShieldOf(c, active), t, AxisOf(c0, i), AxisOf(c, i), AxisOf(c', i));
  }

  /** Over 7k days with no active day among them. */
  lemma WornWeeks(c: Citizen, c': Citizen, i: nat, gains: nat, t: Shield, k: nat)
    requires i < 3 && Worn(c, c', i, gains, t) && c'.lastDay[i] == c.lastDay[i] + 7 * k && t.sabbath < 7
    requires forall d | c.lastDay[i] < d <= c.lastDay[i] + 7 * k :: d !in t.active
    ensures Remains(c.honor[i], gains, c'.honor[i], 6 * k)
  {
    hide Remains, Unprotected;
    SixInSeven(t, c.lastDay[i], k);
  }

  /** What the simulation says of an axis on which days were settled and nothing else happened. */
  lemma OnlySettledMatches(c: Citizen, c': Citizen, i: nat, t: Shield, input: Simulator.Input, k: nat, n: nat)
    requires 0 < i < 3 && OnlySettled(c, c', i, t) && t.joinDay == c.joinDay
    requires c.lastDay[i] == c.joinDay + k && c'.lastDay[i] == c.lastDay[i] + n && SameDays(input, t, k, n)
    ensures FollowsSimulation(c, c', i, input, k, n)
  {
    hide SameDays, Matches, Days, Simulator.Continued, Simulator.Simulated;
    CourseMatches(t, AxisOf(c, i), i, input, k, n);
  }

  /**
   Axis i of c' is where continuing the simulation from c for n days leads; and
   if the simulation agreed with c on day k, it agrees with c' on day k + n.
   */
  predicate FollowsSimulation(c: Citizen, c': Citizen, i: nat, input: Simulator.Input, k: nat, n: nat)
    requires i < 3
  {
    var a, a' := AxisOf(c, i), AxisOf(c', i);
    && Matches(a', c.joinDay, Simulator.Continued(input, i, a.(day := k), n))
    && (Matches(a, c.joinDay, Simulator.Simulated(input, i, k)) ==>
          Matches(a', c.joinDay, Simulator.Simulated(input, i, k + n)))
  }

  // ---------- one record over a run in which the sabbath may move ----------

  /** The same citizenship; on axis i days were settled under the sabbath of the time, and honor may have been added. */
  predicate Carried(c: Citizen, c': Citizen, active: set<nat>, i: nat)
    requires i < 3
  {
    && c'.joinDay == c.joinDay && c'.isCitizen == c.isCitizen
    && Moved(ShieldOf(c, active), AxisOf(c, i), AxisOf(c', i), Gained(c, c', active, i))
  }

  lemma SabbathCarried(c: Citizen, offset: nat, active: set<nat>, i: nat)
    requires i < 3
    ensures Carried(c, c.(sabbath := offset), active, i) && Gained(c, c.(sabbath := offset), active, i) == 0
  {
    NotMoved(ShieldOf(c, active), AxisOf(c, i));
    GainIs(ShieldOf(c, active), AxisOf(c, i), AxisOf(c, i), 0);
    hide Moved, GainOf;
  }

  /** How many of the days settled from c to c' were unprotected under the sabbath and the flags of the time. */
  function DaysWorn(c: Citizen, c': Citizen, active: set<nat>, i: nat): nat
    requires i < 3
  {
    if c'.lastDay[i] < c.lastDay[i] then 0
    else Unprotected(ShieldOf(c, active), c.lastDay[i], c'.lastDay[i] - c.lastDay[i])
  }

  /** From c to c' axis i has lost at least 1.01% on each of u days, apart from the gains. */
  predicate WornBy(c: Citizen, c': Citizen, i: nat, gains: nat, u: nat)
    requires i < 3
  {
    c'.rate[i] >= BASE_DECAY_BP && Remains(c.honor[i], gains, c'.honor[i], u)
  }

  lemma WornByStart(c: Citizen, i: nat)
    requires i < 3 && c.rate[i] >= BASE_DECAY_BP
    ensures WornBy(c, c, i, 0, 0)
  {
  }

  lemma WornByNext(c0: Citizen, c: Citizen, c': Citizen, i: nat, gains: nat, u: nat, active: set<nat>)
    requires i < 3 && WornBy(c0, c, i, gains, u) && Carried(c, c', active, i)
    ensures WornBy(c0, c', i, gains + Gained(c, c', active, i), u + DaysWorn(c, c', active, i))
  {
    var s := ShieldOf(c, active);
    assert c'.lastDay[i] >= c.lastDay[i] && Covers(s, s);
    hide Remains, Covers, Moved, GainOf, Gained, Unprotected;
    MoveRemains(c0.honor[i], gains, u, s, s, AxisOf(c, i), AxisOf(c', i), Gained(c, c', active, i));
  }

  /** From c to c' axis i has kept, on each of u days, all but the share of a rate of at most r. */
  predicate KeptBy(c: Citizen, c': Citizen, i: nat, u: nat, r: nat)
    requires i < 3 && r < 10_000
  {
    c'.rate[i] <= r ==> Survives(c.honor[i], c'.honor[i], u, r)
  }

  lemma KeptByStart(c: Citizen, i: nat, r: nat)
    requires i < 3 && r < 10_000
    ensures KeptBy(c, c, i, 0, r)
  {
    SurvivesStart(c.honor[i], r);
  }

  lemma KeptByNext(c0: Citizen, c: Citizen, c': Citizen, i: nat, u: nat, r: nat, active: set<nat>)
    requires i < 3 && r < 10_000 && KeptBy(c0, c, i, u, r) && Carried(c, c', active, i)
    ensures KeptBy(c0, c', i, u + DaysWorn(c, c', active, i), r)
  {
    hide Survives, Unprotected, GainOf, Gained, Days;
    if c'.rate[i] <= r {
      var s, a, n := ShieldOf(c, active), AxisOf(c, i), c'.lastDay[i] - c.lastDay[i];
      RateNeverFell(s, a, n);
      DaysSurvive(s, a, n, r, c0.honor[i], u);
      SurvivesMore(c0.honor[i], Days(s, a, n).honor, Gained(c, c', active, i), u + Unprotected(s, a.day, n), r);
    }
  }
}
