/** What holds of a citizen's record at any time, and why every operation keeps it. */
module Records {
  import opened Constants
  import opened Types
  import opened Decay
  import opened Volunteer
  import opened Citizens

  /** The last week all of whose days are settled, once the days up to the given one are. */
  function FullWeek(day: nat): nat {
    if day >= 6 then (day - 6) / 7 else 0
  }

  function Max(a: nat, b: nat): nat {
    if a >= b then a else b
  }

  function LatestFullWeek(c: Citizen): nat {
    Max(c.joinDay / 7, Max(FullWeek(c.lastDay[0]), Max(FullWeek(c.lastDay[1]), FullWeek(c.lastDay[2]))))
  }

  /** No axis is settled past today, and its stored rate is the rate of its last settled day. */
  predicate ClockSound(c: Citizen, today: nat) {
    forall i | 0 <= i < 3 :: c.joinDay <= c.lastDay[i] <= today && c.rate[i] == Rate(c.lastDay[i] - c.joinDay)
  }

  /** The processed weeks of the present citizenship in which a volunteer day was attested in time. */
  function TimelyWeeks(c: Citizen, timely: set<nat>): seq<nat>
    requires c.joinDay / 7 <= c.lastWeek
  {
    QualifiedAfter(timely, c.joinDay / 7, c.lastWeek - c.joinDay / 7)
  }

  /** Exactly those weeks have been credited, each once. */
  predicate WeeksSound(c: Citizen, timely: set<nat>) {
    && c.lastWeek == LatestFullWeek(c)
    && c.weeks == |TimelyWeeks(c, timely)|
    && c.mult == Credits(BASIS_POINTS, c.weeks)
  }

  /** Stored flags that can still matter were all set during the present citizenship. */
  ghost predicate FlagsFresh(c: Citizen, active: set<nat>, vol: set<nat>, since: set<nat>, timely: set<nat>) {
    && (forall d: nat | d > c.joinDay :: d in active <==> d in since)
    && (forall d: nat | d / 7 > c.lastWeek :: d in vol <==> d in timely)
  }

  ghost predicate Sound(c: Citizen, today: nat, active: set<nat>, vol: set<nat>, since: set<nat>, timely: set<nat>) {
    && c.isCitizen && c.sabbath < 7
    && ClockSound(c, today)
    && WeeksSound(c, timely)
    && FlagsFresh(c, active, vol, since, timely)
  }

  // ---------- settlement ----------

  lemma DecayKeepsClock(c: Citizen, i: nat, active: set<nat>, today: nat)
    requires i < 3 && ClockSound(c, today)
    ensures var c' := Decayed(c, i, active, today);
            && ClockSound(c', today) && c'.lastDay[i] >= c.lastDay[i]
            && forall j | 0 <= j < 3 && j != i :: c'.lastDay[j] == c.lastDay[j]
  {
    var s, a, n := ShieldOf(c, active), AxisOf(c, i), DaysDue(today, c.lastDay[i]);
    DaysDay(s, a, n);
    DaysRate(s, a, c.lastDay[i] - c.joinDay, n);
    hide Rate, Days;
  }

  lemma LatestAdvances(c: Citizen, c': Citizen, i: nat)
    requires i < 3 && c.lastWeek == LatestFullWeek(c) && c'.joinDay == c.joinDay
    requires c'.lastDay[i] >= c.lastDay[i] && forall j | 0 <= j < 3 && j != i :: c'.lastDay[j] == c.lastDay[j]
    ensures LatestFullWeek(c') == c.lastWeek + WeeksDue(c'.lastDay[i], c.lastWeek)
  {
  }

  /** Processing weeks after axis i has been settled further brings the week count up to date. */
  lemma ProcessKeepsWeeks(c: Citizen, c': Citizen, i: nat, vol: set<nat>, timely: set<nat>)
    requires i < 3 && WeeksSound(c, timely)
    requires c'.joinDay == c.joinDay && c'.weeks == c.weeks && c'.mult == c.mult && c'.lastWeek == c.lastWeek
    requires c'.lastDay[i] >= c.lastDay[i] && forall j | 0 <= j < 3 && j != i :: c'.lastDay[j] == c.lastDay[j]
    requires forall d: nat | d / 7 > c.lastWeek :: d in vol <==> d in timely
    ensures WeeksSound(Processed(c', i, vol), timely)
    ensures Processed(c', i, vol).lastWeek >= c.lastWeek
  {
    LatestAdvances(c, c', i);
    var join, last, n := c.joinDay / 7, c.lastWeek, WeeksDue(c'.lastDay[i], c.lastWeek);
    QualifiedAfterAgree(vol, timely, last, n);
    hide QualifiedAfter, Credits, Weeks, TopUps, FullWeek, WeeksDue, Max;
    WeeksCredit(vol, WeekStateOf(c'), n);
    QualifiedAfterSplit(timely, join, last - join, n);
    CreditsCompose(BASIS_POINTS, c.weeks, |QualifiedAfter(vol, last, n)|);
  }

  lemma SettleKeepsSound(c: Citizen, i: nat, amount: nat, today: nat,
                         active: set<nat>, vol: set<nat>, since: set<nat>, timely: set<nat>)
    requires i < 3 && Sound(c, today, active, vol, since, timely)
    ensures Sound(Processed(Earned(Decayed(c, i, active, today), i, amount), i, vol), today, active, vol, since, timely)
  {
    hide Weeks, LatestFullWeek, Credits, Rate, Days, QualifiedAfter, TimelyWeeks;
    DecayKeepsClock(c, i, active, today);
    ProcessKeepsWeeks(c, Earned(Decayed(c, i, active, today), i, amount), i, vol, timely);
  }

  /** Flags left over from an earlier citizenship play no part in settling the present one. */
  lemma StaleFlagsIgnored(c: Citizen, i: nat, amount: nat, today: nat, today': nat,
                          active: set<nat>, vol: set<nat>, since: set<nat>, timely: set<nat>)
    requires i < 3 && Sound(c, today, active, vol, since, timely)
    ensures Processed(Earned(Decayed(c, i, active, today'), i, amount), i, vol)
         == Processed(Earned(Decayed(c, i, since, today'), i, amount), i, timely)
  {
    DaysAgree(ShieldOf(c, active), ShieldOf(c, since), AxisOf(c, i), DaysDue(today', c.lastDay[i]));
    assert Decayed(c, i, active, today') == Decayed(c, i, since, today');
    var c' := Earned(Decayed(c, i, since, today'), i, amount);
    var n := WeeksDue(c'.lastDay[i], c.lastWeek);
    QualifiedAfterAgree(vol, timely, c.lastWeek, n);
    hide QualifiedAfter, Weeks, Days, Rate, Credits, TopUps;
    WeeksCredit(vol, WeekStateOf(c'), n);
    WeeksCredit(timely, WeekStateOf(c'), n);
  }

  // ---------- the other operations ----------

  lemma NewbornSound(today: nat, active: set<nat>, vol: set<nat>)
    requires forall d | d in active || d in vol :: d <= today
    ensures Sound(Newborn(today), today, active, vol, {}, {})
  {
  }

  /** A day may be marked at any time from the join day on, even if its week is already processed. */
  lemma MarkKeepsSound(c: Citizen, today: nat, active: set<nat>, vol: set<nat>, since: set<nat>, timely: set<nat>,
                       day: nat, activeMet: bool, volunteerMet: bool)
    requires Sound(c, today, active, vol, since, timely) && day <= today
    ensures Sound(c, today,
                  if activeMet then active + {day} else active,
                  if volunteerMet then vol + {day} else vol,
                  if activeMet then since + {day} else since,
                  if volunteerMet && day / 7 > c.lastWeek then timely + {day} else timely)
  {
    if volunteerMet && day / 7 > c.lastWeek {
      QualifiedAfterAgree(timely, timely + {day}, c.joinDay / 7, c.lastWeek - c.joinDay / 7);
    }
    hide Credits, QualifiedAfter, Rate;
  }

  /**
   Every credited week lies after the joining week, and all seven of its days
   have been settled on some axis; the last of them may be the present day.
   */
  lemma CreditedWeeksSettled(c: Citizen, today: nat,
                              active: set<nat>, vol: set<nat>, since: set<nat>, timely: set<nat>)
    requires Sound(c, today, active, vol, since, timely)
    ensures forall w | w in TimelyWeeks(c, timely) ::
              w > c.joinDay / 7 && Qualified(timely, w) && 7 * w + 6 <= today
              && exists i | 0 <= i < 3 :: 7 * w + 6 <= c.lastDay[i]
    ensures forall w: nat | c.joinDay / 7 < w <= c.lastWeek && Qualified(timely, w) :: w in TimelyWeeks(c, timely)
    ensures forall i, j | 0 <= i < j < c.weeks :: TimelyWeeks(c, timely)[i] < TimelyWeeks(c, timely)[j]
  {
    QualifiedAfterMembers(timely, c.joinDay / 7, c.lastWeek - c.joinDay / 7);
    hide QualifiedAfter, Credits, Rate, Qualified;
    forall w | w in TimelyWeeks(c, timely)
      ensures exists i | 0 <= i < 3 :: 7 * w + 6 <= c.lastDay[i]
    {
      assert 7 * w + 6 <= c.lastDay[0] || 7 * w + 6 <= c.lastDay[1] || 7 * w + 6 <= c.lastDay[2];
    }
  }

  /** A week after the joining week is unprocessed exactly if no axis has been settled through its last day. */
  lemma OpenWeek(c: Citizen, week: nat)
    requires c.lastWeek == LatestFullWeek(c) && week > c.joinDay / 7
    ensures week > c.lastWeek <==> forall i | 0 <= i < 3 :: c.lastDay[i] < 7 * week + 6
  {
    var last := 7 * week + 6;
    assert week > c.lastWeek <==> c.lastDay[0] < last && c.lastDay[1] < last && c.lastDay[2] < last;
  }
}
