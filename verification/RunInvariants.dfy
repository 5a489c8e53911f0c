/** What holds of every citizen in every state the CosmWasm contract can reach. */
module RunInvariants {
  import opened Types
  import opened Decay
  import opened Volunteer
  import opened Citizens
  import opened Cosmwasm
  import opened Runs
  import opened Records

  /** Every citizen has passed the PoP gate and has a sound record. */
  ghost predicate CitizenSound(w: World, a: Addr) {
    a in w.ledger.citizens ==>
      && a in w.ledger.pop
      && Sound(w.ledger.citizens[a], Today(w.now), DaysOf(w.ledger.active, a), DaysOf(w.ledger.volunteer, a),
               DaysOf(w.since, a), DaysOf(w.timely, a))
  }

  /** No stored flag names a day still to come, not even one left by an earlier citizenship. */
  ghost predicate FlagsPast(w: World, a: Addr) {
    forall d | d in DaysOf(w.ledger.active, a) || d in DaysOf(w.ledger.volunteer, a) :: d <= Today(w.now)
  }

  /** Only citizens hold badges. */
  predicate BadgesHeld(l: Ledger) {
    forall b | b in l.badges :: b.0 in l.citizens
  }

  ghost predicate WorldSound(w: World) {
    && BadgesHeld(w.ledger)
    && forall a :: CitizenSound(w, a) && FlagsPast(w, a)
  }

  lemma TimePasses(w: World, now: nat, a: Addr)
    requires CitizenSound(w, a) && FlagsPast(w, a) && w.now <= now
    ensures CitizenSound(w.(now := now), a) && FlagsPast(w.(now := now), a)
  {
  }

  lemma JoinKept(w: World, info: Info, l: Ledger, paid: nat, a: Addr)
    requires CitizenSound(w, a) && FlagsPast(w, a) && Step(w.ledger, w.now, info, Join) == Done(l, paid)
    ensures CitizenSound(Recorded(w, info, Join, l, paid), a)
  {
  }

  lemma SettlementKept(w: World, a: Addr, i: nat, amount: nat)
    requires CitizenSound(w, a) && i < 3 && a in w.ledger.citizens
    ensures var c := Settled(w.ledger, a, i, amount, Today(w.now));
            Sound(c, Today(w.now), DaysOf(w.ledger.active, a), DaysOf(w.ledger.volunteer, a),
                  DaysOf(w.since, a), DaysOf(w.timely, a))
  {
    hide Sound, Today, Decayed, Processed, Earned, Marked;
    SettleKeepsSound(w.ledger.citizens[a], i, amount, Today(w.now), DaysOf(w.ledger.active, a),
                     DaysOf(w.ledger.volunteer, a), DaysOf(w.since, a), DaysOf(w.timely, a));
  }

  lemma LockingKeepsSound(c: Citizen, locked: nat, today: nat,
                          active: set<nat>, vol: set<nat>, since: set<nat>, timely: set<nat>)
    requires Sound(c, today, active, vol, since, timely)
    ensures Sound(c.(locked := locked), today, active, vol, since, timely)
  {
    hide Rate, Credits, QualifiedAfter;
  }

  lemma SabbathKeepsSound(c: Citizen, offset: nat, today: nat,
                          active: set<nat>, vol: set<nat>, since: set<nat>, timely: set<nat>)
    requires Sound(c, today, active, vol, since, timely) && offset < 7
    ensures Sound(c.(sabbath := offset), today, active, vol, since, timely)
  {
    hide Rate, Credits, QualifiedAfter;
  }

  lemma {:induction false} ContributionKept(w: World, info: Info, l: Ledger, paid: nat, a: Addr)
    requires CitizenSound(w, a) && Step(w.ledger, w.now, info, ContributeCapital) == Done(l, paid)
    ensures CitizenSound(Recorded(w, info, ContributeCapital, l, paid), a)
  {
    hide Sound, Settled, SettlementFits, Today;
    if a == info.sender {
      var amount := info.funds[w.ledger.denom];
      SettlementKept(w, a, 0, amount);
      var c := Settled(w.ledger, a, 0, amount, Today(w.now));
      LockingKeepsSound(c, c.locked + amount, Today(w.now), DaysOf(w.ledger.active, a), DaysOf(w.ledger.volunteer, a),
                        DaysOf(w.since, a), DaysOf(w.timely, a));
    }
  }

  lemma AttestedDayKept(w: World, info: Info, m: Msg, l: Ledger, paid: nat, a: Addr)
    requires m.AttestDay? && CitizenSound(w, a) && FlagsPast(w, a) && Step(w.ledger, w.now, info, m) == Done(l, paid)
    ensures CitizenSound(Recorded(w, info, m, l, paid), a) && FlagsPast(Recorded(w, info, m, l, paid), a)
  {
    hide Sound, Today, Marked, DaysOf;
    var inTime := m.volunteerMet && m.day / 7 > w.ledger.citizens[m.worker].lastWeek;
    DaysOfMarked(w.ledger.active, m.activeMet, m.worker, m.day, a);
    DaysOfMarked(w.ledger.volunteer, m.volunteerMet, m.worker, m.day, a);
    DaysOfMarked(w.since, m.activeMet, m.worker, m.day, a);
    DaysOfMarked(w.timely, inTime, m.worker, m.day, a);
    if a == m.worker {
      MarkKeepsSound(w.ledger.citizens[a], Today(w.now), DaysOf(w.ledger.active, a), DaysOf(w.ledger.volunteer, a),
                     DaysOf(w.since, a), DaysOf(w.timely, a), m.day, m.activeMet, m.volunteerMet);
    }
  }

  lemma CitizenKept(w: World, info: Info, m: Msg, l: Ledger, paid: nat, a: Addr)
    requires CitizenSound(w, a) && FlagsPast(w, a) && Step(w.ledger, w.now, info, m) == Done(l, paid)
    ensures CitizenSound(Recorded(w, info, m, l, paid), a) && FlagsPast(Recorded(w, info, m, l, paid), a)
  {
    hide Sound, Settled, SettlementFits, Newborn, Today, Attached, Marked;
    match m
    case Join =>
      JoinKept(w, info, l, paid, a);
    case ContributeCapital =>
      ContributionKept(w, info, l, paid, a);
    case AttestHonor(who, axis, delta, _) =>
      if a == who {
        SettlementKept(w, a, axis.Index(), delta);
      }
    case AttestDay(_, _, _, _, _) =>
      AttestedDayKept(w, info, m, l, paid, a);
    case SetSabbathDay(offset) =>
      if a == info.sender {
        SabbathKeepsSound(w.ledger.citizens[a], offset, Today(w.now), DaysOf(w.ledger.active, a),
                          DaysOf(w.ledger.volunteer, a), DaysOf(w.since, a), DaysOf(w.timely, a));
      }
    case _ =>
  }

  lemma AllBadgesOf(b: (Addr, Badge))
    ensures b in BadgesOf(b.0)
  {
    assert b == (b.0, b.1);
    match b.1
    case Governance =>
    case Audit =>
    case Dispute =>
    case Node =>
  }

  lemma BadgesKept(l: Ledger, now: nat, info: Info, m: Msg)
    requires BadgesHeld(l)
    ensures var o := Step(l, now, info, m); o.Done? ==> BadgesHeld(o.ledger)
  {
    hide Settled, SettlementFits, Newborn, Today, Attached, Marked, BadgesOf;
    forall b | b in l.badges
      ensures b in BadgesOf(b.0)
    {
      AllBadgesOf(b);
    }
  }

  lemma {:induction false} AddressKept(w: World, e: Entry, a: Addr)
    requires CitizenSound(w, a) && FlagsPast(w, a) && w.now <= e.now
    ensures CitizenSound(After(w, e), a) && FlagsPast(After(w, e), a)
  {
    TimePasses(w, e.now, a);
    hide Sound, Step, Recorded;
    match e
    case Transfer(_, _) =>
    case Tx(now, info, m) =>
      var o := Step(w.ledger, now, info, m);
      if o.Done? {
        CitizenKept(w.(now := now), info, m, o.ledger, o.paid, a);
        RecordedIgnoresTime(w, now, info, m, o.ledger, o.paid);
      }
  }

  lemma RecordedIgnoresTime(w: World, now: nat, info: Info, m: Msg, l: Ledger, paid: nat)
    ensures Recorded(w.(now := now), info, m, l, paid) == Recorded(w, info, m, l, paid).(now := now)
  {
  }

  lemma SoundKept(w: World, e: Entry)
    requires WorldSound(w) && w.now <= e.now
    ensures WorldSound(After(w, e))
  {
    forall a ensures CitizenSound(After(w, e), a) && FlagsPast(After(w, e), a) {
      AddressKept(w, e, a);
    }
    hide CitizenSound, FlagsPast, Step, Attached;
    if e.Tx? {
      BadgesKept(w.ledger, e.now, e.info, e.msg);
    }
  }

  /** The record of every citizen is sound, and only citizens hold badges, in every reachable state. */
  lemma {:induction false} SoundAlways(attester: Addr, governance: Addr, denom: string, entries: seq<Entry>)
    requires InOrder(0, entries)
    ensures var w := Run(Genesis(attester, governance, denom), entries);
            WorldSound(w) && w.now == Clock(0, entries)
  {
    if entries != [] {
      hide WorldSound, Recorded, Step;
      SoundAlways(attester, governance, denom, entries[..|entries| - 1]);
      SoundKept(Run(Genesis(attester, governance, denom), entries[..|entries| - 1]), entries[|entries| - 1]);
    } else {
      assert WorldSound(Genesis(attester, governance, denom));
    }
  }

  lemma ReachableSound(w: World)
    requires Reachable(w)
    ensures WorldSound(w)
  {
    hide WorldSound, Run, Genesis;
    var attester, governance, denom, entries :|
      InOrder(0, entries) && w == Run(Genesis(attester, governance, denom), entries);
    SoundAlways(attester, governance, denom, entries);
  }

  // ---------- what this means in a reachable state ----------

  /** The rate of an axis depends only on how long after joining it was last settled, never on the schedule. */
  lemma RateIsScheduleFree(w: World, a: Addr, i: nat)
    requires Reachable(w) && a in w.ledger.citizens && i < 3
    ensures var c := w.ledger.citizens[a];
            c.joinDay <= c.lastDay[i] <= Today(w.now) && c.rate[i] == Rate(c.lastDay[i] - c.joinDay)
  {
    ReachableSound(w);
    assert CitizenSound(w, a);
    hide Rate, WeeksSound, Reachable;
  }

  /**
   The week count and the multiplier reflect exactly the processed weeks after
   the joining week in which a volunteer day was attested in time: each of them
   once, none before its last day, and no other week.
   */
  lemma WeekAccounting(w: World, a: Addr)
    requires Reachable(w) && a in w.ledger.citizens
    ensures var c, timely := w.ledger.citizens[a], DaysOf(w.timely, a);
            && c.lastWeek == LatestFullWeek(c)
            && c.weeks == |TimelyWeeks(c, timely)|
            && c.mult == Credits(10_000, c.weeks)
            && (c.weeks == 1 ==> c.mult == 10_134) && (c.weeks == 52 ==> c.mult == 19_965)
            && (c.weeks >= 52 ==> c.mult >= 19_965)
            && (forall w1: nat :: w1 in TimelyWeeks(c, timely) <==>
                  c.joinDay / 7 < w1 <= c.lastWeek && Qualified(timely, w1))
            && (forall j, k | 0 <= j < k < c.weeks :: TimelyWeeks(c, timely)[j] < TimelyWeeks(c, timely)[k])
            && (forall w1 | w1 in TimelyWeeks(c, timely) :: 7 * w1 + 6 <= Today(w.now))
  {
    ReachableSound(w);
    assert CitizenSound(w, a);
    var c, timely := w.ledger.citizens[a], DaysOf(w.timely, a);
    CreditedWeeksSettled(c, Today(w.now), DaysOf(w.ledger.active, a), DaysOf(w.ledger.volunteer, a),
                          DaysOf(w.since, a), timely);
    QualifiedAfterMembers(timely, c.joinDay / 7, c.lastWeek - c.joinDay / 7);
    hide Reachable, Credits, QualifiedAfter, Rate, Qualified;
    CreditedYear(c.weeks);
  }

  /**
   After any number of ragequits and rejoins, flags kept from an earlier
   citizenship change neither the decay nor the week credit of the present one:
   every settlement would come out the same without them.
   */
  lemma RejoinStartsFresh(w: World, a: Addr, i: nat, amount: nat, today: nat)
    requires Reachable(w) && a in w.ledger.citizens && i < 3
    ensures Settled(w.ledger, a, i, amount, today)
         == Settled(w.ledger.(active := w.since, volunteer := w.timely), a, i, amount, today)
  {
    ReachableSound(w);
    assert CitizenSound(w, a);
    hide Sound, Reachable, Decayed, Processed, Earned;
    StaleFlagsIgnored(w.ledger.citizens[a], i, amount, Today(w.now), today, DaysOf(w.ledger.active, a),
                      DaysOf(w.ledger.volunteer, a), DaysOf(w.since, a), DaysOf(w.timely, a));
  }

  /** A badge implies citizenship, and citizenship implies PoP. */
  lemma BadgesNeedCitizens(w: World, a: Addr, badge: Badge)
    requires Reachable(w)
    ensures (a, badge) in w.ledger.badges ==> a in w.ledger.citizens
    ensures a in w.ledger.citizens ==>
              a in w.ledger.pop && w.ledger.citizens[a].isCitizen && w.ledger.citizens[a].sabbath < 7
  {
    ReachableSound(w);
    assert CitizenSound(w, a);
    hide Reachable, ClockSound, WeeksSound;
  }
}
