/** How honor moves through whole runs of the CosmWasm contract. */
module RunCourses {
  import opened Constants
  import opened Types
  import opened Decay
  import opened Citizens
  import opened Cosmwasm
  import opened Runs
  import opened Courses
  import opened LazyIsEager
  import RunInvariants
  import Simulator

  /** The entry neither ends the citizenship of the address nor moves its sabbath. */
  predicate Spares(e: Entry, who: Addr, sabbath: nat) {
    e.Tx? && e.info.sender == who ==>
      !e.msg.Ragequit? && (e.msg.SetSabbathDay? && e.msg.offset < 7 ==> e.msg.offset == sabbath)
  }

  predicate AllSpare(entries: seq<Entry>, who: Addr, sabbath: nat) {
    forall e | e in entries :: Spares(e, who, sabbath)
  }

  /** What the entry adds to axis i of a citizen: deposits, attested honor, bonuses. */
  function GainAt(w: World, e: Entry, who: Addr, i: nat): nat
    requires i < 3
  {
    var w' := After(w, e);
    if who in w.ledger.citizens && who in w'.ledger.citizens then
      Gained(w.ledger.citizens[who], w'.ledger.citizens[who], DaysOf(w.ledger.active, who), i)
    else 0
  }

  function Gains(w: World, entries: seq<Entry>, who: Addr, i: nat): nat
    requires i < 3
  {
    if entries == [] then 0
    else
      var before := entries[..|entries| - 1];
      Gains(w, before, who, i) + GainAt(Run(w, before), entries[|entries| - 1], who, i)
  }

  /** The citizen is still the same, and on axis i days were settled and honor may have been added. */
  ghost predicate Steady(w: World, w': World, who: Addr, i: nat)
    requires i < 3
  {
    && who in w.ledger.citizens && who in w'.ledger.citizens
    && Drifted(w.ledger.citizens[who], w'.ledger.citizens[who], DaysOf(w.ledger.active, who), i)
    && DaysOf(w.ledger.active, who) <= DaysOf(w'.ledger.active, who)
  }

  predicate AttestsTo(m: Msg, who: Addr, i: nat) {
    m.AttestHonor? && m.worker == who && m.axis.Index() == i && m.delta > 0
  }

  /** The citizen after the step has drifted; on labor and verification only attested honor was added. */
  ghost predicate StepDrifted(l: Ledger, l': Ledger, m: Msg, who: Addr, i: nat)
    requires i < 3 && who in l.citizens
  {
    && who in l'.citizens
    && Drifted(l.citizens[who], l'.citizens[who], DaysOf(l.active, who), i)
    && (i > 0 && Gained(l.citizens[who], l'.citizens[who], DaysOf(l.active, who), i) > 0 ==> AttestsTo(m, who, i))
  }

  lemma ContributionDrifts(l: Ledger, now: nat, info: Info, who: Addr, i: nat)
    requires i < 3 && who in l.citizens && Step(l, now, info, ContributeCapital).Done?
    ensures StepDrifted(l, Step(l, now, info, ContributeCapital).ledger, ContributeCapital, who, i)
  {
    var c, active, vol := l.citizens[who], DaysOf(l.active, who), DaysOf(l.volunteer, who);
    hide SettlementFits, Today, Drifted, Gained, Earned, Decayed, Processed;
    if info.sender == who {
      var amount := info.funds[l.denom];
      AddedBeforeWeeksDrifts(c, 0, amount, active, vol, Today(now), i);
      LockingDrifts(c, Settled(l, who, 0, amount, Today(now)), c.locked + amount, active, i);
      SettledLocked(l, who, 0, amount, Today(now));
    } else {
      NotDrifted(c, c, active, i);
    }
  }

  lemma AttestationDrifts(l: Ledger, now: nat, info: Info, m: Msg, who: Addr, i: nat)
    requires i < 3 && who in l.citizens && m.AttestHonor? && Step(l, now, info, m).Done?
    ensures StepDrifted(l, Step(l, now, info, m).ledger, m, who, i)
  {
    var c, active, vol := l.citizens[who], DaysOf(l.active, who), DaysOf(l.volunteer, who);
    hide SettlementFits, Today, Drifted, Gained, Earned, Decayed, Processed;
    if m.worker == who {
      AddedBeforeWeeksDrifts(c, m.axis.Index(), m.delta, active, vol, Today(now), i);
    } else {
      NotDrifted(c, c, active, i);
    }
  }

  lemma OthersDrift(l: Ledger, now: nat, info: Info, m: Msg, who: Addr, i: nat)
    requires i < 3 && who in l.citizens && !m.ContributeCapital? && !m.AttestHonor? && Step(l, now, info, m).Done?
    requires Spares(Tx(now, info, m), who, l.citizens[who].sabbath)
    ensures StepDrifted(l, Step(l, now, info, m).ledger, m, who, i)
  {
    var c, active := l.citizens[who], DaysOf(l.active, who);
    hide Newborn, Today, Drifted, Gained, Marked, Attached, BadgesOf;
    assert m.SetSabbathDay? && info.sender == who ==> c.(sabbath := m.offset) == c;
    NotDrifted(c, c, active, i);
  }

  lemma StepDrifts(l: Ledger, now: nat, info: Info, m: Msg, who: Addr, i: nat)
    requires i < 3 && who in l.citizens && Step(l, now, info, m).Done?
    requires Spares(Tx(now, info, m), who, l.citizens[who].sabbath)
    ensures StepDrifted(l, Step(l, now, info, m).ledger, m, who, i)
  {
    hide Step, StepDrifted, Spares;
    match m
    case ContributeCapital => ContributionDrifts(l, now, info, who, i);
    case AttestHonor(_, _, _, _) => AttestationDrifts(l, now, info, m, who, i);
    case _ => OthersDrift(l, now, info, m, who, i);
  }

  lemma FlagsStay(l: Ledger, now: nat, info: Info, m: Msg, who: Addr)
    ensures var o := Step(l, now, info, m); o.Done? ==> DaysOf(l.active, who) <= DaysOf(o.ledger.active, who)
  {
    hide Settled, SettlementFits, Newborn, Today, BadgesOf;
  }

  lemma RecordedLedger(w: World, info: Info, m: Msg, l: Ledger, paid: nat)
    ensures Recorded(w, info, m, l, paid).ledger == l
  {
  }

  lemma EntryDrifts(w: World, e: Entry, who: Addr, i: nat)
    requires i < 3 && who in w.ledger.citizens && Spares(e, who, w.ledger.citizens[who].sabbath)
    ensures Steady(w, After(w, e), who, i)
    ensures i > 0 && GainAt(w, e, who, i) > 0 ==> e.Tx? && AttestsTo(e.msg, who, i)
  {
    hide Step, Recorded, Drifted, Gained, Spares;
    var c, active := w.ledger.citizens[who], DaysOf(w.ledger.active, who);
    NotDrifted(c, c, active, i);
    if e.Tx? {
      var o := Step(w.ledger, e.now, e.info, e.msg);
      if o.Done? {
        RecordedLedger(w, e.info, e.msg, o.ledger, o.paid);
        StepDrifts(w.ledger, e.now, e.info, e.msg, who, i);
        FlagsStay(w.ledger, e.now, e.info, e.msg, who);
      }
    }
  }

  lemma EntryFlags(w: World, e: Entry, who: Addr)
    ensures DaysOf(w.ledger.active, who) <= DaysOf(After(w, e).ledger.active, who)
  {
    hide Step, Recorded, DaysOf;
    if e.Tx? {
      var o := Step(w.ledger, e.now, e.info, e.msg);
      if o.Done? {
        RecordedLedger(w, e.info, e.msg, o.ledger, o.paid);
        FlagsStay(w.ledger, e.now, e.info, e.msg, who);
      }
    }
  }

  // ---------- whole runs ----------

  function CitizenAfter(w: World, entries: seq<Entry>, who: Addr): Citizen
    requires who in w.ledger.citizens
  {
    var citizens := Run(w, entries).ledger.citizens;
    if who in citizens then citizens[who] else w.ledger.citizens[who]
  }

  /** The citizen's shield with the flags set by the end of the run. */
  function ShieldAfter(w: World, entries: seq<Entry>, who: Addr): Shield
    requires who in w.ledger.citizens
  {
    ShieldOf(w.ledger.citizens[who], DaysOf(Run(w, entries).ledger.active, who))
  }

  /** All flags of the run are among those of t, which otherwise is the citizen's own shield. */
  predicate CoversRun(t: Shield, w: World, entries: seq<Entry>, who: Addr)
    requires who in w.ledger.citizens
  {
    && t.joinDay == w.ledger.citizens[who].joinDay && t.sabbath == w.ledger.citizens[who].sabbath
    && DaysOf(Run(w, entries).ledger.active, who) <= t.active
  }

  lemma CoversItself(w: World, entries: seq<Entry>, who: Addr)
    requires who in w.ledger.citizens
    ensures CoversRun(ShieldAfter(w, entries, who), w, entries, who)
    ensures ShieldAfter(w, entries, who).joinDay == w.ledger.citizens[who].joinDay
    ensures ShieldAfter(w, entries, who).sabbath == w.ledger.citizens[who].sabbath
  {
    hide Run, DaysOf;
  }

  lemma CoversBefore(t: Shield, w: World, entries: seq<Entry>, who: Addr)
    requires entries != [] && who in w.ledger.citizens && CoversRun(t, w, entries, who)
    ensures CoversRun(t, w, entries[..|entries| - 1], who)
  {
    hide After, DaysOf;
    EntryFlags(Run(w, entries[..|entries| - 1]), entries[|entries| - 1], who);
  }

  /** Whatever the schedule: apart from the gains, each unprotected day settled has taken at least 1.01%. */
  lemma {:induction false} RunWears(w: World, entries: seq<Entry>, who: Addr, i: nat, t: Shield)
    requires i < 3 && who in w.ledger.citizens && w.ledger.citizens[who].rate[i] >= BASE_DECAY_BP
    requires AllSpare(entries, who, w.ledger.citizens[who].sabbath) && CoversRun(t, w, entries, who)
    ensures who in Run(w, entries).ledger.citizens
    ensures Worn(w.ledger.citizens[who], Run(w, entries).ledger.citizens[who], i, Gains(w, entries, who, i), t)
  {
    hide After, Worn, GainAt, DaysOf, Spares;
    if entries == [] {
      WornStart(w.ledger.citizens[who], i, t);
    } else {
      var before, e := entries[..|entries| - 1], entries[|entries| - 1];
      CoversBefore(t, w, entries, who);
      RunWears(w, before, who, i, t);
      assert e in entries;
      WearsOn(w, Run(w, before), e, who, i, Gains(w, before, who, i), t);
    }
  }

  lemma WearsOn(w: World, b: World, e: Entry, who: Addr, i: nat, gains: nat, t: Shield)
    requires i < 3 && who in w.ledger.citizens && who in b.ledger.citizens
    requires Worn(w.ledger.citizens[who], b.ledger.citizens[who], i, gains, t)
    requires Spares(e, who, w.ledger.citizens[who].sabbath) && DaysOf(After(b, e).ledger.active, who) <= t.active
    requires t.joinDay == w.ledger.citizens[who].joinDay && t.sabbath == w.ledger.citizens[who].sabbath
    ensures who in After(b, e).ledger.citizens
    ensures Worn(w.ledger.citizens[who], After(b, e).ledger.citizens[who], i, gains + GainAt(b, e, who, i), t)
  {
    hide After, Remains, Drifted, Gained, DaysOf, Spares, Unprotected;
    EntryDrifts(b, e, who, i);
    WornNext(w.ledger.citizens[who], b.ledger.citizens[who], After(b, e).ledger.citizens[who], i, gains,
             DaysOf(b.ledger.active, who), t);
  }

  /** No honor is attested for the citizen on axis i. */
  predicate NoneAttested(entries: seq<Entry>, who: Addr, i: nat) {
    forall e | e in entries && e.Tx? :: !AttestsTo(e.msg, who, i)
  }

  /** The flags of the days after the first and up to the last are in t only if they were set at the start. */
  predicate WindowKept(t: Shield, w: World, who: Addr, first: nat, last: nat) {
    forall d | first < d <= last && d in t.active :: d in DaysOf(w.ledger.active, who)
  }

  /** Labor and verification: whatever else happens, the axis ends where settling the days under t ends. */
  lemma {:induction false} RunOnlySettles(w: World, entries: seq<Entry>, who: Addr, i: nat, t: Shield, last: nat)
    requires 0 < i < 3 && who in w.ledger.citizens
    requires AllSpare(entries, who, w.ledger.citizens[who].sabbath) && NoneAttested(entries, who, i)
    requires CoversRun(t, w, entries, who) && WindowKept(t, w, who, w.ledger.citizens[who].lastDay[i], last)
    ensures who in Run(w, entries).ledger.citizens
    ensures SettledUntil(w.ledger.citizens[who], Run(w, entries).ledger.citizens[who], i, t, last)
    ensures DaysOf(w.ledger.active, who) <= DaysOf(Run(w, entries).ledger.active, who)
  {
    if entries != [] {
      var before, e := entries[..|entries| - 1], entries[|entries| - 1];
      var b := Run(w, before);
      EntryFlags(b, e, who);
      CoversBefore(t, w, entries, who);
      hide After, SettledUntil, DaysOf, Spares, AttestsTo;
      RunOnlySettles(w, before, who, i, t, last);
      assert e in entries;
      SettlesOn(w, b, e, who, i, t, last);
    }
  }

  lemma SettlesOn(w: World, b: World, e: Entry, who: Addr, i: nat, t: Shield, last: nat)
    requires 0 < i < 3 && who in w.ledger.citizens && who in b.ledger.citizens
    requires SettledUntil(w.ledger.citizens[who], b.ledger.citizens[who], i, t, last)
    requires Spares(e, who, w.ledger.citizens[who].sabbath) && (e.Tx? ==> !AttestsTo(e.msg, who, i))
    requires DaysOf(w.ledger.active, who) <= DaysOf(b.ledger.active, who)
    requires DaysOf(After(b, e).ledger.active, who) <= t.active
    requires t.joinDay == w.ledger.citizens[who].joinDay && t.sabbath == w.ledger.citizens[who].sabbath
    requires WindowKept(t, w, who, w.ledger.citizens[who].lastDay[i], last)
    ensures who in After(b, e).ledger.citizens
    ensures SettledUntil(w.ledger.citizens[who], After(b, e).ledger.citizens[who], i, t, last)
  {
    hide After, Gained, DaysOf, Spares, OnlySettled, AttestsTo;
    EntryDrifts(b, e, who, i);
    var c, c' := b.ledger.citizens[who], After(b, e).ledger.citizens[who];
    if c'.lastDay[i] <= last {
      OnlySettledNext(w.ledger.citizens[who], c, c', i, DaysOf(b.ledger.active, who), t);
    }
  }

  // ---------- what this means from a reachable state on ----------

  /**
   The guaranteed turnover over whole runs: while a citizen keeps the sabbath
   where it is, 7k settled days without active days leave, apart from what was
   added meanwhile, at most (98.99%) to the power 6k of the honor on any axis.
   */
  lemma TurnoverOverRun(w: World, entries: seq<Entry>, who: Addr, i: nat, k: nat)
    requires Reachable(w) && i < 3 && who in w.ledger.citizens
    requires AllSpare(entries, who, w.ledger.citizens[who].sabbath)
    requires CitizenAfter(w, entries, who).lastDay[i] == w.ledger.citizens[who].lastDay[i] + 7 * k
    requires var first := w.ledger.citizens[who].lastDay[i];
             forall d | first < d <= first + 7 * k :: d !in ShieldAfter(w, entries, who).active
    ensures who in Run(w, entries).ledger.citizens
    ensures Remains(w.ledger.citizens[who].honor[i], Gains(w, entries, who, i),
                    CitizenAfter(w, entries, who).honor[i], 6 * k)
  {
    var c, t := w.ledger.citizens[who], ShieldAfter(w, entries, who);
    ReachableRecord(w, who, i);
    CoversItself(w, entries, who);
    hide Reachable, Run, AllSpare, Gains, CoversRun, ShieldAfter, Worn, Remains;
    RunWears(w, entries, who, i, t);
    WornWeeks(c, CitizenAfter(w, entries, who), i, Gains(w, entries, who, i), t, k);
  }

  lemma ReachableRecord(w: World, who: Addr, i: nat)
    requires Reachable(w) && i < 3 && who in w.ledger.citizens
    ensures w.ledger.citizens[who].sabbath < 7 && w.ledger.citizens[who].rate[i] >= BASE_DECAY_BP
  {
    RunInvariants.RateIsScheduleFree(w, who, i);
    RunInvariants.BadgesNeedCitizens(w, who, Governance);
    hide Reachable, Rate;
    RateRange(w.ledger.citizens[who].lastDay[i] - w.ledger.citizens[who].joinDay);
  }

  /**
   Lazy equals eager over whole runs: while a citizen keeps the sabbath and no
   honor is attested on labor or verification, that axis is taken, by whatever
   messages of whomever, where continuing the simulation from its present state
   takes it; and where the simulation has agreed with it so far, it still does.
   */
  lemma LazyRunEqualsEager(w: World, entries: seq<Entry>, who: Addr, i: nat, input: Simulator.Input, k: nat, n: nat)
    requires 0 < i < 3 && who in w.ledger.citizens
    requires AllSpare(entries, who, w.ledger.citizens[who].sabbath) && NoneAttested(entries, who, i)
    requires w.ledger.citizens[who].lastDay[i] == w.ledger.citizens[who].joinDay + k
    requires CitizenAfter(w, entries, who).lastDay[i] == w.ledger.citizens[who].lastDay[i] + n
    requires WindowKept(ShieldAfter(w, entries, who), w, who, w.ledger.citizens[who].lastDay[i],
                        w.ledger.citizens[who].lastDay[i] + n)
    requires SameDays(input, ShieldAfter(w, entries, who), k, n)
    ensures who in Run(w, entries).ledger.citizens
    ensures FollowsSimulation(w.ledger.citizens[who], CitizenAfter(w, entries, who), i, input, k, n)
  {
    var c, t := w.ledger.citizens[who], ShieldAfter(w, entries, who);
    CoversItself(w, entries, who);
    hide Run, AllSpare, NoneAttested, CoversRun, WindowKept, ShieldAfter, OnlySettled, SameDays, FollowsSimulation;
    RunOnlySettles(w, entries, who, i, t, c.lastDay[i] + n);
    OnlySettledMatches(c, CitizenAfter(w, entries, who), i, t, input, k, n);
  }

  // ---------- the bound without a fixed sabbath ----------

  /** How many of the days that the entry settles on axis i are unprotected when they are settled. */
  function DaysWornAt(w: World, e: Entry, who: Addr, i: nat): nat
    requires i < 3
  {
    var w' := After(w, e);
    if who in w.ledger.citizens && who in w'.ledger.citizens then
      DaysWorn(w.ledger.citizens[who], w'.ledger.citizens[who], DaysOf(w.ledger.active, who), i)
    else 0
  }

  function AllDaysWorn(w: World, entries: seq<Entry>, who: Addr, i: nat): nat
    requires i < 3
  {
    if entries == [] then 0
    else
      var before := entries[..|entries| - 1];
      AllDaysWorn(w, before, who, i) + DaysWornAt(Run(w, before), entries[|entries| - 1], who, i)
  }

  lemma EntryCarries(w: World, e: Entry, who: Addr, i: nat)
    requires i < 3 && who in w.ledger.citizens && Stays(e, who)
    ensures who in After(w, e).ledger.citizens
    ensures Carried(w.ledger.citizens[who], After(w, e).ledger.citizens[who], DaysOf(w.ledger.active, who), i)
  {
    var c, active := w.ledger.citizens[who], DaysOf(w.ledger.active, who);
    if Spares(e, who, c.sabbath) {
      hide After, DaysOf, Moved, Gained;
      EntryDrifts(w, e, who, i);
    } else {
      hide Attached, DaysOf, Carried;
      SabbathCarried(c, e.msg.offset, active, i);
      assert After(w, e).ledger.citizens[who] == c.(sabbath := e.msg.offset);
    }
  }

  /**
   However a citizen moves its sabbath, as long as it stays: apart from the
   gains, each day that was unprotected when it was settled has taken at least 1.01%.
   */
  lemma {:induction false} RunWearsAnyway(w: World, entries: seq<Entry>, who: Addr, i: nat)
    requires i < 3 && who in w.ledger.citizens && w.ledger.citizens[who].rate[i] >= BASE_DECAY_BP
    requires AllStay(entries, who)
    ensures who in Run(w, entries).ledger.citizens
    ensures WornBy(w.ledger.citizens[who], Run(w, entries).ledger.citizens[who], i,
                   Gains(w, entries, who, i), AllDaysWorn(w, entries, who, i))
  {
    hide After, WornBy, GainAt, DaysWornAt, Stays;
    if entries == [] {
      WornByStart(w.ledger.citizens[who], i);
    } else {
      var before, e := entries[..|entries| - 1], entries[|entries| - 1];
      assert e in entries;
      RunWearsAnyway(w, before, who, i);
      WearsAnyway(w, Run(w, before), e, who, i, Gains(w, before, who, i), AllDaysWorn(w, before, who, i));
    }
  }

  lemma WearsAnyway(w: World, b: World, e: Entry, who: Addr, i: nat, gains: nat, u: nat)
    requires i < 3 && who in w.ledger.citizens && who in b.ledger.citizens && Stays(e, who)
    requires WornBy(w.ledger.citizens[who], b.ledger.citizens[who], i, gains, u)
    ensures who in After(b, e).ledger.citizens
    ensures WornBy(w.ledger.citizens[who], After(b, e).ledger.citizens[who], i,
                   gains + GainAt(b, e, who, i), u + DaysWornAt(b, e, who, i))
  {
    hide After, WornBy, Stays, DaysOf, Carried, DaysWorn, Gained;
    EntryCarries(b, e, who, i);
    WornByNext(w.ledger.citizens[who], b.ledger.citizens[who], After(b, e).ledger.citizens[who], i, gains, u,
               DaysOf(b.ledger.active, who));
  }

  /**
   And no more than that: while the rate stays at most r, each such day has taken
   at most the share r, and one unit of rounding.
   */
  lemma {:induction false} RunKeeps(w: World, entries: seq<Entry>, who: Addr, i: nat, r: nat)
    requires i < 3 && r < 10_000 && who in w.ledger.citizens && AllStay(entries, who)
    ensures who in Run(w, entries).ledger.citizens
    ensures KeptBy(w.ledger.citizens[who], Run(w, entries).ledger.citizens[who], i, AllDaysWorn(w, entries, who, i), r)
  {
    hide After, KeptBy, DaysWornAt, Stays;
    if entries == [] {
      KeptByStart(w.ledger.citizens[who], i, r);
    } else {
      var before, e := entries[..|entries| - 1], entries[|entries| - 1];
      assert e in entries;
      RunKeeps(w, before, who, i, r);
      KeepsOn(w, Run(w, before), e, who, i, AllDaysWorn(w, before, who, i), r);
    }
  }

  lemma KeepsOn(w: World, b: World, e: Entry, who: Addr, i: nat, u: nat, r: nat)
    requires i < 3 && r < 10_000 && who in w.ledger.citizens && who in b.ledger.citizens && Stays(e, who)
    requires KeptBy(w.ledger.citizens[who], b.ledger.citizens[who], i, u, r)
    ensures who in After(b, e).ledger.citizens
    ensures KeptBy(w.ledger.citizens[who], After(b, e).ledger.citizens[who], i, u + DaysWornAt(b, e, who, i), r)
  {
    hide After, KeptBy, Stays, DaysOf, Carried, DaysWorn;
    EntryCarries(b, e, who, i);
    KeptByNext(w.ledger.citizens[who], b.ledger.citizens[who], After(b, e).ledger.citizens[who], i, u, r,
               DaysOf(b.ledger.active, who));
  }
}
