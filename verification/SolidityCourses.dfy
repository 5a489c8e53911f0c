/** How honor moves through whole runs of the Solidity contract. */
module SolidityCourses {
  import opened Constants
  import opened Types
  import opened Decay
  import opened Citizens
  import opened Solidity
  import opened SolidityRuns
  import opened Courses
  import opened Records
  import opened LazyIsEager
  import Simulator

  function At(w: World, who: Addr): Citizen {
    CitizenAt(w.ledger.citizens, who)
  }

  function Flags(w: World, who: Addr): set<nat> {
    DaysOf(w.ledger.active, who)
  }

  /** The call neither ends the citizenship of the address nor moves its sabbath. */
  predicate Spares(t: Timed, who: Addr, sabbath: nat) {
    t.sender == who ==> !t.call.Ragequit? && (t.call.SetSabbathDay? && t.call.offset < 7 ==> t.call.offset == sabbath)
  }

  predicate AllSpare(calls: seq<Timed>, who: Addr, sabbath: nat) {
    forall t | t in calls :: Spares(t, who, sabbath)
  }

  /** What the call adds to axis i: minted capital, attested honor, bonuses. */
  function GainAt(w: World, t: Timed, who: Addr, i: nat): nat
    requires i < 3
  {
    Gained(At(w, who), At(After(w, t), who), Flags(w, who), i)
  }

  function Gains(w: World, calls: seq<Timed>, who: Addr, i: nat): nat
    requires i < 3
  {
    if calls == [] then 0
    else
      var before := calls[..|calls| - 1];
      Gains(w, before, who, i) + GainAt(Run(w, before), calls[|calls| - 1], who, i)
  }

  predicate AttestsTo(m: Call, who: Addr, i: nat) {
    m.AttestHonor? && m.worker == who && m.axis.Index() == i && m.delta > 0
  }

  /** The citizen after the call has drifted; on labor and verification only attested honor was added. */
  ghost predicate CallDrifted(l: Ledger, l': Ledger, m: Call, who: Addr, i: nat)
    requires i < 3
  {
    var c, c', active := CitizenAt(l.citizens, who), CitizenAt(l'.citizens, who), DaysOf(l.active, who);
    Drifted(c, c', active, i) && (i > 0 && Gained(c, c', active, i) > 0 ==> AttestsTo(m, who, i))
  }

  lemma MintDrifts(l: Ledger, now: nat, sender: Addr, m: Call, who: Addr, i: nat)
    requires i < 3 && m.BridgeMintCapital? && Step(l, now, sender, m).Done?
    ensures CallDrifted(l, Step(l, now, sender, m).ledger, m, who, i)
  {
    var c, active, vol := CitizenAt(l.citizens, who), DaysOf(l.active, who), DaysOf(l.volunteer, who);
    hide SettlementFits, Today, Drifted, Gained, Decayed, Processed;
    if m.worker == who {
      AddedAfterWeeksDrifts(c, 0, m.amount, active, vol, Today(now), i);
      var s := Earned(Settled(l, who, 0, Today(now)), 0, m.amount);
      LockingDrifts(c, s, s.locked + m.amount, active, i);
    } else {
      NotDrifted(c, c, active, i);
    }
  }

  lemma AttestationDrifts(l: Ledger, now: nat, sender: Addr, m: Call, who: Addr, i: nat)
    requires i < 3 && m.AttestHonor? && Step(l, now, sender, m).Done?
    ensures CallDrifted(l, Step(l, now, sender, m).ledger, m, who, i)
  {
    var c, active, vol := CitizenAt(l.citizens, who), DaysOf(l.active, who), DaysOf(l.volunteer, who);
    hide SettlementFits, Today, Drifted, Gained, Decayed, Processed;
    if m.worker == who {
      AddedAfterWeeksDrifts(c, m.axis.Index(), m.delta, active, vol, Today(now), i);
    } else {
      NotDrifted(c, c, active, i);
    }
  }

  lemma OthersDrift(l: Ledger, now: nat, sender: Addr, m: Call, who: Addr, i: nat)
    requires i < 3 && !m.BridgeMintCapital? && !m.AttestHonor? && Step(l, now, sender, m).Done?
    requires CitizenAt(l.citizens, who).isCitizen
    requires Spares(Timed(now, sender, m), who, CitizenAt(l.citizens, who).sabbath)
    ensures CallDrifted(l, Step(l, now, sender, m).ledger, m, who, i)
  {
    var c, active := CitizenAt(l.citizens, who), DaysOf(l.active, who);
    hide Reborn, Today, Drifted, Gained, Marked;
    assert m.SetSabbathDay? && sender == who ==> c.(sabbath := m.offset) == c;
    NotDrifted(c, c, active, i);
  }

  lemma StepDrifts(l: Ledger, now: nat, sender: Addr, m: Call, who: Addr, i: nat)
    requires i < 3 && Step(l, now, sender, m).Done?
    requires CitizenAt(l.citizens, who).isCitizen
    requires Spares(Timed(now, sender, m), who, CitizenAt(l.citizens, who).sabbath)
    ensures CallDrifted(l, Step(l, now, sender, m).ledger, m, who, i)
  {
    hide Step, CallDrifted, Spares, CitizenAt;
    match m
    case BridgeMintCapital(_, _, _, _, _) => MintDrifts(l, now, sender, m, who, i);
    case AttestHonor(_, _, _, _, _, _) => AttestationDrifts(l, now, sender, m, who, i);
    case _ => OthersDrift(l, now, sender, m, who, i);
  }

  lemma FlagsStay(l: Ledger, now: nat, sender: Addr, m: Call, who: Addr)
    ensures var o := Step(l, now, sender, m); o.Done? ==> DaysOf(l.active, who) <= DaysOf(o.ledger.active, who)
  {
    hide Settled, SettlementFits, Reborn, Today;
  }

  lemma RecordedLedger(w: World, now: nat, sender: Addr, m: Call, l: Ledger)
    ensures Recorded(w.(now := now), sender, m, l).ledger == l
  {
  }

  lemma CallDrifts(w: World, t: Timed, who: Addr, i: nat)
    requires i < 3 && At(w, who).isCitizen && Spares(t, who, At(w, who).sabbath)
    ensures Drifted(At(w, who), At(After(w, t), who), Flags(w, who), i)
    ensures i > 0 && GainAt(w, t, who, i) > 0 ==> AttestsTo(t.call, who, i)
  {
    hide Step, Recorded, Drifted, Gained, Spares;
    NotDrifted(At(w, who), At(w, who), Flags(w, who), i);
    var o := Step(w.ledger, t.now, t.sender, t.call);
    if o.Done? {
      RecordedLedger(w, t.now, t.sender, t.call, o.ledger);
      StepDrifts(w.ledger, t.now, t.sender, t.call, who, i);
    }
  }

  lemma CallFlags(w: World, t: Timed, who: Addr)
    ensures Flags(w, who) <= Flags(After(w, t), who)
  {
    hide Step, Recorded, DaysOf;
    var o := Step(w.ledger, t.now, t.sender, t.call);
    if o.Done? {
      RecordedLedger(w, t.now, t.sender, t.call, o.ledger);
      FlagsStay(w.ledger, t.now, t.sender, t.call, who);
    }
  }

  // ---------- whole runs ----------

  /** The citizen's shield with the flags set by the end of the run. */
  function ShieldAfter(w: World, calls: seq<Timed>, who: Addr): Shield {
    ShieldOf(At(w, who), Flags(Run(w, calls), who))
  }

  /** All flags of the run are among those of t, which otherwise is the citizen's own shield. */
  predicate CoversRun(t: Shield, w: World, calls: seq<Timed>, who: Addr) {
    t.joinDay == At(w, who).joinDay && t.sabbath == At(w, who).sabbath && Flags(Run(w, calls), who) <= t.active
  }

  lemma CoversBefore(t: Shield, w: World, calls: seq<Timed>, who: Addr)
    requires calls != [] && CoversRun(t, w, calls, who)
    ensures CoversRun(t, w, calls[..|calls| - 1], who)
  {
    hide After, Flags;
    CallFlags(Run(w, calls[..|calls| - 1]), calls[|calls| - 1], who);
  }

  lemma CoversItself(w: World, calls: seq<Timed>, who: Addr)
    ensures CoversRun(ShieldAfter(w, calls, who), w, calls, who)
    ensures ShieldAfter(w, calls, who).joinDay == At(w, who).joinDay
    ensures ShieldAfter(w, calls, who).sabbath == At(w, who).sabbath
  {
    hide Run, Flags;
  }

  /** Whatever the schedule: apart from the gains, each unprotected day settled has taken at least 1.01%. */
  lemma {:induction false} RunWears(w: World, calls: seq<Timed>, who: Addr, i: nat, t: Shield)
    requires i < 3 && At(w, who).isCitizen && At(w, who).rate[i] >= BASE_DECAY_BP
    requires AllSpare(calls, who, At(w, who).sabbath) && CoversRun(t, w, calls, who)
    ensures At(Run(w, calls), who).isCitizen
    ensures Worn(At(w, who), At(Run(w, calls), who), i, Gains(w, calls, who, i), t)
  {
    hide After, Worn, GainAt, Flags, Spares, At;
    if calls == [] {
      WornStart(At(w, who), i, t);
    } else {
      var before, e := calls[..|calls| - 1], calls[|calls| - 1];
      CoversBefore(t, w, calls, who);
      RunWears(w, before, who, i, t);
      assert e in calls;
      WearsOn(w, Run(w, before), e, who, i, Gains(w, before, who, i), t);
    }
  }

  lemma WearsOn(w: World, b: World, e: Timed, who: Addr, i: nat, gains: nat, t: Shield)
    requires i < 3 && At(b, who).isCitizen && Worn(At(w, who), At(b, who), i, gains, t)
    requires Spares(e, who, At(w, who).sabbath) && Flags(After(b, e), who) <= t.active
    requires t.joinDay == At(w, who).joinDay && t.sabbath == At(w, who).sabbath
    ensures At(After(b, e), who).isCitizen
    ensures Worn(At(w, who), At(After(b, e), who), i, gains + GainAt(b, e, who, i), t)
  {
    hide After, Remains, Gained, Flags, Spares, Unprotected, Moved, At;
    CallDrifts(b, e, who, i);
    CallFlags(b, e, who);
    WornNext(At(w, who), At(b, who), At(After(b, e), who), i, gains, Flags(b, who), t);
  }

  /** No honor is attested for the citizen on axis i. */
  predicate NoneAttested(calls: seq<Timed>, who: Addr, i: nat) {
    forall t | t in calls :: !AttestsTo(t.call, who, i)
  }

  /** The flags of the days after the first and up to the last are in t only if they were set at the start. */
  predicate WindowKept(t: Shield, w: World, who: Addr, first: nat, last: nat) {
    forall d | first < d <= last && d in t.active :: d in Flags(w, who)
  }

  /** Labor and verification: whatever else happens, the axis ends where settling the days under t ends. */
  lemma {:induction false} RunOnlySettles(w: World, calls: seq<Timed>, who: Addr, i: nat, t: Shield, last: nat)
    requires 0 < i < 3 && At(w, who).isCitizen
    requires AllSpare(calls, who, At(w, who).sabbath) && NoneAttested(calls, who, i)
    requires CoversRun(t, w, calls, who) && WindowKept(t, w, who, At(w, who).lastDay[i], last)
    ensures SettledUntil(At(w, who), At(Run(w, calls), who), i, t, last)
    ensures Flags(w, who) <= Flags(Run(w, calls), who)
  {
    if calls != [] {
      var before, e := calls[..|calls| - 1], calls[|calls| - 1];
      var b := Run(w, before);
      CallFlags(b, e, who);
      CoversBefore(t, w, calls, who);
      hide After, SettledUntil, Flags, Spares, At, AttestsTo;
      RunOnlySettles(w, before, who, i, t, last);
      assert e in calls;
      SettlesOn(w, b, e, who, i, t, last);
    }
  }

  lemma SettlesOn(w: World, b: World, e: Timed, who: Addr, i: nat, t: Shield, last: nat)
    requires 0 < i < 3 && At(w, who).isCitizen && SettledUntil(At(w, who), At(b, who), i, t, last)
    requires Spares(e, who, At(w, who).sabbath) && !AttestsTo(e.call, who, i)
    requires Flags(w, who) <= Flags(b, who) && Flags(After(b, e), who) <= t.active
    requires t.joinDay == At(w, who).joinDay && t.sabbath == At(w, who).sabbath
    requires WindowKept(t, w, who, At(w, who).lastDay[i], last)
    ensures SettledUntil(At(w, who), At(After(b, e), who), i, t, last)
  {
    hide After, Gained, Flags, Spares, OnlySettled, At, AttestsTo;
    CallDrifts(b, e, who, i);
    CallFlags(b, e, who);
    if At(After(b, e), who).lastDay[i] <= last {
      OnlySettledNext(At(w, who), At(b, who), At(After(b, e), who), i, Flags(b, who), t);
    }
  }

  // ---------- what this means ----------

  /** The guaranteed turnover over whole runs, as on CosmWasm. */
  lemma TurnoverOverRun(attester: Addr, governance: Addr, history: seq<Timed>, calls: seq<Timed>, who: Addr,
                        i: nat, k: nat)
    requires InOrder(history) && i < 3
    requires var w := Run(Genesis(attester, governance), history);
             && At(w, who).isCitizen && AllSpare(calls, who, At(w, who).sabbath)
             && At(Run(w, calls), who).lastDay[i] == At(w, who).lastDay[i] + 7 * k
             && forall d | At(w, who).lastDay[i] < d <= At(w, who).lastDay[i] + 7 * k ::
                  d !in ShieldAfter(w, calls, who).active
    ensures var w := Run(Genesis(attester, governance), history);
            Remains(At(w, who).honor[i], Gains(w, calls, who, i), At(Run(w, calls), who).honor[i], 6 * k)
  {
    var w := Run(Genesis(attester, governance), history);
    ReachableRecord(attester, governance, history, who, i);
    CoversItself(w, calls, who);
    hide Run, AllSpare, Gains, CoversRun, ShieldAfter, Worn, Remains, At, InOrder;
    RunWears(w, calls, who, i, ShieldAfter(w, calls, who));
    WornWeeks(At(w, who), At(Run(w, calls), who), i, Gains(w, calls, who, i), ShieldAfter(w, calls, who), k);
  }

  lemma ReachableRecord(attester: Addr, governance: Addr, history: seq<Timed>, who: Addr, i: nat)
    requires InOrder(history) && i < 3
    requires At(Run(Genesis(attester, governance), history), who).isCitizen
    ensures var c := At(Run(Genesis(attester, governance), history), who); c.sabbath < 7 && c.rate[i] >= BASE_DECAY_BP
  {
    SoundAlways(attester, governance, history, who);
    var w := Run(Genesis(attester, governance), history);
    hide Run, InOrder, Sound, Today;
    SoundRecord(At(w, who), Today(w.now), Flags(w, who), DaysOf(w.ledger.volunteer, who),
                DaysOf(w.since, who), DaysOf(w.timely, who), i);
  }

  lemma SoundRecord(c: Citizen, today: nat, active: set<nat>, vol: set<nat>, since: set<nat>, timely: set<nat>, i: nat)
    requires Sound(c, today, active, vol, since, timely) && i < 3
    ensures c.sabbath < 7 && c.rate[i] >= BASE_DECAY_BP
  {
    hide WeeksSound, FlagsFresh, Rate;
    RateRange(c.lastDay[i] - c.joinDay);
  }

  /** Lazy equals eager over whole runs, as on CosmWasm. */
  lemma LazyRunEqualsEager(w: World, calls: seq<Timed>, who: Addr, i: nat, input: Simulator.Input, k: nat, n: nat)
    requires 0 < i < 3 && At(w, who).isCitizen
    requires AllSpare(calls, who, At(w, who).sabbath) && NoneAttested(calls, who, i)
    requires At(w, who).lastDay[i] == At(w, who).joinDay + k
    requires At(Run(w, calls), who).lastDay[i] == At(w, who).lastDay[i] + n
    requires WindowKept(ShieldAfter(w, calls, who), w, who, At(w, who).lastDay[i], At(w, who).lastDay[i] + n)
    requires SameDays(input, ShieldAfter(w, calls, who), k, n)
    ensures FollowsSimulation(At(w, who), At(Run(w, calls), who), i, input, k, n)
  {
    var c, t := At(w, who), ShieldAfter(w, calls, who);
    CoversItself(w, calls, who);
    hide Run, AllSpare, NoneAttested, CoversRun, WindowKept, ShieldAfter, OnlySettled, SameDays, FollowsSimulation, At;
    RunOnlySettles(w, calls, who, i, t, c.lastDay[i] + n);
    OnlySettledMatches(c, At(Run(w, calls), who), i, t, input, k, n);
  }

  // ---------- the bound without a fixed sabbath ----------

  /** The call does not end the citizenship of the address. */
  predicate Stays(t: Timed, who: Addr) {
    t.sender == who ==> !t.call.Ragequit?
  }

  predicate AllStay(calls: seq<Timed>, who: Addr) {
    forall t | t in calls :: Stays(t, who)
  }

  /** How many of the days that the call settles on axis i are unprotected when they are settled. */
  function DaysWornAt(w: World, t: Timed, who: Addr, i: nat): nat
    requires i < 3
  {
    DaysWorn(At(w, who), At(After(w, t), who), Flags(w, who), i)
  }

  function AllDaysWorn(w: World, calls: seq<Timed>, who: Addr, i: nat): nat
    requires i < 3
  {
    if calls == [] then 0
    else
      var before := calls[..|calls| - 1];
      AllDaysWorn(w, before, who, i) + DaysWornAt(Run(w, before), calls[|calls| - 1], who, i)
  }

  lemma CallCarries(w: World, t: Timed, who: Addr, i: nat)
    requires i < 3 && At(w, who).isCitizen && Stays(t, who)
    ensures Carried(At(w, who), At(After(w, t), who), Flags(w, who), i)
  {
    if Spares(t, who, At(w, who).sabbath) {
      hide After, Flags, Moved, Gained, At;
      CallDrifts(w, t, who, i);
    } else {
      hide Carried, DaysOf;
      SabbathCarried(At(w, who), t.call.offset, Flags(w, who), i);
      assert At(After(w, t), who) == At(w, who).(sabbath := t.call.offset);
    }
  }

  /** However a citizen moves its sabbath, as long as it stays: the same bound as on CosmWasm. */
  lemma {:induction false} RunWearsAnyway(w: World, calls: seq<Timed>, who: Addr, i: nat)
    requires i < 3 && At(w, who).isCitizen && At(w, who).rate[i] >= BASE_DECAY_BP && AllStay(calls, who)
    ensures At(Run(w, calls), who).isCitizen
    ensures WornBy(At(w, who), At(Run(w, calls), who), i, Gains(w, calls, who, i), AllDaysWorn(w, calls, who, i))
  {
    hide After, WornBy, GainAt, DaysWornAt, Stays, At;
    if calls == [] {
      WornByStart(At(w, who), i);
    } else {
      var before, t := calls[..|calls| - 1], calls[|calls| - 1];
      assert t in calls;
      RunWearsAnyway(w, before, who, i);
      WearsAnyway(w, Run(w, before), t, who, i, Gains(w, before, who, i), AllDaysWorn(w, before, who, i));
    }
  }

  lemma WearsAnyway(w: World, b: World, t: Timed, who: Addr, i: nat, gains: nat, u: nat)
    requires i < 3 && At(b, who).isCitizen && Stays(t, who) && WornBy(At(w, who), At(b, who), i, gains, u)
    ensures At(After(b, t), who).isCitizen
    ensures WornBy(At(w, who), At(After(b, t), who), i, gains + GainAt(b, t, who, i), u + DaysWornAt(b, t, who, i))
  {
    hide After, WornBy, Stays, Flags, Moved, DaysWorn, Gained, At;
    CallCarries(b, t, who, i);
    WornByNext(At(w, who), At(b, who), At(After(b, t), who), i, gains, u, Flags(b, who));
  }

  /** And no more than that, as on CosmWasm. */
  lemma {:induction false} RunKeeps(w: World, calls: seq<Timed>, who: Addr, i: nat, r: nat)
    requires i < 3 && r < 10_000 && At(w, who).isCitizen && AllStay(calls, who)
    ensures At(Run(w, calls), who).isCitizen
    ensures KeptBy(At(w, who), At(Run(w, calls), who), i, AllDaysWorn(w, calls, who, i), r)
  {
    hide After, KeptBy, DaysWornAt, Stays, At;
    if calls == [] {
      KeptByStart(At(w, who), i, r);
    } else {
      var before, t := calls[..|calls| - 1], calls[|calls| - 1];
      assert t in calls;
      RunKeeps(w, before, who, i, r);
      KeepsOn(w, Run(w, before), t, who, i, AllDaysWorn(w, before, who, i), r);
    }
  }

  lemma KeepsOn(w: World, b: World, t: Timed, who: Addr, i: nat, u: nat, r: nat)
    requires i < 3 && r < 10_000 && At(b, who).isCitizen && Stays(t, who) && KeptBy(At(w, who), At(b, who), i, u, r)
    ensures At(After(b, t), who).isCitizen
    ensures KeptBy(At(w, who), At(After(b, t), who), i, u + DaysWornAt(b, t, who, i), r)
  {
    hide After, KeptBy, Stays, Flags, Moved, DaysWorn, Gained, At;
    CallCarries(b, t, who, i);
    KeptByNext(At(w, who), At(b, who), At(After(b, t), who), i, u, r, Flags(b, who));
  }
}
