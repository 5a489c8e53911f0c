/** The same record invariants for every state the Solidity contract can reach. */
module SolidityRuns {
  import opened Constants
  import opened Types
  import opened Decay
  import opened Volunteer
  import opened Citizens
  import opened Solidity
  import opened Records

  datatype Timed = Timed(now: nat, sender: Addr, call: Call)

  datatype World = World(
    ledger: Ledger,
    now: nat,
    /** Active days attested since the present citizenship began. */
    since: DayFlags,
    /** Volunteer days attested since then, each while its week was still unprocessed. */
    timely: DayFlags)

  function Genesis(attester: Addr, governance: Addr): World {
    World(Ledger(attester, governance, map[], {}, {}, map[], map[], {}), 0, map[], map[])
  }

  function Recorded(w: World, sender: Addr, m: Call, l: Ledger): World {
    match m
    case Join => w.(ledger := l, since := w.since[sender := {}], timely := w.timely[sender := {}])
    case AttestDay(who, day, activeMet, volunteerMet, _, _, _) =>
      var inTime := volunteerMet && day / 7 > CitizenAt(w.ledger.citizens, who).lastWeek;
      w.(ledger := l,
         since := if activeMet then Marked(w.since, who, day) else w.since,
         timely := if inTime then Marked(w.timely, who, day) else w.timely)
    case _ => w.(ledger := l)
  }

  function After(w: World, t: Timed): World {
    match Step(w.ledger, t.now, t.sender, t.call)
    case Revert(_) => w.(now := t.now)
    case Done(l, _) => Recorded(w.(now := t.now), t.sender, t.call, l)
  }

  function Run(w: World, calls: seq<Timed>): World {
    if calls == [] then w else After(Run(w, calls[..|calls| - 1]), calls[|calls| - 1])
  }

  function Clock(calls: seq<Timed>): nat {
    if calls == [] then 0 else calls[|calls| - 1].now
  }

  /** Block time never goes back. */
  predicate InOrder(calls: seq<Timed>) {
    calls == [] || (InOrder(calls[..|calls| - 1]) && Clock(calls[..|calls| - 1]) <= calls[|calls| - 1].now)
  }

  /** Citizens have sound records, everybody else the zero record; flags name no day still to come. */
  ghost predicate AddressSound(w: World, a: Addr) {
    var c, active, vol := CitizenAt(w.ledger.citizens, a), DaysOf(w.ledger.active, a), DaysOf(w.ledger.volunteer, a);
    && (forall d | d in active || d in vol :: d <= Today(w.now))
    && (if c.isCitizen then
          a in w.ledger.pop && Sound(c, Today(w.now), active, vol, DaysOf(w.since, a), DaysOf(w.timely, a))
        else c == NOBODY)
  }

  lemma TimePasses(w: World, now: nat, a: Addr)
    requires AddressSound(w, a) && w.now <= now
    ensures AddressSound(w.(now := now), a)
  {
  }

  /** The honors, the locked amount and the sabbath are free. */
  lemma SoundIgnores(c: Citizen, honor: Triple, locked: nat, sabbath: nat, today: nat,
                     active: set<nat>, vol: set<nat>, since: set<nat>, timely: set<nat>)
    requires Sound(c, today, active, vol, since, timely) && sabbath < 7
    ensures Sound(c.(honor := honor, locked := locked, sabbath := sabbath), today, active, vol, since, timely)
  {
    hide Rate, Credits, QualifiedAfter;
  }

  lemma SettlementKept(w: World, a: Addr, i: nat)
    requires AddressSound(w, a) && i < 3 && CitizenAt(w.ledger.citizens, a).isCitizen
    ensures Sound(Settled(w.ledger, a, i, Today(w.now)), Today(w.now), DaysOf(w.ledger.active, a),
                  DaysOf(w.ledger.volunteer, a), DaysOf(w.since, a), DaysOf(w.timely, a))
  {
    hide Sound, Today, Decayed, Processed;
    var c := CitizenAt(w.ledger.citizens, a);
    var d := Decayed(c, i, DaysOf(w.ledger.active, a), Today(w.now));
    assert Earned(d, i, 0) == d by { EarnedNothing(d, i); }
    SettleKeepsSound(c, i, 0, Today(w.now), DaysOf(w.ledger.active, a),
                     DaysOf(w.ledger.volunteer, a), DaysOf(w.since, a), DaysOf(w.timely, a));
  }

  lemma EarnedNothing(c: Citizen, i: nat)
    requires i < 3
    ensures Earned(c, i, 0) == c
  {
  }

  lemma {:induction false} MintKept(w: World, sender: Addr, m: Call, a: Addr)
    requires m.BridgeMintCapital? && AddressSound(w, a) && Step(w.ledger, w.now, sender, m).Done?
    ensures AddressSound(Recorded(w, sender, m, Step(w.ledger, w.now, sender, m).ledger), a)
  {
    hide Sound, Settled, SettlementFits, Today;
    if a == m.worker {
      SettlementKept(w, a, 0);
      var s := Settled(w.ledger, a, 0, Today(w.now));
      SoundSabbath(s, w, a);
      SoundIgnores(s, Earned(s, 0, m.amount).honor, s.locked + m.amount, s.sabbath, Today(w.now),
                   DaysOf(w.ledger.active, a), DaysOf(w.ledger.volunteer, a), DaysOf(w.since, a), DaysOf(w.timely, a));
    }
  }

  lemma SoundSabbath(c: Citizen, w: World, a: Addr)
    requires Sound(c, Today(w.now), DaysOf(w.ledger.active, a), DaysOf(w.ledger.volunteer, a),
                   DaysOf(w.since, a), DaysOf(w.timely, a))
    ensures c.sabbath < 7 && c.isCitizen
  {
    hide ClockSound, WeeksSound, FlagsFresh;
  }

  lemma {:induction false} HonorKept(w: World, sender: Addr, m: Call, a: Addr)
    requires m.AttestHonor? && AddressSound(w, a) && Step(w.ledger, w.now, sender, m).Done?
    ensures AddressSound(Recorded(w, sender, m, Step(w.ledger, w.now, sender, m).ledger), a)
  {
    hide Sound, Settled, SettlementFits, Today;
    if a == m.worker {
      var i := m.axis.Index();
      SettlementKept(w, a, i);
      var s := Settled(w.ledger, a, i, Today(w.now));
      SoundSabbath(s, w, a);
      SoundIgnores(s, Earned(s, i, m.delta).honor, s.locked, s.sabbath, Today(w.now),
                   DaysOf(w.ledger.active, a), DaysOf(w.ledger.volunteer, a), DaysOf(w.since, a), DaysOf(w.timely, a));
    }
  }

  lemma DayKept(w: World, sender: Addr, m: Call, a: Addr)
    requires m.AttestDay? && AddressSound(w, a) && Step(w.ledger, w.now, sender, m).Done?
    ensures AddressSound(Recorded(w, sender, m, Step(w.ledger, w.now, sender, m).ledger), a)
  {
    hide Sound, Today, Marked, DaysOf;
    var inTime := m.volunteerMet && m.day / 7 > CitizenAt(w.ledger.citizens, m.worker).lastWeek;
    DaysOfMarked(w.ledger.active, m.activeMet, m.worker, m.day, a);
    DaysOfMarked(w.ledger.volunteer, m.volunteerMet, m.worker, m.day, a);
    DaysOfMarked(w.since, m.activeMet, m.worker, m.day, a);
    DaysOfMarked(w.timely, inTime, m.worker, m.day, a);
    if a == m.worker {
      MarkKeepsSound(CitizenAt(w.ledger.citizens, a), Today(w.now), DaysOf(w.ledger.active, a),
                     DaysOf(w.ledger.volunteer, a), DaysOf(w.since, a), DaysOf(w.timely, a),
                     m.day, m.activeMet, m.volunteerMet);
    }
  }

  lemma JoinKept(w: World, sender: Addr, a: Addr)
    requires AddressSound(w, a) && Step(w.ledger, w.now, sender, Join).Done?
    ensures AddressSound(Recorded(w, sender, Join, Step(w.ledger, w.now, sender, Join).ledger), a)
  {
    hide Sound, Today;
    NewbornSound(Today(w.now), DaysOf(w.ledger.active, a), DaysOf(w.ledger.volunteer, a));
    assert Reborn(NOBODY, Today(w.now)) == Newborn(Today(w.now));
    assert Newborn(Today(w.now)).isCitizen;
    hide Newborn, Reborn;
  }

  lemma {:induction false} CallKept(w: World, sender: Addr, m: Call, a: Addr)
    requires AddressSound(w, a) && Step(w.ledger, w.now, sender, m).Done?
    ensures AddressSound(Recorded(w, sender, m, Step(w.ledger, w.now, sender, m).ledger), a)
  {
    match m
    case Join => JoinKept(w, sender, a);
    case BridgeMintCapital(_, _, _, _, _) => MintKept(w, sender, m, a);
    case AttestHonor(_, _, _, _, _, _) => HonorKept(w, sender, m, a);
    case AttestDay(_, _, _, _, _, _, _) => DayKept(w, sender, m, a);
    case SetSabbathDay(offset) =>
      hide Sound;
      var c := CitizenAt(w.ledger.citizens, a);
      if a == sender {
        SoundIgnores(c, c.honor, c.locked, offset, Today(w.now),
                     DaysOf(w.ledger.active, a), DaysOf(w.ledger.volunteer, a),
                     DaysOf(w.since, a), DaysOf(w.timely, a));
      }
    case _ =>
      hide Sound, Today;
  }

  lemma {:induction false} AddressKept(w: World, t: Timed, a: Addr)
    requires AddressSound(w, a) && w.now <= t.now
    ensures AddressSound(After(w, t), a)
  {
    TimePasses(w, t.now, a);
    hide AddressSound, Step, Recorded;
    if Step(w.ledger, t.now, t.sender, t.call).Done? {
      CallKept(w.(now := t.now), t.sender, t.call, a);
    }
  }

  lemma {:induction false} SoundAlways(attester: Addr, governance: Addr, calls: seq<Timed>, a: Addr)
    requires InOrder(calls)
    ensures var w := Run(Genesis(attester, governance), calls);
            AddressSound(w, a) && w.now == Clock(calls)
  {
    if calls != [] {
      hide AddressSound, Step, Recorded;
      SoundAlways(attester, governance, calls[..|calls| - 1], a);
      AddressKept(Run(Genesis(attester, governance), calls[..|calls| - 1]), calls[|calls| - 1], a);
    }
  }

  /** The rate and the weeks of a citizen are what the calendar says. */
  predicate OnCalendar(c: Citizen, today: nat, timely: set<nat>) {
    && (forall i | 0 <= i < 3 :: c.joinDay <= c.lastDay[i] <= today && c.rate[i] == Rate(c.lastDay[i] - c.joinDay))
    && c.lastWeek == LatestFullWeek(c)
    && c.weeks == |TimelyWeeks(c, timely)|
    && c.mult == Credits(10_000, c.weeks)
  }

  /**
   In every state the Solidity contract can reach, a citizen's rate depends only
   on the days since joining, and its week count and multiplier reflect exactly
   the processed weeks with a volunteer day attested in time.
   */
  lemma {:induction false} ReachableRecords(attester: Addr, governance: Addr, calls: seq<Timed>, a: Addr)
    requires InOrder(calls)
    ensures var w := Run(Genesis(attester, governance), calls);
            var c := CitizenAt(w.ledger.citizens, a);
            if c.isCitizen then OnCalendar(c, Today(w.now), DaysOf(w.timely, a)) else c == NOBODY
  {
    SoundAlways(attester, governance, calls, a);
    var w := Run(Genesis(attester, governance), calls);
    hide Run;
    var c := CitizenAt(w.ledger.citizens, a);
    if c.isCitizen {
      hide Today;
      SoundOnCalendar(c, Today(w.now), DaysOf(w.ledger.active, a), DaysOf(w.ledger.volunteer, a),
                      DaysOf(w.since, a), DaysOf(w.timely, a));
    }
    hide Sound, OnCalendar;
  }

  lemma SoundOnCalendar(c: Citizen, today: nat, active: set<nat>, vol: set<nat>, since: set<nat>, timely: set<nat>)
    requires Sound(c, today, active, vol, since, timely)
    ensures OnCalendar(c, today, timely)
  {
    hide Rate, Credits, TimelyWeeks, LatestFullWeek;
  }

  /** A volunteer day after the joining week is in time as on CosmWasm: until an axis is settled through its week. */
  lemma WhenWeeksClose(attester: Addr, governance: Addr, calls: seq<Timed>, a: Addr, d: nat)
    requires InOrder(calls) && CitizenAt(Run(Genesis(attester, governance), calls).ledger.citizens, a).isCitizen
    requires d / 7 > CitizenAt(Run(Genesis(attester, governance), calls).ledger.citizens, a).joinDay / 7
    ensures var w := Run(Genesis(attester, governance), calls);
            var c := CitizenAt(w.ledger.citizens, a);
            && (d / 7 > c.lastWeek <==> forall i | 0 <= i < 3 :: c.lastDay[i] < 7 * (d / 7) + 6)
            && (Today(w.now) < 7 * (d / 7) + 6 ==> d / 7 > c.lastWeek)
            && (Today(w.now) == 7 * (d / 7) + 6 ==>
                  (d / 7 > c.lastWeek <==> forall i | 0 <= i < 3 :: c.lastDay[i] < Today(w.now)))
  {
    ReachableRecords(attester, governance, calls, a);
    hide Run, InOrder, Today, LatestFullWeek, Rate, Credits, TimelyWeeks;
    OpenWeek(CitizenAt(Run(Genesis(attester, governance), calls).ledger.citizens, a), d / 7);
  }
}
