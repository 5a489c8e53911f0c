/**
 When an accepted volunteer attestation counts. Settlement runs through the
 present day, so a settlement on the last day of a week closes the week while
 that day still runs: the week is credited before it is over, and what is
 attested of it later that day is accepted and lost.
 */
module Attestations {
  import opened Constants
  import opened Types
  import opened Decay
  import opened Volunteer
  import opened Citizens
  import opened Cosmwasm
  import opened Runs
  import opened Records
  import RunInvariants

  // ---------- when a week closes ----------

  lemma ReachableWeeks(w: World, a: Addr)
    requires Reachable(w) && a in w.ledger.citizens
    ensures var c := w.ledger.citizens[a];
            c.lastWeek == LatestFullWeek(c) && forall i | 0 <= i < 3 :: c.lastDay[i] <= Today(w.now)
  {
    RunInvariants.WeekAccounting(w, a);
    forall i | 0 <= i < 3
      ensures w.ledger.citizens[a].lastDay[i] <= Today(w.now)
    {
      RunInvariants.RateIsScheduleFree(w, a, i);
    }
  }

  /**
   A volunteer day after the joining week is attested in time exactly if no
   axis has been settled through the last day of its week: always before that
   day, and on that day as long as nothing has been settled that day.
   */
  lemma WhenWeeksClose(w: World, a: Addr, d: nat)
    requires Reachable(w) && a in w.ledger.citizens && d / 7 > w.ledger.citizens[a].joinDay / 7
    ensures var c := w.ledger.citizens[a];
            && (d / 7 > c.lastWeek <==> forall i | 0 <= i < 3 :: c.lastDay[i] < 7 * (d / 7) + 6)
            && (Today(w.now) < 7 * (d / 7) + 6 ==> d / 7 > c.lastWeek)
            && (Today(w.now) == 7 * (d / 7) + 6 ==>
                  (d / 7 > c.lastWeek <==> forall i | 0 <= i < 3 :: c.lastDay[i] < Today(w.now)))
  {
    ReachableWeeks(w, a);
    hide Reachable, Today, LatestFullWeek;
    OpenWeek(w.ledger.citizens[a], d / 7);
  }

  /** The week has been processed and credited. */
  predicate Credited(w: World, a: Addr, week: nat) {
    a in w.ledger.citizens && var c := w.ledger.citizens[a];
    c.joinDay / 7 <= c.lastWeek && week in TimelyWeeks(c, DaysOf(w.timely, a))
  }

  lemma CreditedIs(w: World, a: Addr, week: nat)
    requires a in w.ledger.citizens && w.ledger.citizens[a].joinDay / 7 <= w.ledger.citizens[a].lastWeek
    ensures var c := w.ledger.citizens[a];
            Credited(w, a, week) <==> c.joinDay / 7 < week <= c.lastWeek && Qualified(DaysOf(w.timely, a), week)
  {
    var c := w.ledger.citizens[a];
    QualifiedAfterMembers(DaysOf(w.timely, a), c.joinDay / 7, c.lastWeek - c.joinDay / 7);
    hide QualifiedAfter, Qualified;
  }

  /**
   A credited week is over, unless its last day is the present day, some axis
   has already been settled today, and it has a timely volunteer day.
   */
  lemma CreditedWhileRunning(w: World, a: Addr, week: nat)
    requires Reachable(w) && a in w.ledger.citizens
    ensures var c, today := w.ledger.citizens[a], Today(w.now);
            Credited(w, a, week) && today < 7 * week + 7
            <==> && today == 7 * week + 6 && week > c.joinDay / 7
                 && (exists i | 0 <= i < 3 :: c.lastDay[i] == today)
                 && Qualified(DaysOf(w.timely, a), week)
  {
    ReachableWeeks(w, a);
    var c, today := w.ledger.citizens[a], Today(w.now);
    CreditedIs(w, a, week);
    hide Reachable, Today, Qualified, Credited;
    if week > c.joinDay / 7 {
      OpenWeek(c, week);
      hide LatestFullWeek;
    }
  }

  // ---------- what becomes of an attestation ----------

  /** The same citizenship, later: weeks only close, and a closed week gets no more timely days. */
  predicate Onward(w: World, w': World, a: Addr) {
    && a in w.ledger.citizens && a in w'.ledger.citizens
    && var c, c' := w.ledger.citizens[a], w'.ledger.citizens[a];
       && c'.joinDay == c.joinDay && c'.lastWeek >= c.lastWeek
       && DaysOf(w.timely, a) <= DaysOf(w'.timely, a)
       && forall d | d in DaysOf(w'.timely, a) && d / 7 <= c.lastWeek :: d in DaysOf(w.timely, a)
  }

  lemma SettledOnward(l: Ledger, a: Addr, i: nat, amount: nat, today: nat)
    requires i < 3 && a in l.citizens
    ensures var c, c' := l.citizens[a], Settled(l, a, i, amount, today);
            c'.joinDay == c.joinDay && c'.lastWeek >= c.lastWeek
  {
    var d := Earned(Decayed(l.citizens[a], i, DaysOf(l.active, a), today), i, amount);
    WeeksCredit(DaysOf(l.volunteer, a), WeekStateOf(d), WeeksDue(d.lastDay[i], d.lastWeek));
    hide Weeks, Days;
  }

  lemma SettlementOnward(w: World, info: Info, m: Msg, l: Ledger, paid: nat, a: Addr)
    requires a in w.ledger.citizens && Step(w.ledger, w.now, info, m) == Done(l, paid)
    requires m.ContributeCapital? || m.AttestHonor?
    ensures Onward(w, Recorded(w, info, m, l, paid), a)
  {
    hide Settled, SettlementFits, Today, Attached, DaysOf;
    if m.ContributeCapital? && a == info.sender {
      SettledOnward(w.ledger, a, 0, info.funds[w.ledger.denom], Today(w.now));
    } else if m.AttestHonor? && a == m.worker {
      SettledOnward(w.ledger, a, m.axis.Index(), m.delta, Today(w.now));
    }
  }

  lemma DayOnward(w: World, info: Info, m: Msg, l: Ledger, paid: nat, a: Addr)
    requires a in w.ledger.citizens && m.AttestDay? && Step(w.ledger, w.now, info, m) == Done(l, paid)
    ensures Onward(w, Recorded(w, info, m, l, paid), a)
  {
    var inTime := m.volunteerMet && m.day / 7 > w.ledger.citizens[m.worker].lastWeek;
    hide Today, Attached, Marked, DaysOf;
    DaysOfMarked(w.timely, inTime, m.worker, m.day, a);
  }

  lemma StepOnward(w: World, info: Info, m: Msg, l: Ledger, paid: nat, a: Addr)
    requires a in w.ledger.citizens && Step(w.ledger, w.now, info, m) == Done(l, paid)
    requires info.sender == a ==> !m.Ragequit?
    ensures Onward(w, Recorded(w, info, m, l, paid), a)
  {
    if m.ContributeCapital? || m.AttestHonor? {
      hide Step, Recorded, Onward;
      SettlementOnward(w, info, m, l, paid, a);
    } else if m.AttestDay? {
      hide Step, Recorded, Onward;
      DayOnward(w, info, m, l, paid, a);
    } else {
      hide Newborn, Today, Attached, DaysOf, BadgesOf;
      OtherJoins(w.timely, info.sender, a);
    }
  }

  lemma OtherJoins(flags: DayFlags, who: Addr, a: Addr)
    ensures a != who ==> DaysOf(flags[who := {}], a) == DaysOf(flags, a)
  {
  }

  lemma EntryOnward(w: World, e: Entry, a: Addr)
    requires a in w.ledger.citizens && Stays(e, a)
    ensures Onward(w, After(w, e), a)
  {
    hide Step, Recorded, DaysOf;
    if e.Tx? {
      var o := Step(w.ledger, e.now, e.info, e.msg);
      if o.Done? {
        StepOnward(w.(now := e.now), e.info, e.msg, o.ledger, o.paid, a);
        RunInvariants.RecordedIgnoresTime(w, e.now, e.info, e.msg, o.ledger, o.paid);
      }
    }
  }

  lemma {:induction false} RunOnward(w: World, entries: seq<Entry>, a: Addr)
    requires a in w.ledger.citizens && AllStay(entries, a)
    ensures Onward(w, Run(w, entries), a)
  {
    if entries != [] {
      var before, e := entries[..|entries| - 1], entries[|entries| - 1];
      assert e in entries;
      RunOnward(w, before, a);
      hide After, Stays, DaysOf;
      EntryOnward(Run(w, before), e, a);
    }
  }

  /** A message that attests volunteering on a day after the joining week, and is accepted. */
  predicate Attested(w: World, now: nat, info: Info, m: Msg) {
    && m.AttestDay? && m.volunteerMet && Step(w.ledger, now, info, m).Done?
    && m.worker in w.ledger.citizens && m.day / 7 > w.ledger.citizens[m.worker].joinDay / 7
  }

  lemma AttestationRecorded(w: World, now: nat, info: Info, m: Msg)
    requires Attested(w, now, info, m)
    ensures var w', a := After(w, Tx(now, info, m)), m.worker;
            && w'.ledger.citizens == w.ledger.citizens
            && m.day in DaysOf(w'.ledger.volunteer, a)
            && DaysOf(w'.timely, a)
               == DaysOf(w.timely, a) + if m.day / 7 > w.ledger.citizens[a].lastWeek then {m.day} else {}
  {
    hide Today, Attached;
  }

  /**
   Whatever happens afterwards, short of leaving: once the week of an accepted
   volunteer attestation is processed, it is credited exactly if it was still
   unprocessed at the attestation, or had been earned by another timely day.
   */
  lemma CountsIffOpen(w: World, now: nat, info: Info, m: Msg, entries: seq<Entry>)
    requires Reachable(w) && Attested(w, now, info, m) && AllStay(entries, m.worker)
    requires var v := Run(After(w, Tx(now, info, m)), entries);
             m.worker in v.ledger.citizens ==> v.ledger.citizens[m.worker].lastWeek >= m.day / 7
    ensures Credited(Run(After(w, Tx(now, info, m)), entries), m.worker, m.day / 7)
            <==> m.day / 7 > w.ledger.citizens[m.worker].lastWeek || Qualified(DaysOf(w.timely, m.worker), m.day / 7)
  {
    var a, week := m.worker, m.day / 7;
    ReachableWeeks(w, a);
    AttestationRecorded(w, now, info, m);
    var w' := After(w, Tx(now, info, m));
    hide Reachable, Attested, After, Step, Run, DaysOf;
    RunOnward(w', entries, a);
    CreditedIs(Run(w', entries), a, week);
    hide AllStay, Credited;
    var early, late := DaysOf(w'.timely, a), DaysOf(Run(w', entries).timely, a);
    if week > w.ledger.citizens[a].lastWeek {
      assert m.day in late;
    } else {
      assert Qualified(late, week) <==> Qualified(early, week);
    }
  }

  /** An attestation for a closed week without a timely day is lost for good. */
  lemma LostOnceClosed(w: World, now: nat, info: Info, m: Msg, entries: seq<Entry>)
    requires Reachable(w) && Attested(w, now, info, m) && AllStay(entries, m.worker)
    requires m.day / 7 <= w.ledger.citizens[m.worker].lastWeek && !Qualified(DaysOf(w.timely, m.worker), m.day / 7)
    ensures !Credited(Run(After(w, Tx(now, info, m)), entries), m.worker, m.day / 7)
  {
    AttestationRecorded(w, now, info, m);
    var w' := After(w, Tx(now, info, m));
    hide Reachable, After, Step, Run, DaysOf, Credited, AllStay, Qualified;
    RunOnward(w', entries, m.worker);
    CountsIffOpen(w, now, info, m, entries);
  }

  // ---------- the run in which one is lost ----------

  /** Who takes part, when the worker joins, and when, on the last day of the next week, the rest happens. */
  datatype Plan = Plan(
    attester: Addr,
    governance: Addr,
    denom: string,
    worker: Addr,
    job: Id,
    nonce: Id,
    start: nat,
    later: nat,
    delta: nat)

  function JoinDay(p: Plan): nat {
    Today(p.start)
  }

  function Week(p: Plan): nat {
    JoinDay(p) / 7 + 1
  }

  function LastDay(p: Plan): nat {
    7 * Week(p) + 6
  }

  predicate Proper(p: Plan) {
    p.job != p.nonce && p.start <= p.later && Today(p.later) == LastDay(p) && p.delta <= U128_MAX
  }

  function Work(p: Plan): Entry {
    Tx(p.later, Info(p.attester, map[]), AttestHonor(p.worker, Labor, p.delta, p.job))
  }

  function Service(p: Plan): Msg {
    AttestDay(p.worker, LastDay(p), false, true, p.nonce)
  }

  function Volunteering(p: Plan): Entry {
    Tx(p.later, Info(p.attester, map[]), Service(p))
  }

  function Opening(p: Plan): seq<Entry> {
    [Tx(p.start, Info(p.attester, map[]), AttestPoP(p.worker)), Tx(p.start, Info(p.worker, map[]), Join)]
  }

  function Opened(p: Plan): World {
    var l := Ledger(p.attester, p.governance, p.denom, map[p.worker := Newborn(JoinDay(p))], {p.worker}, {},
                    map[], map[], {}, 0);
    World(l, p.start, 0, map[], map[], map[p.worker := {}], map[p.worker := {}])
  }

  lemma OpeningRuns(p: Plan)
    ensures Run(Genesis(p.attester, p.governance, p.denom), Opening(p)) == Opened(p)
  {
    var w0, es := Genesis(p.attester, p.governance, p.denom), Opening(p);
    assert [] + [es[0]] == [es[0]] && [es[0]] + [es[1]] == es && Run(w0, []) == w0;
    RunNext(w0, [], es[0]);
    RunNext(w0, [es[0]], es[1]);
    var w1 := After(w0, es[0]);
    assert w1 == World(w0.ledger.(pop := {p.worker}), p.start, 0, map[], map[], map[], map[]);
    hide Run, Newborn, Today;
  }

  lemma NewbornLabor(join: nat, today: nat)
    requires today == 7 * (join / 7) + 13
    ensures var c := Newborn(join);
            && DecayFits(U128_MAX, c, 1, {}, today)
            && var d := Decayed(c, 1, {}, today);
               && d.honor == [1, 0, 0] && d.lastDay[1] == today && d.lastWeek == join / 7
               && d.mult == 10_000 && d.weeks == 0 && d.joinDay == join
  {
    var c := Newborn(join);
    var s, a, n := ShieldOf(c, {}), AxisOf(c, 1), DaysDue(today, c.lastDay[1]);
    assert n == today - join && a == AxisState(0, BASE_DECAY_BP, join);
    hide Days, DaysFit;
    DaysDay(s, a, n);
    DaysShrink(s, a, n);
    SmallHonorFits(U128_MAX, s, a, n);
  }

  lemma OneWeekDue(d: Citizen, join: nat, vol: set<nat>)
    requires d.honor[0] == 1 && d.lastDay[1] == 7 * (join / 7) + 13 && d.lastWeek == join / 7
    requires d.mult == 10_000 && d.weeks == 0
    ensures ProcessFits(U128_MAX, d, 1, vol)
    ensures Processed(d, 1, vol).lastWeek == join / 7 + 1
    ensures Processed(d, 1, vol).weeks == if Qualified(vol, join / 7 + 1) then 1 else 0
    ensures Processed(d, 1, vol).joinDay == d.joinDay && Processed(d, 1, vol).lastDay == d.lastDay
  {
    assert WeeksDue(d.lastDay[1], d.lastWeek) == 1;
    var one := WeeksDue(d.lastDay[1], d.lastWeek);
    assert Weeks(vol, WeekStateOf(d), one - 1) == WeekStateOf(d) && WeeksFit(U128_MAX, vol, WeekStateOf(d), one - 1);
    hide Qualified;
  }

  /** The labor attested on the last day of the week is accepted, and closes the week. */
  lemma WorkCloses(p: Plan, w: World)
    requires Proper(p) && w.ledger.attester == p.attester && p.worker in w.ledger.pop && p.job !in w.ledger.consumed
    requires p.worker in w.ledger.citizens && w.ledger.citizens[p.worker] == Newborn(JoinDay(p))
    requires DaysOf(w.ledger.active, p.worker) == {}
    ensures var w' := After(w, Work(p));
            && p.worker in w'.ledger.citizens
            && w' == w.(ledger := w'.ledger, now := p.later, donated := w'.donated)
            && w'.ledger.attester == p.attester && w'.ledger.pop == w.ledger.pop
            && w'.ledger.volunteer == w.ledger.volunteer
            && w'.ledger.consumed == w.ledger.consumed + {p.job}
            && var c := w'.ledger.citizens[p.worker];
               && c.joinDay == JoinDay(p) && c.lastWeek == Week(p) && c.lastDay[1] == LastDay(p)
               && c.weeks == if Qualified(DaysOf(w.ledger.volunteer, p.worker), Week(p)) then 1 else 0
  {
    var vol := DaysOf(w.ledger.volunteer, p.worker);
    NewbornLabor(JoinDay(p), LastDay(p));
    var d := Decayed(Newborn(JoinDay(p)), 1, {}, LastDay(p));
    OneWeekDue(Earned(d, 1, p.delta), JoinDay(p), vol);
    hide Newborn, Decayed, Processed, DecayFits, ProcessFits, Qualified, Today, DaysOf;
  }

  /** Labor first, then volunteering, or the other way round. */
  function WorkFirst(p: Plan): World {
    Run(Genesis(p.attester, p.governance, p.denom), Opening(p) + [Work(p)])
  }

  function ServiceFirst(p: Plan): World {
    Run(Genesis(p.attester, p.governance, p.denom), Opening(p) + [Volunteering(p)] + [Work(p)])
  }

  lemma WorkFirstReachable(p: Plan)
    requires p.start <= p.later
    ensures Reachable(WorkFirst(p))
  {
    var o := Opening(p);
    assert [] + [o[0]] == [o[0]] && [o[0]] + [o[1]] == o;
    InOrderNext(0, [], o[0]);
    InOrderNext(0, [o[0]], o[1]);
    InOrderNext(0, o, Work(p));
    hide Run, InOrder, Clock;
  }

  lemma WorkFirstState(p: Plan)
    requires Proper(p)
    ensures var w := WorkFirst(p);
            && p.worker in w.ledger.citizens && w.ledger.citizens[p.worker].joinDay == JoinDay(p)
            && w.ledger.citizens[p.worker].lastWeek == Week(p)
            && w.ledger.pop == {p.worker} && w.ledger.attester == p.attester && w.ledger.consumed == {p.job}
            && w.timely == map[p.worker := {}]
  {
    OpeningRuns(p);
    RunNext(Genesis(p.attester, p.governance, p.denom), Opening(p), Work(p));
    var w := Opened(p);
    assert w.ledger.pop == {p.worker} && w.ledger.consumed == {} && w.ledger.active == map[];
    hide Run, Opening, Newborn, After, Today;
    WorkCloses(p, w);
  }

  lemma ServiceAccepted(p: Plan, w: World)
    requires Proper(p) && p.worker in w.ledger.citizens && w.ledger.citizens[p.worker].joinDay == JoinDay(p)
    requires w.ledger.pop == {p.worker} && w.ledger.attester == p.attester && p.nonce !in w.ledger.consumed
    ensures Attested(w, p.later, Info(p.attester, map[]), Service(p)) && LastDay(p) / 7 == Week(p)
  {
    var today := Today(p.later);
    assert JoinDay(p) <= LastDay(p) == today;
    hide Today, Marked;
  }

  /**
   On the last day of a week labor is attested, and then volunteering: the
   attestation is accepted, and no run whatever leads to the week being credited.
   */
  lemma AttestationLost(p: Plan, entries: seq<Entry>)
    requires Proper(p) && AllStay(entries, p.worker)
    ensures Attested(WorkFirst(p), p.later, Info(p.attester, map[]), Service(p))
    ensures !Credited(Run(After(WorkFirst(p), Volunteering(p)), entries), p.worker, Week(p))
  {
    var w := WorkFirst(p);
    WorkFirstReachable(p);
    WorkFirstState(p);
    assert DaysOf(w.timely, p.worker) == {};
    hide WorkFirst, Reachable, Attested, Run, Credited, After, DaysOf, AllStay;
    ServiceAccepted(p, w);
    LostOnceClosed(w, p.later, Info(p.attester, map[]), Service(p), entries);
  }

  /** In the other order the week is credited, before its last day is over. */
  lemma CreditedBeforeOver(p: Plan)
    requires Proper(p)
    ensures p.worker in ServiceFirst(p).ledger.citizens && ServiceFirst(p).ledger.citizens[p.worker].weeks == 1
    ensures Credited(ServiceFirst(p), p.worker, Week(p)) && Today(ServiceFirst(p).now) < 7 * Week(p) + 7
  {
    var w0, o := Genesis(p.attester, p.governance, p.denom), Opening(p);
    OpeningRuns(p);
    RunNext(w0, o, Volunteering(p));
    RunNext(w0, o + [Volunteering(p)], Work(p));
    var w := After(Opened(p), Volunteering(p));
    assert Newborn(JoinDay(p)).joinDay == JoinDay(p) && Newborn(JoinDay(p)).lastWeek == JoinDay(p) / 7;
    ServiceAccepted(p, Opened(p));
    AttestationRecorded(Opened(p), p.later, Info(p.attester, map[]), Service(p));
    assert Qualified(DaysOf(w.timely, p.worker), Week(p))
        && Qualified(DaysOf(w.ledger.volunteer, p.worker), Week(p)) by {
      assert LastDay(p) in DaysOf(w.timely, p.worker) && LastDay(p) in DaysOf(w.ledger.volunteer, p.worker);
      assert LastDay(p) / 7 == Week(p);
    }
    assert w.ledger.attester == p.attester && w.ledger.pop == {p.worker} && w.ledger.consumed == {p.nonce}
        && w.ledger.active == map[] by {
      hide Newborn, Today, Run;
    }
    hide Run, Newborn, After, Today, Qualified, Credited, Attested;
    WorkCloses(p, w);
    CreditedIs(ServiceFirst(p), p.worker, Week(p));
  }
}
