/**
 Why the turnover bound asks for a fixed sabbath: the sabbath may be moved at
 any time without settling first, so a citizen who moves it to the present day
 before every daily deposit never pays any decay.
 */
module Evasion {
  import opened Constants
  import opened Types
  import opened Decay
  import opened Volunteer
  import opened Citizens
  import opened Cosmwasm
  import opened Runs
  import Courses

  /** Who takes part, when the citizen joins, and what it deposits that day. */
  datatype Plan = Plan(attester: Addr, governance: Addr, denom: string, who: Addr, start: nat, deposit: nat)

  function Moment(p: Plan, k: nat): nat {
    p.start + k * SECONDS_PER_DAY
  }

  function Contribution(p: Plan, k: nat, amount: nat): Entry {
    Tx(Moment(p, k), Info(p.who, map[p.denom := amount]), ContributeCapital)
  }

  /** Join, deposit, and then every day move the sabbath to that day and deposit one unit. */
  function Evading(p: Plan, k: nat): seq<Entry> {
    if k == 0 then
      [Tx(p.start, Info(p.attester, map[]), AttestPoP(p.who)), Tx(p.start, Info(p.who, map[]), Join),
       Contribution(p, 0, p.deposit)]
    else
      Evading(p, k - 1) + [Tx(Moment(p, k), Info(p.who, map[]), SetSabbathDay(k % 7))] + [Contribution(p, k, 1)]
  }

  /** After k days the deposits are all there, settled through the present day. */
  predicate Intact(p: Plan, l: Ledger, k: nat) {
    && l.denom == p.denom && p.who in l.pop && p.who in l.citizens
    && DaysOf(l.active, p.who) == {} && DaysOf(l.volunteer, p.who) == {}
    && var c := l.citizens[p.who];
       && c.isCitizen && c.joinDay == Today(p.start) && c.lastDay[0] == Today(p.start) + k
       && c.honor[0] == 1 + p.deposit + k && c.locked == p.deposit + k
  }

  lemma MomentDay(p: Plan, k: nat)
    ensures Today(Moment(p, k)) == Today(p.start) + k
  {
  }

  lemma {:induction false} NoFlagsNoWeeks(last: nat, n: nat)
    ensures QualifiedAfter({}, last, n) == []
  {
    if n > 0 {
      NoFlagsNoWeeks(last, n - 1);
    }
  }

  lemma {:induction false} NoFlagsFit(max: nat, s: WeekState, n: nat)
    ensures WeeksFit(max, {}, s, n)
  {
    if n > 0 {
      NoFlagsFit(max, s, n - 1);
    }
  }

  /** Without volunteer days, processing weeks credits nothing. */
  lemma NothingProcessed(c: Citizen)
    ensures ProcessFits(U128_MAX, c, 0, {})
    ensures var c' := Processed(c, 0, {});
            c'.honor == c.honor && c'.lastDay == c.lastDay && c'.joinDay == c.joinDay && c'.isCitizen == c.isCitizen
            && c'.locked == c.locked
  {
    var n := WeeksDue(c.lastDay[0], c.lastWeek);
    NoFlagsFit(U128_MAX, WeekStateOf(c), n);
    NoFlagsNoWeeks(c.lastWeek, n);
    WeeksCredit({}, WeekStateOf(c), n);
    assert TopUps(c.honor[0], 0) == c.honor[0];
    hide Weeks, QualifiedAfter, WeeksFit, TopUps;
  }

  /** Settling no day, or one exempt day, takes nothing. */
  lemma NothingDecays(c: Citizen, today: nat)
    requires c.joinDay <= c.lastDay[0] <= today <= c.lastDay[0] + 1
    requires today > c.lastDay[0] ==> (today - c.joinDay) % 7 == c.sabbath
    ensures DecayFits(U128_MAX, c, 0, {}, today)
    ensures var c' := Decayed(c, 0, {}, today);
            c'.honor[0] == c.honor[0] && c'.lastDay[0] == today && c'.joinDay == c.joinDay
            && c'.isCitizen == c.isCitizen && c'.locked == c.locked
  {
    var s, a, n := ShieldOf(c, {}), AxisOf(c, 0), DaysDue(today, c.lastDay[0]);
    assert n == today - c.lastDay[0];
    if n == 1 {
      assert n - 1 == 0 && Days(s, a, n - 1) == a && DaysFit(U128_MAX, s, a, n - 1);
      assert Exempt(s, a.day + 1);
    }
    hide Exempt, NextRate, Keep, Undecayed;
  }

  /** A deposit on a day that is settled already, or on a sabbath one day later. */
  lemma ContributionIntact(p: Plan, l: Ledger, k: nat, amount: nat, c: Citizen)
    requires p.who in l.citizens && c == l.citizens[p.who] && c.isCitizen && p.who in l.pop && l.denom == p.denom
    requires DaysOf(l.active, p.who) == {} && DaysOf(l.volunteer, p.who) == {} && amount > 0
    requires c.joinDay <= c.lastDay[0] <= Today(Moment(p, k)) <= c.lastDay[0] + 1
    requires Today(Moment(p, k)) > c.lastDay[0] ==> (Today(Moment(p, k)) - c.joinDay) % 7 == c.sabbath
    requires c.honor[0] + amount <= U128_MAX && c.locked + amount <= U128_MAX
    ensures var o := Step(l, Moment(p, k), Info(p.who, map[p.denom := amount]), ContributeCapital);
            && o.Done? && p.who in o.ledger.citizens
            && o.ledger == l.(citizens := o.ledger.citizens, balance := o.ledger.balance)
            && var c' := o.ledger.citizens[p.who];
               && c'.isCitizen && c'.joinDay == c.joinDay && c'.lastDay[0] == Today(Moment(p, k))
               && c'.honor[0] == c.honor[0] + amount && c'.locked == c.locked + amount
  {
    var today := Today(Moment(p, k));
    hide Today, Moment;
    NothingDecays(c, today);
    var d := Decayed(c, 0, {}, today);
    NothingProcessed(Earned(d, 0, amount));
    hide Decayed, Processed, DecayFits, ProcessFits, DaysOf;
  }

  lemma OpeningIntact(p: Plan)
    requires p.deposit > 0 && 1 + p.deposit <= U128_MAX
    ensures Intact(p, Run(Genesis(p.attester, p.governance, p.denom), Evading(p, 0)).ledger, 0)
  {
    var w0, es := Genesis(p.attester, p.governance, p.denom), Evading(p, 0);
    assert es == [] + [es[0]] + [es[1]] + [es[2]];
    RunNext(w0, [], es[0]);
    RunNext(w0, [es[0]], es[1]);
    RunNext(w0, [es[0], es[1]], es[2]);
    var w1 := After(w0, es[0]);
    assert [] + [es[0]] == [es[0]] && [es[0]] + [es[1]] == [es[0], es[1]] && Run(w0, []) == w0;
    var w2 := After(w1, es[1]);
    JoinedLedger(p, w1, w2);
    hide Run, Intact;
    DepositedIntact(p, w2, es[2]);
  }

  lemma JoinedLedger(p: Plan, w1: World, w2: World)
    requires w1 == After(Genesis(p.attester, p.governance, p.denom), Evading(p, 0)[0])
    requires w2 == After(w1, Evading(p, 0)[1])
    ensures var l := w2.ledger;
            l.pop == {p.who} && l.citizens == map[p.who := Newborn(Today(p.start))] && l.denom == p.denom
            && l.active == map[] && l.volunteer == map[]
  {
    assert w1.ledger.pop == {p.who} && w1.ledger.citizens == map[];
    hide Newborn, Today;
  }

  lemma NewbornCapital(today: nat)
    ensures var c := Newborn(today);
            c.isCitizen && c.honor[0] == 1 && c.lastDay[0] == c.joinDay == today && c.locked == 0
  {
  }

  lemma DepositedIntact(p: Plan, w: World, e: Entry)
    requires p.deposit > 0 && 1 + p.deposit <= U128_MAX && e == Contribution(p, 0, p.deposit)
    requires w.ledger.pop == {p.who} && w.ledger.citizens == map[p.who := Newborn(Today(p.start))]
    requires w.ledger.denom == p.denom && w.ledger.active == map[] && w.ledger.volunteer == map[]
    ensures Intact(p, After(w, e).ledger, 0)
  {
    MomentDay(p, 0);
    NewbornCapital(Today(p.start));
    hide Newborn, Today, Step;
    ContributionIntact(p, w.ledger, 0, p.deposit, w.ledger.citizens[p.who]);
  }

  /** One more day: the sabbath is moved, and one unit deposited. */
  lemma DayIntact(p: Plan, w: World, k: nat)
    requires k > 0 && Intact(p, w.ledger, k - 1) && 1 + p.deposit + k <= U128_MAX
    ensures var w' := After(w, Tx(Moment(p, k), Info(p.who, map[]), SetSabbathDay(k % 7)));
            Intact(p, After(w', Contribution(p, k, 1)).ledger, k)
  {
    var w' := After(w, Tx(Moment(p, k), Info(p.who, map[]), SetSabbathDay(k % 7)));
    MomentDay(p, k);
    assert w'.ledger.citizens[p.who] == w.ledger.citizens[p.who].(sabbath := k % 7);
    hide Today, Step, Moment;
    ContributionIntact(p, w'.ledger, k, 1, w'.ledger.citizens[p.who]);
  }

  lemma {:induction false} EvadingIntact(p: Plan, k: nat)
    requires p.deposit > 0 && 1 + p.deposit + k <= U128_MAX
    ensures Intact(p, Run(Genesis(p.attester, p.governance, p.denom), Evading(p, k)).ledger, k)
  {
    if k == 0 {
      OpeningIntact(p);
    } else {
      EvadingIntact(p, k - 1);
      var w0, before := Genesis(p.attester, p.governance, p.denom), Evading(p, k - 1);
      var move := Tx(Moment(p, k), Info(p.who, map[]), SetSabbathDay(k % 7));
      hide Run, After, Intact, Moment, Contribution, Genesis;
      DayIntact(p, Run(w0, before), k);
      RunNext(w0, before, move);
      RunNext(w0, before + [move], Contribution(p, k, 1));
    }
  }

  lemma {:induction false} PowersApart(k: nat)
    requires k > 0
    ensures Pow(9_899, k) < Pow(10_000, k)
  {
    if k > 1 {
      PowersApart(k - 1);
    } else {
      assert Pow(9_899, k - 1) == 1 && Pow(10_000, k - 1) == 1;
    }
  }

  lemma KeptBreaksBound(h: nat, gains: nat, p: nat, q: nat)
    requires h > 0 && q < p
    ensures (h + gains) * p > gains * p + h * q
  {
    assert (h + gains) * p == h * p + gains * p;
    assert h * p > h * q;
  }

  /**
   The run that evades decay: by moving the sabbath to the present day before
   every deposit a citizen keeps every unit for any number of days, and so
   breaks the bound that holds for citizens who leave their sabbath alone.
   */
  lemma MovingTheSabbathEvades(p: Plan, k: nat)
    requires p.deposit > 0 && 1 + p.deposit + 7 * k <= U128_MAX && k > 0
    ensures var l := Run(Genesis(p.attester, p.governance, p.denom), Evading(p, 7 * k)).ledger;
            && p.who in l.citizens
            && l.citizens[p.who].lastDay[0] == l.citizens[p.who].joinDay + 7 * k
            && l.citizens[p.who].honor[0] == 1 + p.deposit + 7 * k
            && !Courses.Remains(1 + p.deposit, 7 * k, l.citizens[p.who].honor[0], 6 * k)
  {
    EvadingIntact(p, 7 * k);
    hide Run, Evading, DaysOf, Today;
    PowersApart(6 * k);
    KeptBreaksBound(1 + p.deposit, 7 * k, Pow(10_000, 6 * k), Pow(9_899, 6 * k));
  }
}
