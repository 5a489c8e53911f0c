/** A short run after which the two contracts, documented as bit identical, disagree. */
module Divergence {
  import opened Constants
  import opened Types
  import opened Decay
  import opened Volunteer
  import opened Citizens
  import opened Lockstep
  import opened Overflow
  import R = Cosmwasm
  import S = Solidity
  import Twins

  /** Who and what takes part, when the worker joins, and what is deposited when; names and dates do not matter. */
  datatype Cast = Cast(
    attester: Addr,
    governance: Addr,
    worker: Addr,
    denom: string,
    pop: Id,
    day: Id,
    lock: Id,
    born: nat,
    later: nat,
    amount: nat)

  function JoinDay(c: Cast): nat {
    Today(c.born)
  }

  /** The first day of the week after the joining week. */
  function VolunteerDay(c: Cast): nat {
    7 * (JoinDay(c) / 7) + 7
  }

  /** The identifiers differ, and the deposit comes on the last day of that week and earns a bonus above the minimum. */
  predicate Proper(c: Cast) {
    && c.pop != c.day && c.pop != c.lock && c.day != c.lock
    && Today(c.later) == VolunteerDay(c) + 6
    && c.amount >= 10_100 && Bounded(c.amount)
  }

  /** A worker joins, has volunteered on the first day of the next week, and deposits on its last. */
  function Trace(c: Cast): seq<Timed> {
    [Timed(c.born, Action.AttestPoP(c.attester, c.worker, c.pop, c.born)),
     Timed(c.born, Action.Join(c.worker)),
     Timed(c.later, Action.AttestDay(c.attester, c.worker, VolunteerDay(c), false, true, c.day, c.later)),
     Timed(c.later, Action.Deposit(c.worker, c.amount, c.lock, c.attester, c.later))]
  }

  function After1(c: Cast): Pair {
    Pair(R.Ledger(c.attester, c.governance, c.denom, map[], {c.worker}, {}, map[], map[], {}, 0),
         S.Ledger(c.attester, c.governance, map[], {c.worker}, {}, map[], map[], {c.pop}), [true], [true])
  }

  function After2(c: Cast): Pair {
    var p, citizens := After1(c), map[c.worker := Newborn(JoinDay(c))];
    Pair(p.r.(citizens := citizens), p.s.(citizens := citizens), [true, true], [true, true])
  }

  function After3(c: Cast): Pair {
    var p, volunteer := After2(c), map[c.worker := {VolunteerDay(c)}];
    Pair(p.r.(volunteer := volunteer, consumed := {c.day}), p.s.(volunteer := volunteer, consumed := {c.pop, c.day}),
         [true, true, true], [true, true, true])
  }

  lemma First(c: Cast)
    ensures Both(Start(c.attester, c.governance, c.denom), Trace(c)[0]) == After1(c)
  {
    hide Today;
  }

  lemma Second(c: Cast)
    ensures Both(After1(c), Trace(c)[1]) == After2(c)
  {
    assert S.Reborn(S.NOBODY, JoinDay(c)) == Newborn(JoinDay(c));
    hide Newborn, Today, S.Reborn;
  }

  lemma Third(c: Cast)
    requires Proper(c)
    ensures Both(After2(c), Trace(c)[2]) == After3(c)
  {
    var who, d := c.worker, VolunteerDay(c);
    assert Newborn(JoinDay(c)).joinDay == JoinDay(c) && Newborn(JoinDay(c)).isCitizen;
    assert JoinDay(c) <= d <= Today(c.later);
    assert DaysOf(map[], who) + {d} == {d};
    assert Marked(map[], who, d) == map[who := {d}];
    hide Newborn, Today, Marked, VolunteerDay, JoinDay, Bounded;
  }

  /** A single unit of honor does not survive the first unprotected day. */
  lemma OneUnitGone(s: Shield, a: AxisState, n: nat)
    requires a.honor == 1 && a.rate == BASE_DECAY_BP && !Exempt(s, a.day + 1) && n >= 1
    ensures Days(s, a, n).honor == 0
  {
    var one := n - (n - 1);
    assert one - 1 == 0;
    assert Days(s, a, one).honor == 0;
    DaysCompose(s, a, one, n - 1);
    DaysShrink(s, Days(s, a, one), n - 1);
  }

  /** The newborn's capital after n days without active ones. */
  lemma OneUnitDecays(c: Citizen, join: nat, today: nat)
    requires c == Newborn(join) && join < today <= join + 90
    ensures DecayFits(U128_MAX, c, 0, {}, today) && Spent(Decayed(c, 0, {}, today), join, today)
  {
    var s, a, n := ShieldOf(c, {}), AxisOf(c, 0), DaysDue(today, c.lastDay[0]);
    assert n == today - join && a == AxisState(1, BASE_DECAY_BP, join) && !Exempt(s, join + 1);
    hide Newborn, DaysDue, Exempt, Days, DaysFit;
    OneUnitGone(s, a, n);
    DaysDay(s, a, n);
    SmallHonorFits(U128_MAX, s, a, n);
    WithAxisSpent(c, Days(s, a, n), join, today);
  }

  /** The newborn's record with its capital settled away. */
  predicate Spent(d: Citizen, join: nat, today: nat) {
    && d.honor == [0, 0, 0] && d.lastDay[0] == today && d.lastWeek == join / 7 && d.mult == 10_000 && d.locked == 0
  }

  lemma WithAxisSpent(c: Citizen, a: AxisState, join: nat, today: nat)
    requires c == Newborn(join) && a.honor == 0 && a.day == today
    ensures Spent(WithAxis(c, 0, a), join, today)
  {
  }

  lemma OneWeekQualifies(q: nat)
    ensures QualifiedAfter({7 * q + 7}, q, 1) == [q + 1]
  {
    assert 7 * q + 7 in {7 * q + 7} && (7 * q + 7) / 7 == q + 1;
    assert QualifiedAfter({7 * q + 7}, q, 0) == [];
  }

  /** What one credited week makes of the two orders of events. */
  lemma OneBonus(d: Citizen, join: nat, n: nat)
    requires Spent(d, join, 7 * (join / 7) + 13) && n >= 10_100 && Bounded(n)
    ensures Processed(Earned(d, 0, n), 0, {7 * (join / 7) + 7}).honor[0] == n + n / 100
    ensures Earned(Processed(d, 0, {7 * (join / 7) + 7}), 0, n).honor[0] == n + 100
    ensures ProcessFits(U128_MAX, Earned(d, 0, n), 0, {7 * (join / 7) + 7})
  {
    var q, vol, e := join / 7, {7 * (join / 7) + 7}, Earned(d, 0, n);
    assert WeeksDue(7 * q + 13, q) == 1;
    OneWeekQualifies(q);
    assert Qualified(vol, q + 1) by {
      assert 7 * q + 7 in vol;
    }
    OneWeek(vol, WeekStateOf(e));
    OneWeek(vol, WeekStateOf(d));
    hide Weeks, WeeksFit, Qualified, WeeksDue;
    assert n * 100 / 10_000 == n / 100;
  }

  lemma OneWeek(vol: set<nat>, s: WeekState)
    ensures Weeks(vol, s, 1) == WeekStep(vol, s)
    ensures WeeksFit(U128_MAX, vol, s, 1) == WeekFits(U128_MAX, vol, s)
  {
    assert Weeks(vol, s, 0) == s;
  }

  /** Both contracts accept all four messages, and end with different capital honor. */
  lemma Diverges(c: Cast)
    requires Proper(c)
    ensures var p := RunBoth(Start(c.attester, c.governance, c.denom), Trace(c));
            && p.acceptedByR == p.acceptedByS == [true, true, true, true]
            && c.worker in p.r.citizens && p.r.citizens[c.worker].honor[0] == c.amount + c.amount / 100
            && c.worker in p.s.citizens && p.s.citizens[c.worker].honor[0] == c.amount + 100
            && p.r.citizens[c.worker].honor[0] > p.s.citizens[c.worker].honor[0]
  {
    First(c);
    Second(c);
    Third(c);
    Fourth(c);
    assert c.amount / 100 > 100;
    hide Both, Start, After1, After2, After3, Proper;
    RunOf4(Start(c.attester, c.governance, c.denom), Trace(c));
  }

  lemma RunOf4(p: Pair, t: seq<Timed>)
    requires |t| == 4
    ensures RunBoth(p, t) == Both(Both(Both(Both(p, t[0]), t[1]), t[2]), t[3])
  {
    hide Both;
    assert t[..3][..2][..1][..0] == [];
    assert RunBoth(p, t[..3][..2][..1]) == Both(p, t[0]);
    assert RunBoth(p, t[..3][..2]) == Both(Both(p, t[0]), t[1]);
    assert RunBoth(p, t[..3]) == Both(Both(Both(p, t[0]), t[1]), t[2]);
  }

  lemma Fourth(c: Cast)
    requires Proper(c)
    ensures var p := Both(After3(c), Trace(c)[3]);
            && p.acceptedByR == p.acceptedByS == [true, true, true, true]
            && c.worker in p.r.citizens && p.r.citizens[c.worker].honor[0] == c.amount + c.amount / 100
            && c.worker in p.s.citizens && p.s.citizens[c.worker].honor[0] == c.amount + 100
  {
    var p, t := After3(c), Trace(c)[3];
    hide OnCosmwasm, OnSolidity, DepositedOn, MintedOn, R.SettlementFits, Today, Trace, S.CitizenAt;
    Ready(c);
    hide After3, Newborn, MayDeposit, Twins.Close, Both, Bounded;
    Settlement(p.r, p.s, c);
    DepositAccepted(p.r, p.s, c.later, t.action);
    BothAccepted(p, t);
  }

  lemma BothAccepted(p: Pair, t: Timed)
    requires OnCosmwasm(p.r, t.now, t.action).Done? && OnSolidity(p.s, t.now, t.action).Done?
    ensures var q := Both(p, t);
            && q.r == OnCosmwasm(p.r, t.now, t.action).ledger && q.s == OnSolidity(p.s, t.now, t.action).ledger
            && q.acceptedByR == p.acceptedByR + [true] && q.acceptedByS == p.acceptedByS + [true]
  {
    hide OnCosmwasm, OnSolidity;
  }

  lemma Ready(c: Cast)
    requires Proper(c)
    ensures var p, who := After3(c), c.worker;
            && Trace(c)[3] == Timed(c.later, Action.Deposit(who, c.amount, c.lock, c.attester, c.later))
            && p.acceptedByR == p.acceptedByS == [true, true, true]
            && p.r.citizens == p.s.citizens == map[who := Newborn(JoinDay(c))] && p.r.pop == p.s.pop == {who}
            && p.r.attester == p.s.attester == c.attester && c.lock !in p.s.consumed
            && p.r.active == p.s.active == map[] && p.r.volunteer == p.s.volunteer == map[who := {VolunteerDay(c)}]
            && MayDeposit(p.r.pop, p.r.citizens[who], who, c.amount)
            && Twins.Close(p.r.citizens[who], S.CitizenAt(p.s.citizens, who))
  {
    assert Newborn(JoinDay(c)).isCitizen;
    hide Newborn, JoinDay, VolunteerDay, Bounded, Today;
  }

  lemma DepositAccepted(r: R.Ledger, s: S.Ledger, now: nat, a: Action)
    requires a.Deposit? && a.who in r.citizens && Twins.Close(r.citizens[a.who], S.CitizenAt(s.citizens, a.who))
    requires r.active == s.active && r.volunteer == s.volunteer && r.pop == s.pop && r.attester == s.attester
    requires a.actor == s.attester && now <= a.expiry && a.lockId !in s.consumed
    requires MayDeposit(r.pop, r.citizens[a.who], a.who, a.amount)
    requires R.SettlementFits(r, a.who, 0, a.amount, Today(now)) && r.citizens[a.who].locked + a.amount <= U128_MAX
    ensures var o, p := OnCosmwasm(r, now, a), OnSolidity(s, now, a);
            && o.Done? && a.who in o.ledger.citizens
            && o.ledger.citizens[a.who] == DepositedOn(r, a.who, a.amount, Today(now))
            && p.Done? && a.who in p.ledger.citizens
            && p.ledger.citizens[a.who] == MintedOn(s, a.who, a.amount, Today(now))
  {
    hide R.Settled, R.SettlementFits, S.Settled, S.SettlementFits, Today, Earned;
    DepositSettles(r, s, a.who, a.amount, Today(now));
    assert S.CitizenAt(s.citizens, a.who).isCitizen;
    SolidityDeposit(r, s, now, a);
    hide S.Step;
    CosmwasmDeposit(r, now, a);
  }

  /** The settlement of the deposit, on both sides. */
  lemma Settlement(r: R.Ledger, s: S.Ledger, c: Cast)
    requires Proper(c) && c.worker in r.citizens && r.citizens == s.citizens == map[c.worker := Newborn(JoinDay(c))]
    requires r.active == s.active == map[] && r.volunteer == s.volunteer == map[c.worker := {VolunteerDay(c)}]
    ensures R.SettlementFits(r, c.worker, 0, c.amount, Today(c.later))
    ensures r.citizens[c.worker].locked + c.amount <= U128_MAX
    ensures DepositedOn(r, c.worker, c.amount, Today(c.later)).honor[0] == c.amount + c.amount / 100
    ensures MintedOn(s, c.worker, c.amount, Today(c.later)).honor[0] == c.amount + 100
  {
    var join, b, vol := JoinDay(c), Newborn(JoinDay(c)), {VolunteerDay(c)};
    assert b.locked == 0;
    assert join < Today(c.later) <= join + 90 && vol == {7 * (join / 7) + 7};
    hide Today, Newborn;
    OneUnitDecays(b, join, Today(c.later));
    var d := Decayed(b, 0, {}, Today(c.later));
    OneBonus(d, join, c.amount);
    EarnedHonor(d, c.amount);
    hide Decayed, Processed, DecayFits, ProcessFits, Earned, VolunteerDay, JoinDay;
    SettledAs(r, s, c.worker, c.amount, Today(c.later), b, d, vol);
  }

  /** The two settlements, spelled out for a worker without active days. */
  lemma SettledAs(r: R.Ledger, s: S.Ledger, who: Addr, amount: nat, today: nat, b: Citizen, d: Citizen, vol: set<nat>)
    requires r.citizens == s.citizens == map[who := b] && d == Decayed(b, 0, {}, today)
    requires r.active == s.active == map[] && r.volunteer == s.volunteer == map[who := vol]
    ensures R.SettlementFits(r, who, 0, amount, today) <==>
              && DecayFits(U128_MAX, b, 0, {}, today)
              && d.honor[0] + amount <= U128_MAX
              && ProcessFits(U128_MAX, Earned(d, 0, amount), 0, vol)
    ensures DepositedOn(r, who, amount, today).honor == Processed(Earned(d, 0, amount), 0, vol).honor
    ensures MintedOn(s, who, amount, today).honor == Earned(Processed(d, 0, vol), 0, amount).honor
  {
    hide Decayed, Processed, DecayFits, ProcessFits, Earned;
  }

  lemma EarnedHonor(c: Citizen, n: nat)
    ensures Earned(c, 0, n).honor[0] == c.honor[0] + n
  {
  }
}
