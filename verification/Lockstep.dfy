/** The same citizen in both contracts: how far settlement lets the two records drift apart. */
module Twins {
  import opened Constants
  import opened Types
  import opened Decay
  import opened Volunteer
  import opened Citizens

  /** x, of the CosmWasm contract, equals y, of the Solidity contract, except that it may have more capital. */
  predicate Close(x: Citizen, y: Citizen) {
    x.honor[0] >= y.honor[0] && x.(honor := x.honor[0 := y.honor[0]]) == y
  }

  lemma CloseDecay(x: Citizen, y: Citizen, i: nat, active: set<nat>, today: nat)
    requires i < 3 && Close(x, y)
    ensures Close(Decayed(x, i, active, today), Decayed(y, i, active, today))
    ensures DecayFits(U128_MAX, x, i, active, today) ==> DecayFits(U256_MAX, y, i, active, today)
  {
    var s, n := ShieldOf(x, active), DaysDue(today, x.lastDay[i]);
    hide Days, DaysFit;
    assert x.honor[1..] == y.honor[1..];
    DaysMonotone(s, AxisOf(y, i), AxisOf(x, i), n);
    if DecayFits(U128_MAX, x, i, active, today) {
      DaysFitMonotone(U128_MAX, U256_MAX, s, AxisOf(y, i), AxisOf(x, i), n);
    }
  }

  lemma CloseProcess(x: Citizen, y: Citizen, i: nat, vol: set<nat>)
    requires i < 3 && Close(x, y) && ProcessFits(U128_MAX, x, i, vol)
    ensures ProcessFits(U256_MAX, y, i, vol)
    ensures Close(Processed(x, i, vol), Processed(y, i, vol))
  {
    hide Weeks, WeeksFit;
    assert x.honor[1..] == y.honor[1..];
    WeeksFitMonotone(U128_MAX, U256_MAX, vol, WeekStateOf(y), WeekStateOf(x), WeeksDue(x.lastDay[i], x.lastWeek));
  }

  lemma {:induction false} CapitalStaysWithin(max: nat, vol: set<nat>, s: WeekState, n: nat)
    requires s.capital <= max && WeeksFit(max, vol, s, n)
    ensures Weeks(vol, s, n).capital <= max
  {
    if n > 0 {
      CapitalStaysWithin(max, vol, s, n - 1);
    }
  }

  lemma ProcessedIs(c: Citizen, i: nat, vol: set<nat>)
    requires i < 3
    ensures var k := |CreditedBy(c, i, vol)|;
            Processed(c, i, vol) == c.(honor := c.honor[0 := TopUps(c.honor[0], k)], weeks := c.weeks + k,
                                       mult := Credits(c.mult, k),
                                       lastWeek := c.lastWeek + WeeksDue(c.lastDay[i], c.lastWeek))
  {
    hide QualifiedAfter;
    WeeksCredit(vol, WeekStateOf(c), WeeksDue(c.lastDay[i], c.lastWeek));
  }

  lemma DepositFits(x: Citizen, y: Citizen, amount: nat, vol: set<nat>)
    requires Close(x, y) && x.honor[0] + amount <= U128_MAX && ProcessFits(U128_MAX, Earned(x, 0, amount), 0, vol)
    ensures ProcessFits(U256_MAX, y, 0, vol)
    ensures Processed(Earned(x, 0, amount), 0, vol).honor[0] <= U128_MAX
  {
    var n, a := WeeksDue(x.lastDay[0], x.lastWeek), Earned(x, 0, amount);
    hide Weeks, WeeksFit;
    assert x.honor[1..] == y.honor[1..];
    WeeksFitMonotone(U128_MAX, U256_MAX, vol, WeekStateOf(y), WeekStateOf(a), n);
    CapitalStaysWithin(U128_MAX, vol, WeekStateOf(a), n);
  }

  /** Crediting a deposit before the weeks, as CosmWasm does, against crediting it after them, as Solidity does. */
  lemma DepositBeforeWeeks(x: Citizen, y: Citizen, amount: nat, vol: set<nat>)
    requires Close(x, y)
    ensures var x', y' := Processed(Earned(x, 0, amount), 0, vol), Earned(Processed(y, 0, vol), 0, amount);
            && Close(x', y')
            && (x == y ==> (x' == y' <==> SameBonuses(x.honor[0], amount, |CreditedBy(x, 0, vol)|)))
  {
    hide TopUps, Credits, CreditedBy, SameBonuses;
    ProcessedIs(Earned(x, 0, amount), 0, vol);
    ProcessedIs(y, 0, vol);
    var k := |CreditedBy(x, 0, vol)|;
    assert CreditedBy(Earned(x, 0, amount), 0, vol) == CreditedBy(x, 0, vol) == CreditedBy(y, 0, vol) by {
      SameCredit(x, Earned(x, 0, amount), vol);
      SameCredit(x, y, vol);
    }
    hide Processed, WeeksDue;
    assert x.honor[1..] == y.honor[1..];
    TopUpsMonotone(y.honor[0] + amount, x.honor[0] + amount, k);
    TopUpsGap(y.honor[0], amount, k);
  }

  lemma SameCredit(x: Citizen, y: Citizen, vol: set<nat>)
    requires x.lastDay == y.lastDay && x.lastWeek == y.lastWeek
    ensures CreditedBy(x, 0, vol) == CreditedBy(y, 0, vol)
  {
  }

  /** On the other axes the order does not matter. */
  lemma HonorBeforeWeeks(x: Citizen, y: Citizen, i: nat, amount: nat, vol: set<nat>)
    requires 0 < i < 3 && Close(x, y) && ProcessFits(U128_MAX, Earned(x, i, amount), i, vol)
    ensures ProcessFits(U256_MAX, y, i, vol)
    ensures var x', y' := Processed(Earned(x, i, amount), i, vol), Earned(Processed(y, i, vol), i, amount);
            Close(x', y') && x'.honor[i] == x.honor[i] + amount && (x == y ==> x' == y')
  {
    hide Weeks, WeeksFit;
    CloseProcess(Earned(x, i, amount), Earned(y, i, amount), i, vol);
  }
}

/**
 Both contracts fed the same messages. They accept and reject alike, and their
 citizens agree on everything but capital honor, where CosmWasm may be ahead.
 */
module Lockstep {
  import opened Constants
  import opened Types
  import opened Decay
  import opened Volunteer
  import opened Citizens
  import opened Twins
  import R = Cosmwasm
  import S = Solidity
  import Runs
  import Totals

  /**
   One message in terms common to both contracts. `actor` is the CosmWasm sender
   and the Solidity signer or sender; a deposit arrives with its coins on
   CosmWasm and through a bridge message signed by `actor` on Solidity.
   */
  datatype Action =
    | AttestPoP(actor: Addr, worker: Addr, nonce: Id, expiry: nat)
    | Join(who: Addr)
    | SetSabbathDay(who: Addr, offset: nat)
    | Deposit(who: Addr, amount: nat, lockId: Id, actor: Addr, expiry: nat)
    | AttestHonor(actor: Addr, worker: Addr, axis: Axis, delta: nat, jobId: Id, expiry: nat)
    | AttestDay(actor: Addr, worker: Addr, day: nat, activeMet: bool, volunteerMet: bool, nonce: Id, expiry: nat)
    | Ragequit(who: Addr)
    | GrantBadge(actor: Addr, citizen: Addr, badge: R.Badge)
    | RevokeBadge(actor: Addr, citizen: Addr, badge: R.Badge)
    | RotateAttester(actor: Addr, newAttester: Addr)

  function SenderOf(a: Action): Addr {
    match a
    case Join(who) => who
    case SetSabbathDay(who, _) => who
    case Deposit(who, _, _, _, _) => who
    case Ragequit(who) => who
    case _ => a.actor
  }

  function InfoOf(denom: string, a: Action): R.Info {
    R.Info(SenderOf(a), if a.Deposit? then map[denom := a.amount] else map[])
  }

  function MsgOf(a: Action): R.Msg {
    match a
    case AttestPoP(_, worker, _, _) => R.AttestPoP(worker)
    case Join(_) => R.Join
    case SetSabbathDay(_, offset) => R.SetSabbathDay(offset)
    case Deposit(_, _, _, _, _) => R.ContributeCapital
    case AttestHonor(_, worker, axis, delta, jobId, _) => R.AttestHonor(worker, axis, delta, jobId)
    case AttestDay(_, worker, day, activeMet, volunteerMet, nonce, _) =>
      R.AttestDay(worker, day, activeMet, volunteerMet, nonce)
    case Ragequit(_) => R.Ragequit
    case GrantBadge(_, citizen, badge) => R.GrantBadge(citizen, badge)
    case RevokeBadge(_, citizen, badge) => R.RevokeBadge(citizen, badge)
    case RotateAttester(_, newAttester) => R.RotateAttester(newAttester)
  }

  function CallOf(a: Action): S.Call {
    match a
    case AttestPoP(actor, worker, nonce, expiry) => S.AttestPoP(worker, expiry, nonce, actor)
    case Join(_) => S.Join
    case SetSabbathDay(_, offset) => S.SetSabbathDay(offset)
    case Deposit(who, amount, lockId, actor, expiry) => S.BridgeMintCapital(who, amount, lockId, expiry, actor)
    case AttestHonor(actor, worker, axis, delta, jobId, expiry) =>
      S.AttestHonor(worker, axis, delta, jobId, expiry, actor)
    case AttestDay(actor, worker, day, activeMet, volunteerMet, nonce, expiry) =>
      S.AttestDay(worker, day, activeMet, volunteerMet, expiry, nonce, actor)
    case Ragequit(_) => S.Ragequit
    case GrantBadge(_, citizen, badge) => S.GrantBadge(citizen, badge)
    case RevokeBadge(_, citizen, badge) => S.RevokeBadge(citizen, badge)
    case RotateAttester(_, newAttester) => S.RotateAttester(newAttester)
  }

  function OnCosmwasm(r: R.Ledger, now: nat, a: Action): R.Outcome {
    R.Step(r, now, InfoOf(r.denom, a), MsgOf(a))
  }

  function OnSolidity(s: S.Ledger, now: nat, a: Action): S.Outcome {
    S.Step(s, now, SenderOf(a), CallOf(a))
  }

  /**
   What only Solidity checks: signatures are in time, deposits carry the
   attester's signature, identifiers are not taken by another kind of message
   (PoP nonces and lock ids share the namespace there), and no zero attester.
   */
  predicate Authorized(r: R.Ledger, s: S.Ledger, now: nat, a: Action) {
    match a
    case AttestPoP(_, _, nonce, expiry) => now <= expiry && nonce !in s.consumed
    case Deposit(_, _, lockId, actor, expiry) => now <= expiry && lockId !in s.consumed && actor == s.attester
    case AttestHonor(_, _, _, _, jobId, expiry) => now <= expiry && jobId !in s.consumed - r.consumed
    case AttestDay(_, _, _, _, _, nonce, expiry) => now <= expiry && nonce !in s.consumed - r.consumed
    case RotateAttester(_, newAttester) => newAttester != S.ZERO_ADDRESS
    case _ => true
  }

  predicate Matched(r: map<Addr, Citizen>, s: map<Addr, Citizen>, a: Addr) {
    if a in r then r[a].isCitizen && Close(r[a], S.CitizenAt(s, a)) else S.CitizenAt(s, a) == S.NOBODY
  }

  ghost predicate AllMatched(r: map<Addr, Citizen>, s: map<Addr, Citizen>) {
    forall a :: Matched(r, s, a)
  }

  ghost predicate Twinned(r: R.Ledger, s: S.Ledger) {
    && r.attester == s.attester && r.governance == s.governance
    && r.pop == s.pop && r.badges == s.badges && r.active == s.active && r.volunteer == s.volunteer
    && r.consumed <= s.consumed
    && r.balance >= Runs.TotalLocked(r)
    && AllMatched(r.citizens, s.citizens)
  }

  lemma MatchedUpdate(r: map<Addr, Citizen>, s: map<Addr, Citizen>, who: Addr, x: Citizen, y: Citizen)
    requires AllMatched(r, s) && x.isCitizen && Close(x, y)
    ensures AllMatched(r[who := x], s[who := y])
  {
    hide Close;
    var r', s' := r[who := x], s[who := y];
    forall a ensures Matched(r', s', a) {
      assert Matched(r, s, a);
    }
  }

  lemma MatchedRemoval(r: map<Addr, Citizen>, s: map<Addr, Citizen>, who: Addr)
    requires AllMatched(r, s)
    ensures AllMatched(r - {who}, s[who := S.NOBODY])
  {
    var r', s' := r - {who}, s[who := S.NOBODY];
    forall a ensures Matched(r', s', a) {
      assert Matched(r, s, a);
    }
  }

  // ---------- step by step ----------

  function DepositedOn(r: R.Ledger, who: Addr, amount: nat, today: nat): Citizen
    requires who in r.citizens
  {
    var c := R.Settled(r, who, 0, amount, today);
    c.(locked := c.locked + amount)
  }

  function MintedOn(s: S.Ledger, who: Addr, amount: nat, today: nat): Citizen {
    var c := Earned(S.Settled(s, who, 0, today), 0, amount);
    c.(locked := c.locked + amount)
  }

  /** A citizen's capital axis, settled, just before a deposit. */
  function BeforeDeposit(s: S.Ledger, who: Addr, today: nat): Citizen {
    Decayed(S.CitizenAt(s.citizens, who), 0, DaysOf(s.active, who), today)
  }

  /** Each week credited on the way earns the same bonus whether or not the deposit is already counted. */
  predicate Undisturbed(s: S.Ledger, who: Addr, amount: nat, today: nat) {
    var c := BeforeDeposit(s, who, today);
    SameBonuses(c.honor[0], amount, |CreditedBy(c, 0, DaysOf(s.volunteer, who))|)
  }

  lemma DepositSettles(r: R.Ledger, s: S.Ledger, who: Addr, amount: nat, today: nat)
    requires who in r.citizens && Close(r.citizens[who], S.CitizenAt(s.citizens, who))
    requires r.active == s.active && r.volunteer == s.volunteer
    requires R.SettlementFits(r, who, 0, amount, today) && r.citizens[who].locked + amount <= U128_MAX
    ensures S.SettlementFits(s, who, 0, today)
    ensures S.Settled(s, who, 0, today).honor[0] + amount <= U256_MAX
    ensures S.Settled(s, who, 0, today).locked + amount <= U256_MAX
    ensures Close(DepositedOn(r, who, amount, today), MintedOn(s, who, amount, today))
    ensures r.citizens[who] == S.CitizenAt(s.citizens, who) ==>
              (DepositedOn(r, who, amount, today) == MintedOn(s, who, amount, today)
               <==> Undisturbed(s, who, amount, today))
  {
    var active, vol := DaysOf(s.active, who), DaysOf(s.volunteer, who);
    var x, y := r.citizens[who], S.CitizenAt(s.citizens, who);
    CloseDecay(x, y, 0, active, today);
    var dx, dy := Decayed(x, 0, active, today), Decayed(y, 0, active, today);
    DepositFits(dx, dy, amount, vol);
    DepositBeforeWeeks(dx, dy, amount, vol);
    hide Decayed, Processed, SameBonuses, DecayFits, ProcessFits, CreditedBy;
    LockedStays(x, active, vol, amount, today);
  }

  lemma LockedStays(c: Citizen, active: set<nat>, vol: set<nat>, amount: nat, today: nat)
    ensures Processed(Earned(Decayed(c, 0, active, today), 0, amount), 0, vol).locked == c.locked
  {
  }

  predicate MayDeposit(pop: set<Addr>, c: Citizen, who: Addr, amount: nat) {
    who in pop && c.isCitizen && amount > 0
  }

  lemma CosmwasmDeposit(r: R.Ledger, now: nat, a: Action)
    requires a.Deposit? && OnCosmwasm(r, now, a) != R.Failed(R.Overflow)
    ensures var o := OnCosmwasm(r, now, a);
            && (o.Done? <==> a.who in r.citizens && MayDeposit(r.pop, r.citizens[a.who], a.who, a.amount))
            && (o.Done? ==>
                  && R.SettlementFits(r, a.who, 0, a.amount, Today(now))
                  && r.citizens[a.who].locked + a.amount <= U128_MAX
                  && o.ledger == r.(citizens := r.citizens[a.who := DepositedOn(r, a.who, a.amount, Today(now))],
                                    balance := r.balance + a.amount))
  {
    hide R.Settled, R.SettlementFits, Today;
  }

  lemma SolidityDeposit(r: R.Ledger, s: S.Ledger, now: nat, a: Action)
    requires a.Deposit? && Authorized(r, s, now, a)
    requires MayDeposit(s.pop, S.CitizenAt(s.citizens, a.who), a.who, a.amount) ==>
               && S.SettlementFits(s, a.who, 0, Today(now))
               && S.Settled(s, a.who, 0, Today(now)).honor[0] + a.amount <= U256_MAX
               && S.Settled(s, a.who, 0, Today(now)).locked + a.amount <= U256_MAX
    ensures var p := OnSolidity(s, now, a);
            && (p.Done? <==> MayDeposit(s.pop, S.CitizenAt(s.citizens, a.who), a.who, a.amount))
            && (p.Done? ==>
                  p.ledger == s.(citizens := s.citizens[a.who := MintedOn(s, a.who, a.amount, Today(now))],
                                 consumed := s.consumed + {a.lockId}))
  {
    hide S.Settled, S.SettlementFits, Today, S.CitizenAt, Earned;
  }

  /** The deposit step: what both contracts make of it. */
  lemma DepositTogether(r: R.Ledger, s: S.Ledger, now: nat, a: Action)
    requires a.Deposit? && Twinned(r, s) && Authorized(r, s, now, a)
    requires OnCosmwasm(r, now, a) != R.Failed(R.Overflow)
    ensures var o, p := OnCosmwasm(r, now, a), OnSolidity(s, now, a);
            && (o.Done? <==> p.Done?)
            && (o.Done? ==> Twinned(o.ledger, p.ledger))
  {
    var o, p, who, today := OnCosmwasm(r, now, a), OnSolidity(s, now, a), a.who, Today(now);
    assert Matched(r.citizens, s.citizens, who);
    hide Close, Runs.TotalLocked, S.Settled, R.Settled, R.SettlementFits, S.SettlementFits, Today, Earned, AllMatched;
    CosmwasmDeposit(r, now, a);
    hide R.Step, S.Step;
    if who in r.citizens && MayDeposit(r.pop, r.citizens[who], who, a.amount) {
      DepositSettles(r, s, who, a.amount, today);
      SolidityDeposit(r, s, now, a);
      Runs.StepConserves(r, now, InfoOf(r.denom, a), MsgOf(a));
      MatchedUpdate(r.citizens, s.citizens, who, DepositedOn(r, who, a.amount, today),
                    MintedOn(s, who, a.amount, today));
    } else {
      SolidityDeposit(r, s, now, a);
    }
  }

  lemma AttestedHonorSettles(r: R.Ledger, s: S.Ledger, who: Addr, i: nat, delta: nat, today: nat)
    requires who in r.citizens && Close(r.citizens[who], S.CitizenAt(s.citizens, who)) && 0 < i < 3
    requires r.active == s.active && r.volunteer == s.volunteer
    requires R.SettlementFits(r, who, i, delta, today)
    ensures S.SettlementFits(s, who, i, today)
    ensures S.Settled(s, who, i, today).honor[i] + delta <= U256_MAX
    ensures Close(R.Settled(r, who, i, delta, today), Earned(S.Settled(s, who, i, today), i, delta))
    ensures R.Settled(r, who, i, delta, today).isCitizen == r.citizens[who].isCitizen
    ensures r.citizens[who] == S.CitizenAt(s.citizens, who) ==>
              R.Settled(r, who, i, delta, today) == Earned(S.Settled(s, who, i, today), i, delta)
  {
    var active, vol := DaysOf(s.active, who), DaysOf(s.volunteer, who);
    var x, y := r.citizens[who], S.CitizenAt(s.citizens, who);
    CloseDecay(x, y, i, active, today);
    var dx, dy := Decayed(x, i, active, today), Decayed(y, i, active, today);
    hide Weeks, WeeksFit, Days, DaysFit;
    HonorBeforeWeeks(dx, dy, i, delta, vol);
  }

  predicate MayAttest(pop: set<Addr>, consumed: set<Id>, attester: Addr, c: Citizen, a: Action)
    requires a.AttestHonor?
  {
    a.actor == attester && !a.axis.Capital? && a.worker in pop && c.isCitizen && a.jobId !in consumed
  }

  lemma CosmwasmAttest(r: R.Ledger, now: nat, a: Action)
    requires a.AttestHonor? && OnCosmwasm(r, now, a) != R.Failed(R.Overflow)
    requires a.worker in r.citizens ==> r.citizens[a.worker].isCitizen
    ensures var o, i := OnCosmwasm(r, now, a), a.axis.Index();
            && (o.Done? <==>
                  a.worker in r.citizens && MayAttest(r.pop, r.consumed, r.attester, r.citizens[a.worker], a))
            && (o.Done? ==>
                  && R.SettlementFits(r, a.worker, i, a.delta, Today(now))
                  && o.ledger == r.(citizens := r.citizens[a.worker := R.Settled(r, a.worker, i, a.delta, Today(now))],
                                    consumed := r.consumed + {a.jobId}))
  {
    hide R.Settled, R.SettlementFits, Today;
  }

  lemma SolidityAttest(r: R.Ledger, s: S.Ledger, now: nat, a: Action)
    requires a.AttestHonor? && Authorized(r, s, now, a)
    requires MayAttest(s.pop, s.consumed, s.attester, S.CitizenAt(s.citizens, a.worker), a) ==>
               && S.SettlementFits(s, a.worker, a.axis.Index(), Today(now))
               && S.Settled(s, a.worker, a.axis.Index(), Today(now)).honor[a.axis.Index()] + a.delta <= U256_MAX
    ensures var p, i := OnSolidity(s, now, a), a.axis.Index();
            && (p.Done? <==> MayAttest(s.pop, s.consumed, s.attester, S.CitizenAt(s.citizens, a.worker), a))
            && (p.Done? ==>
                  var c := Earned(S.Settled(s, a.worker, i, Today(now)), i, a.delta);
                  p.ledger == s.(citizens := s.citizens[a.worker := c],
                                 consumed := s.consumed + {a.jobId}))
  {
    hide S.Settled, S.SettlementFits, Today, S.CitizenAt, Earned;
  }

  lemma {:induction false} AttestTogether(r: R.Ledger, s: S.Ledger, now: nat, a: Action)
    requires a.AttestHonor? && Twinned(r, s) && Authorized(r, s, now, a)
    requires OnCosmwasm(r, now, a) != R.Failed(R.Overflow)
    ensures var o, p := OnCosmwasm(r, now, a), OnSolidity(s, now, a);
            && (o.Done? <==> p.Done?)
            && (o.Done? ==> Twinned(o.ledger, p.ledger))
  {
    var who, i, today := a.worker, a.axis.Index(), Today(now);
    assert Matched(r.citizens, s.citizens, who);
    hide Close, Runs.TotalLocked, S.Settled, R.Settled, R.SettlementFits, S.SettlementFits, Today, Earned, AllMatched;
    CosmwasmAttest(r, now, a);
    hide R.Step, S.Step;
    if who in r.citizens && MayAttest(r.pop, r.consumed, r.attester, r.citizens[who], a) {
      AttestedHonorSettles(r, s, who, i, a.delta, today);
      SolidityAttest(r, s, now, a);
      Runs.StepConserves(r, now, InfoOf(r.denom, a), MsgOf(a));
      MatchedUpdate(r.citizens, s.citizens, who, R.Settled(r, who, i, a.delta, today),
                    Earned(S.Settled(s, who, i, today), i, a.delta));
    } else {
      SolidityAttest(r, s, now, a);
    }
  }

  lemma JoinTogether(r: R.Ledger, s: S.Ledger, now: nat, a: Action)
    requires a.Join? && Twinned(r, s)
    ensures var o, p := OnCosmwasm(r, now, a), OnSolidity(s, now, a);
            && (o.Done? <==> p.Done?)
            && (o.Done? ==> Twinned(o.ledger, p.ledger))
  {
    assert Matched(r.citizens, s.citizens, a.who);
    hide Runs.TotalLocked, Today, AllMatched;
    if OnCosmwasm(r, now, a).Done? {
      Runs.StepConserves(r, now, InfoOf(r.denom, a), MsgOf(a));
      MatchedUpdate(r.citizens, s.citizens, a.who, Newborn(Today(now)), S.Reborn(S.NOBODY, Today(now)));
    }
  }

  lemma SabbathTogether(r: R.Ledger, s: S.Ledger, now: nat, a: Action)
    requires a.SetSabbathDay? && Twinned(r, s)
    ensures var o, p := OnCosmwasm(r, now, a), OnSolidity(s, now, a);
            && (o.Done? <==> p.Done?)
            && (o.Done? ==> Twinned(o.ledger, p.ledger))
  {
    assert Matched(r.citizens, s.citizens, a.who);
    hide Runs.TotalLocked, AllMatched;
    if OnCosmwasm(r, now, a).Done? {
      Runs.StepConserves(r, now, InfoOf(r.denom, a), MsgOf(a));
      MatchedUpdate(r.citizens, s.citizens, a.who, r.citizens[a.who].(sabbath := a.offset),
                    S.CitizenAt(s.citizens, a.who).(sabbath := a.offset));
    }
  }

  lemma RagequitTogether(r: R.Ledger, s: S.Ledger, now: nat, a: Action)
    requires a.Ragequit? && Twinned(r, s)
    ensures var o, p := OnCosmwasm(r, now, a), OnSolidity(s, now, a);
            && (o.Done? <==> p.Done?)
            && (o.Done? ==> Twinned(o.ledger, p.ledger) && p.events == [S.RagequitRequest(a.who, o.paid)])
  {
    assert Matched(r.citizens, s.citizens, a.who);
    if a.who in r.citizens {
      Totals.TotalAtLeast(Runs.Locked(r.citizens), a.who);
      Runs.StepConserves(r, now, InfoOf(r.denom, a), MsgOf(a));
      hide Runs.TotalLocked, AllMatched;
      MatchedRemoval(r.citizens, s.citizens, a.who);
    }
  }

  /**
   One message: both contracts accept it or both reject it, and the ledgers stay
   twinned, unless CosmWasm aborts because 128 bits overflow.
   */
  lemma {:induction false} StepTogether(r: R.Ledger, s: S.Ledger, now: nat, a: Action)
    requires Twinned(r, s) && Authorized(r, s, now, a)
    requires OnCosmwasm(r, now, a) != R.Failed(R.Overflow)
    ensures var o, p := OnCosmwasm(r, now, a), OnSolidity(s, now, a);
            && (o.Done? <==> p.Done?)
            && (o.Done? ==> Twinned(o.ledger, p.ledger))
  {
    match a
    case Deposit(_, _, _, _, _) => DepositTogether(r, s, now, a);
    case AttestHonor(_, _, _, _, _, _) => AttestTogether(r, s, now, a);
    case Join(_) => JoinTogether(r, s, now, a);
    case SetSabbathDay(_, _) => SabbathTogether(r, s, now, a);
    case Ragequit(_) => RagequitTogether(r, s, now, a);
    case AttestDay(_, worker, _, _, _, _, _) => AttestedDayTogether(r, s, now, a);
    case GrantBadge(_, _, _) => BadgeTogether(r, s, now, a);
    case RevokeBadge(_, _, _) => BadgeTogether(r, s, now, a);
    case _ => RestTogether(r, s, now, a);
  }

  lemma AttestedDayTogether(r: R.Ledger, s: S.Ledger, now: nat, a: Action)
    requires a.AttestDay? && Twinned(r, s) && Authorized(r, s, now, a)
    ensures var o, p := OnCosmwasm(r, now, a), OnSolidity(s, now, a);
            && (o.Done? <==> p.Done?)
            && (o.Done? ==> Twinned(o.ledger, p.ledger))
  {
    assert Matched(r.citizens, s.citizens, a.worker);
    hide AllMatched, Marked, Today;
  }

  lemma BadgeTogether(r: R.Ledger, s: S.Ledger, now: nat, a: Action)
    requires (a.GrantBadge? || a.RevokeBadge?) && Twinned(r, s)
    ensures var o, p := OnCosmwasm(r, now, a), OnSolidity(s, now, a);
            && (o.Done? <==> p.Done?)
            && (o.Done? ==> Twinned(o.ledger, p.ledger))
  {
    if a.GrantBadge? {
      assert Matched(r.citizens, s.citizens, a.citizen);
    }
    hide AllMatched, Close;
  }

  lemma RestTogether(r: R.Ledger, s: S.Ledger, now: nat, a: Action)
    requires (a.AttestPoP? || a.RotateAttester?) && Twinned(r, s) && Authorized(r, s, now, a)
    ensures var o, p := OnCosmwasm(r, now, a), OnSolidity(s, now, a);
            && (o.Done? <==> p.Done?)
            && (o.Done? ==> Twinned(o.ledger, p.ledger))
  {
    hide AllMatched;
  }

  // ---------- where the capital agrees too ----------

  predicate SameAt(r: map<Addr, Citizen>, s: map<Addr, Citizen>, a: Addr) {
    a in r ==> r[a] == S.CitizenAt(s, a)
  }

  ghost predicate AllSame(r: map<Addr, Citizen>, s: map<Addr, Citizen>) {
    forall a :: SameAt(r, s, a)
  }

  lemma SameUpdate(r: map<Addr, Citizen>, s: map<Addr, Citizen>, who: Addr, x: Citizen, y: Citizen)
    requires AllSame(r, s)
    ensures AllSame(r[who := x], s[who := y]) <==> x == y
  {
    var r', s' := r[who := x], s[who := y];
    if x == y {
      forall a ensures SameAt(r', s', a) {
        assert SameAt(r, s, a);
      }
    } else {
      assert !SameAt(r', s', who);
    }
  }

  lemma SameRemoval(r: map<Addr, Citizen>, s: map<Addr, Citizen>, who: Addr)
    requires AllSame(r, s)
    ensures AllSame(r - {who}, s[who := S.NOBODY])
  {
    var r', s' := r - {who}, s[who := S.NOBODY];
    forall a ensures SameAt(r', s', a) {
      assert SameAt(r, s, a);
    }
  }

  lemma DepositSame(r: R.Ledger, s: S.Ledger, now: nat, a: Action)
    requires a.Deposit? && Twinned(r, s) && AllSame(r.citizens, s.citizens) && Authorized(r, s, now, a)
    requires OnCosmwasm(r, now, a).Done?
    ensures var o, p := OnCosmwasm(r, now, a), OnSolidity(s, now, a);
            p.Done? && (AllSame(o.ledger.citizens, p.ledger.citizens) <==> Undisturbed(s, a.who, a.amount, Today(now)))
  {
    var who, today := a.who, Today(now);
    assert Matched(r.citizens, s.citizens, who);
    assert SameAt(r.citizens, s.citizens, who);
    hide Close, Runs.TotalLocked, S.Settled, R.Settled, R.SettlementFits, S.SettlementFits, Today, Earned, AllMatched;
    hide Undisturbed, AllSame;
    CosmwasmDeposit(r, now, a);
    hide R.Step, S.Step;
    DepositSettles(r, s, who, a.amount, today);
    SolidityDeposit(r, s, now, a);
    SameUpdate(r.citizens, s.citizens, who, DepositedOn(r, who, a.amount, today), MintedOn(s, who, a.amount, today));
  }

  lemma AttestSame(r: R.Ledger, s: S.Ledger, now: nat, a: Action)
    requires a.AttestHonor? && Twinned(r, s) && AllSame(r.citizens, s.citizens) && Authorized(r, s, now, a)
    requires OnCosmwasm(r, now, a).Done?
    ensures var o, p := OnCosmwasm(r, now, a), OnSolidity(s, now, a);
            p.Done? && AllSame(o.ledger.citizens, p.ledger.citizens)
  {
    var who, i, today := a.worker, a.axis.Index(), Today(now);
    assert Matched(r.citizens, s.citizens, who);
    assert SameAt(r.citizens, s.citizens, who);
    hide Close, Runs.TotalLocked, S.Settled, R.Settled, R.SettlementFits, S.SettlementFits, Today, Earned, AllMatched;
    hide AllSame;
    CosmwasmAttest(r, now, a);
    hide R.Step, S.Step;
    AttestedHonorSettles(r, s, who, i, a.delta, today);
    SolidityAttest(r, s, now, a);
    SameUpdate(r.citizens, s.citizens, who, R.Settled(r, who, i, a.delta, today),
               Earned(S.Settled(s, who, i, today), i, a.delta));
  }

  lemma JoinSame(r: R.Ledger, s: S.Ledger, now: nat, a: Action)
    requires a.Join? && Twinned(r, s) && AllSame(r.citizens, s.citizens) && OnCosmwasm(r, now, a).Done?
    ensures var o, p := OnCosmwasm(r, now, a), OnSolidity(s, now, a);
            p.Done? && AllSame(o.ledger.citizens, p.ledger.citizens)
  {
    JoinTogether(r, s, now, a);
    assert Matched(r.citizens, s.citizens, a.who);
    hide AllSame, Runs.TotalLocked, Today, AllMatched;
    SameUpdate(r.citizens, s.citizens, a.who, Newborn(Today(now)), S.Reborn(S.NOBODY, Today(now)));
  }

  lemma SabbathSame(r: R.Ledger, s: S.Ledger, now: nat, a: Action)
    requires a.SetSabbathDay? && Twinned(r, s) && AllSame(r.citizens, s.citizens) && OnCosmwasm(r, now, a).Done?
    ensures var o, p := OnCosmwasm(r, now, a), OnSolidity(s, now, a);
            p.Done? && AllSame(o.ledger.citizens, p.ledger.citizens)
  {
    SabbathTogether(r, s, now, a);
    assert SameAt(r.citizens, s.citizens, a.who);
    hide AllSame, Runs.TotalLocked, AllMatched;
    SameUpdate(r.citizens, s.citizens, a.who, r.citizens[a.who].(sabbath := a.offset),
               S.CitizenAt(s.citizens, a.who).(sabbath := a.offset));
  }

  lemma RagequitSame(r: R.Ledger, s: S.Ledger, now: nat, a: Action)
    requires a.Ragequit? && Twinned(r, s) && AllSame(r.citizens, s.citizens) && OnCosmwasm(r, now, a).Done?
    ensures var o, p := OnCosmwasm(r, now, a), OnSolidity(s, now, a);
            p.Done? && AllSame(o.ledger.citizens, p.ledger.citizens)
  {
    RagequitTogether(r, s, now, a);
    hide AllSame, Runs.TotalLocked, AllMatched;
    SameRemoval(r.citizens, s.citizens, a.who);
  }

  /** These messages do not touch any citizen's record. */
  predicate SparesCitizens(a: Action) {
    a.AttestPoP? || a.AttestDay? || a.GrantBadge? || a.RevokeBadge? || a.RotateAttester?
  }

  lemma CosmwasmSpares(r: R.Ledger, now: nat, a: Action)
    requires SparesCitizens(a)
    ensures OnCosmwasm(r, now, a).Done? ==> OnCosmwasm(r, now, a).ledger.citizens == r.citizens
  {
    hide Marked, Today;
  }

  lemma SoliditySpares(s: S.Ledger, now: nat, a: Action)
    requires SparesCitizens(a)
    ensures OnSolidity(s, now, a).Done? ==> OnSolidity(s, now, a).ledger.citizens == s.citizens
  {
    hide Marked, Today;
  }

  lemma OthersSame(r: R.Ledger, s: S.Ledger, now: nat, a: Action)
    requires SparesCitizens(a)
    requires Twinned(r, s) && AllSame(r.citizens, s.citizens) && Authorized(r, s, now, a)
    requires OnCosmwasm(r, now, a).Done?
    ensures var o, p := OnCosmwasm(r, now, a), OnSolidity(s, now, a);
            p.Done? && AllSame(o.ledger.citizens, p.ledger.citizens)
  {
    assert !OnCosmwasm(r, now, a).Failed?;
    hide AllSame, Twinned, OnCosmwasm, OnSolidity, Authorized;
    StepTogether(r, s, now, a);
    CosmwasmSpares(r, now, a);
    SoliditySpares(s, now, a);
  }

  /**
   Where both contracts agreed on every citizen, they still do after an accepted
   message exactly if it is not a deposit that changes a bonus on the way.
   */
  lemma {:induction false} StepSame(r: R.Ledger, s: S.Ledger, now: nat, a: Action)
    requires Twinned(r, s) && AllSame(r.citizens, s.citizens) && Authorized(r, s, now, a)
    requires OnCosmwasm(r, now, a).Done?
    ensures var o, p := OnCosmwasm(r, now, a), OnSolidity(s, now, a);
            && p.Done?
            && (AllSame(o.ledger.citizens, p.ledger.citizens)
                <==> (a.Deposit? ==> Undisturbed(s, a.who, a.amount, Today(now))))
  {
    hide AllSame, Twinned, OnCosmwasm, OnSolidity, Authorized, Undisturbed;
    if a.Deposit? {
      DepositSame(r, s, now, a);
    } else if a.AttestHonor? {
      AttestSame(r, s, now, a);
    } else if a.Join? {
      JoinSame(r, s, now, a);
    } else if a.SetSabbathDay? {
      SabbathSame(r, s, now, a);
    } else if a.Ragequit? {
      RagequitSame(r, s, now, a);
    } else {
      OthersSame(r, s, now, a);
    }
  }

  // ---------- whole runs ----------

  datatype Timed = Timed(now: nat, action: Action)

  /** Both ledgers, and which messages each contract has accepted so far. */
  datatype Pair = Pair(r: R.Ledger, s: S.Ledger, acceptedByR: seq<bool>, acceptedByS: seq<bool>)

  function Start(attester: Addr, governance: Addr, denom: string): Pair {
    Pair(R.Ledger(attester, governance, denom, map[], {}, {}, map[], map[], {}, 0),
         S.Ledger(attester, governance, map[], {}, {}, map[], map[], {}), [], [])
  }

  function Both(p: Pair, t: Timed): Pair {
    var o, q := OnCosmwasm(p.r, t.now, t.action), OnSolidity(p.s, t.now, t.action);
    Pair(if o.Done? then o.ledger else p.r, if q.Done? then q.ledger else p.s,
         p.acceptedByR + [o.Done?], p.acceptedByS + [q.Done?])
  }

  function RunBoth(p: Pair, trace: seq<Timed>): Pair {
    if trace == [] then p else Both(RunBoth(p, trace[..|trace| - 1]), trace[|trace| - 1])
  }

  /** Solidity's extra checks pass and CosmWasm does not overflow, at every step of the trace. */
  predicate Fair(p: Pair, trace: seq<Timed>) {
    trace == [] ||
    (var before, t := RunBoth(p, trace[..|trace| - 1]), trace[|trace| - 1];
     && Fair(p, trace[..|trace| - 1])
     && Authorized(before.r, before.s, t.now, t.action)
     && OnCosmwasm(before.r, t.now, t.action) != R.Failed(R.Overflow))
  }

  /** No accepted deposit of the trace changes a bonus on the way. */
  predicate NoneDisturbs(p: Pair, trace: seq<Timed>) {
    trace == [] ||
    (var before, t := RunBoth(p, trace[..|trace| - 1]), trace[|trace| - 1];
     && NoneDisturbs(p, trace[..|trace| - 1])
     && (t.action.Deposit? && OnCosmwasm(before.r, t.now, t.action).Done? ==>
           Undisturbed(before.s, t.action.who, t.action.amount, Today(t.now))))
  }

  lemma StartTwinned(attester: Addr, governance: Addr, denom: string)
    ensures var p := Start(attester, governance, denom); Twinned(p.r, p.s) && AllSame(p.r.citizens, p.s.citizens)
  {
  }

  /**
   Fed the same trace, the two contracts accept the same messages and agree on
   every citizen in every field but capital honor, where CosmWasm is never behind.
   */
  lemma {:induction false} RunTogether(attester: Addr, governance: Addr, denom: string, trace: seq<Timed>)
    requires Fair(Start(attester, governance, denom), trace)
    ensures var p := RunBoth(Start(attester, governance, denom), trace);
            Twinned(p.r, p.s) && p.acceptedByR == p.acceptedByS
  {
    hide Twinned, OnCosmwasm, OnSolidity, Authorized;
    if trace == [] {
      StartTwinned(attester, governance, denom);
    } else {
      RunTogether(attester, governance, denom, trace[..|trace| - 1]);
      var before, t := RunBoth(Start(attester, governance, denom), trace[..|trace| - 1]), trace[|trace| - 1];
      StepTogether(before.r, before.s, t.now, t.action);
    }
  }

  /** The contracts agree on every citizen after each message of the trace. */
  ghost predicate SameThroughout(p: Pair, trace: seq<Timed>) {
    && AllSame(RunBoth(p, trace).r.citizens, RunBoth(p, trace).s.citizens)
    && (trace == [] || SameThroughout(p, trace[..|trace| - 1]))
  }

  /** They agree on capital honor as well all along exactly if no deposit changes a bonus on the way. */
  lemma {:induction false} RunSame(attester: Addr, governance: Addr, denom: string, trace: seq<Timed>)
    requires Fair(Start(attester, governance, denom), trace)
    ensures var p := Start(attester, governance, denom); SameThroughout(p, trace) <==> NoneDisturbs(p, trace)
  {
    hide Twinned, OnCosmwasm, OnSolidity, Authorized, AllSame, Undisturbed;
    if trace == [] {
      StartTwinned(attester, governance, denom);
    } else {
      RunSame(attester, governance, denom, trace[..|trace| - 1]);
      RunTogether(attester, governance, denom, trace[..|trace| - 1]);
      var start := Start(attester, governance, denom);
      var before, t := RunBoth(start, trace[..|trace| - 1]), trace[|trace| - 1];
      StepTogether(before.r, before.s, t.now, t.action);
      if SameThroughout(start, trace[..|trace| - 1]) && OnCosmwasm(before.r, t.now, t.action).Done? {
        StepSame(before.r, before.s, t.now, t.action);
      }
    }
  }

  /** A deposit that meets no unprocessed qualifying week changes no bonus. */
  lemma QuietDeposit(s: S.Ledger, who: Addr, amount: nat, today: nat)
    requires CreditedBy(BeforeDeposit(s, who, today), 0, DaysOf(s.volunteer, who)) == []
    ensures Undisturbed(s, who, amount, today)
  {
  }

  /** No accepted deposit of the trace meets an unprocessed qualifying week. */
  predicate NoneMeetsDueWeek(p: Pair, trace: seq<Timed>) {
    trace == [] ||
    (var before, t := RunBoth(p, trace[..|trace| - 1]), trace[|trace| - 1];
     && NoneMeetsDueWeek(p, trace[..|trace| - 1])
     && (t.action.Deposit? && OnCosmwasm(before.r, t.now, t.action).Done? ==>
           var c := BeforeDeposit(before.s, t.action.who, Today(t.now));
           CreditedBy(c, 0, DaysOf(before.s.volunteer, t.action.who)) == []))
  }

  lemma {:induction false} QuietTrace(p: Pair, trace: seq<Timed>)
    requires NoneMeetsDueWeek(p, trace)
    ensures NoneDisturbs(p, trace)
  {
    if trace != [] {
      hide OnCosmwasm, Undisturbed, BeforeDeposit, CreditedBy, RunBoth;
      QuietTrace(p, trace[..|trace| - 1]);
      var before, t := RunBoth(p, trace[..|trace| - 1]), trace[|trace| - 1];
      if t.action.Deposit? && OnCosmwasm(before.r, t.now, t.action).Done? {
        QuietDeposit(before.s, t.action.who, t.action.amount, Today(t.now));
      }
    }
  }

  /** The contracts agree on every citizen as long as weeks are settled before each deposit. */
  lemma RunSameWhenQuiet(attester: Addr, governance: Addr, denom: string, trace: seq<Timed>)
    requires Fair(Start(attester, governance, denom), trace)
    requires NoneMeetsDueWeek(Start(attester, governance, denom), trace)
    ensures var p := RunBoth(Start(attester, governance, denom), trace); AllSame(p.r.citizens, p.s.citizens)
  {
    QuietTrace(Start(attester, governance, denom), trace);
    RunSame(attester, governance, denom, trace);
    hide Fair, NoneDisturbs, RunBoth, AllSame;
  }

  /** A deposit of at least 100 that meets qualifying weeks changes none exactly while the sum stays under 10100. */
  lemma LargeDeposit(s: S.Ledger, who: Addr, amount: nat, today: nat)
    requires amount >= 100
    ensures var c := BeforeDeposit(s, who, today);
            var k := |CreditedBy(c, 0, DaysOf(s.volunteer, who))|;
            k > 0 ==> (Undisturbed(s, who, amount, today) <==> TopUps(c.honor[0], k - 1) + amount < 10_100)
  {
    var c := BeforeDeposit(s, who, today);
    var k := |CreditedBy(c, 0, DaysOf(s.volunteer, who))|;
    if k > 0 {
      LargeDepositSameBonuses(c.honor[0], amount, k);
    }
  }
}
