/** Who may do what on CosmWasm, and that nobody else can. */
module Authority {
  import opened Constants
  import opened Types
  import opened Decay
  import opened Citizens
  import opened Cosmwasm
  import opened Runs
  import Courses

  /** What the contract demands of the sender and of the message. */
  predicate Entitled(l: Ledger, now: nat, info: Info, m: Msg) {
    match m
    case AttestPoP(_) => info.sender == l.attester
    case Join => info.sender in l.pop && info.sender !in l.citizens
    case SetSabbathDay(offset) => info.sender in l.citizens && offset < 7
    case ContributeCapital =>
      && info.sender in l.pop && info.sender in l.citizens && l.citizens[info.sender].isCitizen
      && l.denom in info.funds && info.funds[l.denom] > 0
    case AttestHonor(who, axis, _, id) =>
      info.sender == l.attester && !axis.Capital? && id !in l.consumed && who in l.pop && who in l.citizens
    case AttestDay(who, day, _, _, id) =>
      && info.sender == l.attester && id !in l.consumed && who in l.pop && who in l.citizens
      && l.citizens[who].joinDay <= day <= now / 86_400
    case Ragequit => info.sender in l.citizens
    case GrantBadge(citizen, _) => info.sender == l.governance && citizen in l.citizens
    case RevokeBadge(_, _) => info.sender == l.governance
    case RotateAttester(_) => info.sender == l.governance
  }

  /** Exactly these messages take effect, unless arithmetic overflows or the balance does not cover a payment. */
  lemma AcceptedIffEntitled(l: Ledger, now: nat, info: Info, m: Msg)
    ensures var o := Step(l, now, info, m);
            && (o.Done? ==> Entitled(l, now, info, m))
            && (Entitled(l, now, info, m) && o.Failed? ==>
                  || (o.error == Overflow && (m.ContributeCapital? || m.AttestHonor?))
                  || (o.error == BankSendFailed && m.Ragequit?))
  {
    PaymentCovered(l, now, info, m);
    hide Settled, SettlementFits, Marked, Newborn, BadgesOf;
  }

  /** A new citizen: one unit of capital, a rate of 1%, the sabbath on the last day of the cycle, no credited week. */
  lemma JoinIs(l: Ledger, now: nat, info: Info)
    requires Step(l, now, info, Join).Done?
    ensures var c, today := Step(l, now, info, Join).ledger.citizens[info.sender], now / 86_400;
            && c.isCitizen && c.joinDay == today && c.sabbath == 6 && c.locked == 0
            && c.honor == [1, 0, 0] && c.lastDay == [today, today, today] && c.rate == [100, 100, 100]
            && c.weeks == 0 && c.lastWeek == today / 7 && c.mult == 10_000
  {
  }

  /** An accepted attestation of an active day protects that day, of that citizen, from then on. */
  lemma AttestedDayProtects(l: Ledger, now: nat, info: Info, m: Msg)
    requires m.AttestDay? && m.activeMet && Step(l, now, info, m).Done?
    ensures var l' := Step(l, now, info, m).ledger;
            && m.worker in l'.citizens && l'.citizens == l.citizens
            && Exempt(ShieldOf(l'.citizens[m.worker], DaysOf(l'.active, m.worker)), m.day)
            && forall a | a != m.worker :: DaysOf(l'.active, a) == DaysOf(l.active, a)
  {
    hide Today, Attached;
  }

  /** Whose record, flags, badges and proof of personhood a message is about. */
  function Subject(info: Info, m: Msg): Addr {
    match m
    case AttestPoP(who) => who
    case AttestHonor(who, _, _, _) => who
    case AttestDay(who, _, _, _, _) => who
    case GrantBadge(who, _) => who
    case RevokeBadge(who, _) => who
    case _ => info.sender
  }

  /** Everything that is kept about the address is the same. */
  ghost predicate SameFor(l: Ledger, l': Ledger, a: Addr) {
    && (a in l'.citizens <==> a in l.citizens) && (a in l.citizens ==> l'.citizens[a] == l.citizens[a])
    && (a in l'.pop <==> a in l.pop) && (forall b :: (a, b) in l'.badges <==> (a, b) in l.badges)
    && DaysOf(l'.active, a) == DaysOf(l.active, a) && DaysOf(l'.volunteer, a) == DaysOf(l.volunteer, a)
  }

  /** No message touches anybody but the one it is about. */
  lemma OnlySubjectTouched(l: Ledger, now: nat, info: Info, m: Msg, a: Addr)
    requires Step(l, now, info, m).Done? && a != Subject(info, m)
    ensures SameFor(l, Step(l, now, info, m).ledger, a)
  {
    hide Settled, SettlementFits, Newborn, Today, Attached;
  }

  /** What governance and the attester change about roles, badges and persons, and that nothing else does. */
  lemma RolesAndBadges(l: Ledger, now: nat, info: Info, m: Msg)
    requires Step(l, now, info, m).Done?
    ensures var l' := Step(l, now, info, m).ledger;
            && l'.governance == l.governance && l'.denom == l.denom
            && l'.attester == (if m.RotateAttester? then m.newAttester else l.attester)
            && l'.pop == l.pop + (if m.AttestPoP? then {m.worker} else {})
            && (forall a, b :: (a, b) in l'.badges <==>
                  || ((a, b) in l.badges && m != RevokeBadge(a, b) && !(m.Ragequit? && info.sender == a))
                  || m == GrantBadge(a, b))
            && (m.SetSabbathDay? ==> l'.citizens[info.sender] == l.citizens[info.sender].(sabbath := m.offset))
  {
    hide Settled, SettlementFits, Newborn, Today, Attached, Marked;
    forall a, b: Badge
      ensures (a, b) in BadgesOf(info.sender) <==> a == info.sender
    {
      match b
      case Governance =>
      case Audit =>
      case Dispute =>
      case Node =>
    }
  }

  // ---------- runs without the keyholders ----------

  /** The entry is sent by neither the attester nor governance. */
  predicate Keyless(e: Entry, l: Ledger) {
    e.Tx? ==> e.info.sender != l.attester && e.info.sender != l.governance
  }

  predicate AllKeyless(entries: seq<Entry>, l: Ledger) {
    forall e | e in entries :: Keyless(e, l)
  }

  function HonorOf(l: Ledger, a: Addr, i: nat): nat
    requires i < 3
  {
    if a in l.citizens then l.citizens[a].honor[i] else 0
  }

  /** Roles, proofs of personhood, flags and identifiers are as they were; badges and attested honors at most lost. */
  ghost predicate NothingGranted(l: Ledger, l': Ledger) {
    && l'.attester == l.attester && l'.governance == l.governance && l'.pop == l.pop && l'.badges <= l.badges
    && l'.active == l.active && l'.volunteer == l.volunteer && l'.consumed == l.consumed
    && forall a, i | 0 < i < 3 :: HonorOf(l', a, i) <= HonorOf(l, a, i)
  }

  lemma ContributionSpares(l: Ledger, who: Addr, amount: nat, today: nat, i: nat)
    requires who in l.citizens && 0 < i < 3
    ensures Settled(l, who, 0, amount, today).honor[i] == l.citizens[who].honor[i]
  {
    var d := Decayed(l.citizens[who], 0, DaysOf(l.active, who), today);
    Courses.ProcessedAxes(Earned(d, 0, amount), 0, DaysOf(l.volunteer, who), i);
    hide Processed, Days;
  }

  lemma StepGrantsNothing(l: Ledger, now: nat, info: Info, m: Msg, paid: nat, l': Ledger)
    requires Step(l, now, info, m) == Done(l', paid) && info.sender != l.attester && info.sender != l.governance
    ensures NothingGranted(l, l')
  {
    AcceptedIffEntitled(l, now, info, m);
    hide Settled, SettlementFits, Marked, Attached, Today, BadgesOf;
    if m.ContributeCapital? {
      ContributionSpares(l, info.sender, info.funds[l.denom], Today(now), 1);
      ContributionSpares(l, info.sender, info.funds[l.denom], Today(now), 2);
    } else if m.Join? {
      assert Newborn(Today(now)).honor == [1, 0, 0];
    }
  }

  lemma RecordedLedger(w: World, info: Info, m: Msg, l: Ledger, paid: nat)
    ensures Recorded(w, info, m, l, paid).ledger == l
  {
  }

  lemma EntryGrantsNothing(w: World, e: Entry)
    requires Keyless(e, w.ledger)
    ensures NothingGranted(w.ledger, After(w, e).ledger)
  {
    hide Step, Recorded;
    if e.Tx? {
      var o := Step(w.ledger, e.now, e.info, e.msg);
      if o.Done? {
        RecordedLedger(w, e.info, e.msg, o.ledger, o.paid);
        StepGrantsNothing(w.ledger, e.now, e.info, e.msg, o.paid, o.ledger);
      }
    }
  }

  /**
   Without the attester and governance no run makes anybody a person, attests a
   day, uses an identifier, grants a badge, moves a role or raises a labor or
   verification honor.
   */
  lemma {:induction false} KeylessRunsGrantNothing(w: World, entries: seq<Entry>)
    requires AllKeyless(entries, w.ledger)
    ensures NothingGranted(w.ledger, Run(w, entries).ledger)
  {
    if entries != [] {
      var before, e := entries[..|entries| - 1], entries[|entries| - 1];
      assert e in entries && forall x | x in before :: x in entries;
      hide After;
      KeylessRunsGrantNothing(w, before);
      EntryGrantsNothing(Run(w, before), e);
      assert forall a, i | 0 < i < 3 :: HonorOf(Run(w, before).ledger, a, i) <= HonorOf(w.ledger, a, i);
    }
  }
}

/** The same on Solidity, where the attester signs, and signatures expire. */
module SolidityAuthority {
  import opened Constants
  import opened Types
  import opened Decay
  import opened Citizens
  import opened Solidity
  import opened SolidityRuns
  import Cosmwasm

  /** Some calls carry a signature of the attester, a time until which it is good, and an identifier. */
  predicate IsSigned(m: Call) {
    m.AttestPoP? || m.BridgeMintCapital? || m.AttestHonor? || m.AttestDay?
  }

  function IdentifierOf(m: Call): Id
    requires IsSigned(m)
  {
    match m
    case AttestPoP(_, _, nonce, _) => nonce
    case BridgeMintCapital(_, _, lockId, _, _) => lockId
    case AttestHonor(_, _, _, jobId, _, _) => jobId
    case AttestDay(_, _, _, _, _, nonce, _) => nonce
  }

  predicate Entitled(l: Ledger, now: nat, sender: Addr, m: Call) {
    && (IsSigned(m) ==> now <= m.expiry && m.signer == l.attester && IdentifierOf(m) !in l.consumed)
    && (m.BridgeMintCapital? || m.AttestHonor? || m.AttestDay? ==>
          m.worker in l.pop && CitizenAt(l.citizens, m.worker).isCitizen)
    && match m
       case AttestPoP(_, _, _, _) => true
       case Join => sender in l.pop && !CitizenAt(l.citizens, sender).isCitizen
       case SetSabbathDay(offset) => CitizenAt(l.citizens, sender).isCitizen && offset < 7
       case BridgeMintCapital(_, amount, _, _, _) => amount > 0
       case AttestHonor(_, axis, _, _, _, _) => !axis.Capital?
       case AttestDay(who, day, _, _, _, _, _) => CitizenAt(l.citizens, who).joinDay <= day <= now / 86_400
       case Ragequit => CitizenAt(l.citizens, sender).isCitizen
       case GrantBadge(citizen, _) => sender == l.governance && CitizenAt(l.citizens, citizen).isCitizen
       case RevokeBadge(_, _) => sender == l.governance
       case RotateAttester(newAttester) => sender == l.governance && newAttester != "0x0"
  }

  /** Exactly these calls take effect, unless arithmetic overflows. */
  lemma AcceptedIffEntitled(l: Ledger, now: nat, sender: Addr, m: Call)
    ensures var o := Step(l, now, sender, m);
            && (o.Done? ==> Entitled(l, now, sender, m))
            && (Entitled(l, now, sender, m) && o.Revert? ==>
                  o.reason == Overflow && (m.BridgeMintCapital? || m.AttestHonor?))
  {
    hide Settled, SettlementFits, Marked, Reborn;
  }

  /** A first join: one unit of capital, a rate of 1%, the sabbath on the last day of the cycle, no credited week. */
  lemma JoinIs(l: Ledger, now: nat, sender: Addr)
    requires Step(l, now, sender, Join).Done? && CitizenAt(l.citizens, sender) == NOBODY
    ensures var c, today := CitizenAt(Step(l, now, sender, Join).ledger.citizens, sender), now / 86_400;
            && c.isCitizen && c.joinDay == today && c.sabbath == 6 && c.locked == 0
            && c.honor == [1, 0, 0] && c.lastDay == [today, today, today] && c.rate == [100, 100, 100]
            && c.weeks == 0 && c.lastWeek == today / 7 && c.mult == 10_000
  {
  }

  lemma AttestedDayProtects(l: Ledger, now: nat, sender: Addr, m: Call)
    requires m.AttestDay? && m.activeMet && Step(l, now, sender, m).Done?
    ensures var l' := Step(l, now, sender, m).ledger;
            && l'.citizens == l.citizens
            && Exempt(ShieldOf(CitizenAt(l'.citizens, m.worker), DaysOf(l'.active, m.worker)), m.day)
            && forall a | a != m.worker :: DaysOf(l'.active, a) == DaysOf(l.active, a)
  {
    hide Today;
  }

  /** Whose record, flags, badges and proof of personhood a call is about. */
  function Subject(sender: Addr, m: Call): Addr {
    match m
    case AttestPoP(who, _, _, _) => who
    case BridgeMintCapital(who, _, _, _, _) => who
    case AttestHonor(who, _, _, _, _, _) => who
    case AttestDay(who, _, _, _, _, _, _) => who
    case GrantBadge(who, _) => who
    case RevokeBadge(who, _) => who
    case _ => sender
  }

  ghost predicate SameFor(l: Ledger, l': Ledger, a: Addr) {
    && CitizenAt(l'.citizens, a) == CitizenAt(l.citizens, a)
    && (a in l'.pop <==> a in l.pop) && (forall b :: (a, b) in l'.badges <==> (a, b) in l.badges)
    && DaysOf(l'.active, a) == DaysOf(l.active, a) && DaysOf(l'.volunteer, a) == DaysOf(l.volunteer, a)
  }

  /** No call touches anybody but the one it is about. */
  lemma OnlySubjectTouched(l: Ledger, now: nat, sender: Addr, m: Call, a: Addr)
    requires Step(l, now, sender, m).Done? && a != Subject(sender, m)
    ensures SameFor(l, Step(l, now, sender, m).ledger, a)
  {
    hide Settled, SettlementFits, Reborn, Today;
  }

  lemma RolesAndBadges(l: Ledger, now: nat, sender: Addr, m: Call)
    requires Step(l, now, sender, m).Done?
    ensures var l' := Step(l, now, sender, m).ledger;
            && l'.governance == l.governance
            && l'.attester == (if m.RotateAttester? then m.newAttester else l.attester)
            && l'.pop == l.pop + (if m.AttestPoP? then {m.worker} else {})
            && (forall a, b :: (a, b) in l'.badges <==>
                  || ((a, b) in l.badges && m != RevokeBadge(a, b) && !(m.Ragequit? && sender == a))
                  || m == GrantBadge(a, b))
            && (m.SetSabbathDay? ==>
                  CitizenAt(l'.citizens, sender) == CitizenAt(l.citizens, sender).(sabbath := m.offset))
            && (m.Ragequit? ==> CitizenAt(l'.citizens, sender) == NOBODY)
  {
    hide Settled, SettlementFits, Reborn, Today, Marked;
    forall a, b: Badge
      ensures (a, b) in Cosmwasm.BadgesOf(sender) <==> a == sender
    {
      match b
      case Governance =>
      case Audit =>
      case Dispute =>
      case Node =>
    }
  }

  // ---------- expired calls ----------

  predicate Expired(t: Timed) {
    IsSigned(t.call) && t.now > t.call.expiry
  }

  function Unexpired(calls: seq<Timed>): seq<Timed> {
    if calls == [] then []
    else
      var last := calls[|calls| - 1];
      Unexpired(calls[..|calls| - 1]) + if Expired(last) then [] else [last]
  }

  lemma RunNext(w: World, calls: seq<Timed>, t: Timed)
    ensures Run(w, calls + [t]) == After(Run(w, calls), t)
  {
    assert (calls + [t])[..|calls|] == calls;
  }

  /** The time of the last call is not stored on chain. */
  lemma TimeForgotten(w: World, now: nat, t: Timed)
    ensures After(w.(now := now), t) == After(w, t)
  {
    hide Step;
  }

  /** Over any run, expired calls of all four kinds do nothing at all: it ends as it would without them. */
  lemma {:induction false} ExpiredCallsDoNothing(w: World, calls: seq<Timed>)
    ensures var u, v := Run(w, calls), Run(w, Unexpired(calls)); u == v.(now := u.now)
  {
    if calls != [] {
      var before, t := calls[..|calls| - 1], calls[|calls| - 1];
      ExpiredCallsDoNothing(w, before);
      var u, v := Run(w, before), Run(w, Unexpired(before));
      if Expired(t) {
        AcceptedIffEntitled(u.ledger, t.now, t.sender, t.call);
        assert Unexpired(calls) == Unexpired(before);
      } else {
        TimeForgotten(v, u.now, t);
        RunNext(w, Unexpired(before), t);
      }
      hide Step, Recorded, Entitled;
    }
  }

  // ---------- runs without the keyholders ----------

  predicate Keyless(t: Timed, l: Ledger) {
    t.sender != l.governance && (IsSigned(t.call) ==> t.call.signer != l.attester)
  }

  predicate AllKeyless(calls: seq<Timed>, l: Ledger) {
    forall t | t in calls :: Keyless(t, l)
  }

  /** Nothing is granted: moreover, no capital is minted, and capital only moves by decay and bonuses. */
  ghost predicate NothingGranted(l: Ledger, l': Ledger) {
    && l'.attester == l.attester && l'.governance == l.governance && l'.pop == l.pop && l'.badges <= l.badges
    && l'.active == l.active && l'.volunteer == l.volunteer && l'.consumed == l.consumed
    && forall a ::
         var c, c' := CitizenAt(l.citizens, a), CitizenAt(l'.citizens, a);
         c'.honor[1] <= c.honor[1] && c'.honor[2] <= c.honor[2] && c'.locked <= c.locked
  }

  lemma StepGrantsNothing(l: Ledger, now: nat, sender: Addr, m: Call, l': Ledger, events: seq<Event>)
    requires Step(l, now, sender, m) == Done(l', events) && Keyless(Timed(now, sender, m), l)
    ensures NothingGranted(l, l')
  {
    AcceptedIffEntitled(l, now, sender, m);
    hide Settled, SettlementFits, Marked, Today;
    if m.Join? {
      hide Reborn;
      RebornKeeps(CitizenAt(l.citizens, sender), Today(now));
    }
  }

  lemma RebornKeeps(c: Citizen, today: nat)
    ensures var d := Reborn(c, today); d.honor[1] == c.honor[1] && d.honor[2] == c.honor[2] && d.locked == c.locked
  {
  }

  lemma RecordedLedger(w: World, sender: Addr, m: Call, l: Ledger)
    ensures Recorded(w, sender, m, l).ledger == l
  {
  }

  lemma CallGrantsNothing(w: World, t: Timed)
    requires Keyless(t, w.ledger)
    ensures NothingGranted(w.ledger, After(w, t).ledger)
  {
    hide Step, Recorded, Keyless;
    var o := Step(w.ledger, t.now, t.sender, t.call);
    if o.Done? {
      RecordedLedger(w.(now := t.now), t.sender, t.call, o.ledger);
      StepGrantsNothing(w.ledger, t.now, t.sender, t.call, o.ledger, o.events);
    }
  }

  /** Without the attester's signature and governance no run grants anything, as on CosmWasm, nor mints capital. */
  lemma {:induction false} KeylessRunsGrantNothing(w: World, calls: seq<Timed>)
    requires AllKeyless(calls, w.ledger)
    ensures NothingGranted(w.ledger, Run(w, calls).ledger)
  {
    if calls != [] {
      var before, t := calls[..|calls| - 1], calls[|calls| - 1];
      assert t in calls && forall x | x in before :: x in calls;
      hide After;
      KeylessRunsGrantNothing(w, before);
      CallGrantsNothing(Run(w, before), t);
    }
  }
}
