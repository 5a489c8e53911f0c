/** The Solidity contract: storage updated in place, deposits minted by signed bridge messages. */
module Solidity {
  import opened Constants
  import opened Types
  import opened Decay
  import opened Volunteer
  import opened Citizens
  import opened DayBits
  import opened Loops
  import Cosmwasm

  type Badge = Cosmwasm.Badge

  const ZERO_ADDRESS: Addr := "0x0"

  /** The record of an address that has never joined, or has left. */
  const NOBODY: Citizen :=
    Citizen(false, 0, 0, 0, [0, 0, 0], [0, 0, 0], [0, 0, 0], 0, 0, 0)

  datatype Reason =
    | Expired | Replay | BadSignature | PoPRequired | AlreadyCitizen | NotCitizen | InvalidOffset
    | ZeroAmount | CapitalAxis | FutureDay | BeforeJoin | OnlyGovernance | ZeroAttester | Overflow

  /** A call; a signed one carries the address recovered from its signature over exactly these arguments. */
  datatype Call =
    | AttestPoP(worker: Addr, expiry: nat, nonce: Id, signer: Addr)
    | Join
    | SetSabbathDay(offset: nat)
    | BridgeMintCapital(worker: Addr, amount: nat, lockId: Id, expiry: nat, signer: Addr)
    | AttestHonor(worker: Addr, axis: Axis, delta: nat, jobId: Id, expiry: nat, signer: Addr)
    | AttestDay(worker: Addr, day: nat, activeMet: bool, volunteerMet: bool, expiry: nat, nonce: Id, signer: Addr)
    | Ragequit
    | GrantBadge(citizen: Addr, badge: Badge)
    | RevokeBadge(citizen: Addr, badge: Badge)
    | RotateAttester(newAttester: Addr)

  datatype Event = CapitalBridged(worker: Addr, minted: nat, lockId: Id) | RagequitRequest(citizen: Addr, amount: nat)

  datatype Ledger = Ledger(
    attester: Addr,
    governance: Addr,
    citizens: map<Addr, Citizen>,
    pop: set<Addr>,
    badges: set<(Addr, Badge)>,
    active: DayFlags,
    volunteer: DayFlags,
    consumed: set<Id>)

  /** A call either takes effect, emitting events of the bridge, or reverts and changes nothing. */
  datatype Outcome = Done(ledger: Ledger, events: seq<Event>) | Revert(reason: Reason)

  /** Reading a mapping: an absent key holds the zero record. */
  function CitizenAt(citizens: map<Addr, Citizen>, who: Addr): Citizen {
    if who in citizens then citizens[who] else NOBODY
  }

  // ---------- what each call means ----------

  /** Decay, then the weeks completed by the settled axis; new honor comes after. */
  function Settled(l: Ledger, who: Addr, i: nat, today: nat): Citizen
    requires i < 3
  {
    Processed(Decayed(CitizenAt(l.citizens, who), i, DaysOf(l.active, who), today), i, DaysOf(l.volunteer, who))
  }

  predicate SettlementFits(l: Ledger, who: Addr, i: nat, today: nat)
    requires i < 3
  {
    var c := CitizenAt(l.citizens, who);
    && DecayFits(U256_MAX, c, i, DaysOf(l.active, who), today)
    && ProcessFits(U256_MAX, Decayed(c, i, DaysOf(l.active, who), today), i, DaysOf(l.volunteer, who))
  }

  /** The identifiers used up play no part in settlement. */
  lemma SettlementIgnoresIds(l: Ledger, ids: set<Id>, who: Addr, i: nat, today: nat)
    requires i < 3
    ensures SettlementFits(l.(consumed := ids), who, i, today) == SettlementFits(l, who, i, today)
    ensures Settled(l.(consumed := ids), who, i, today) == Settled(l, who, i, today)
  {
  }

  /** Joining overwrites some fields of the stored record and leaves the others as they are. */
  function Reborn(c: Citizen, today: nat): Citizen {
    c.(isCitizen := true, joinDay := today, sabbath := DEFAULT_SABBATH_OFFSET,
       honor := c.honor[0 := INITIAL_CAPITAL_HONOR],
       lastDay := [today, today, today],
       rate := [BASE_DECAY_BP, BASE_DECAY_BP, BASE_DECAY_BP],
       lastWeek := today / 7, mult := BASIS_POINTS)
  }

  function DoAttestPoP(l: Ledger, now: nat, m: Call): Outcome
    requires m.AttestPoP?
  {
    if now > m.expiry then Revert(Expired)
    else if m.nonce in l.consumed then Revert(Replay)
    else if m.signer != l.attester then Revert(BadSignature)
    else Done(l.(consumed := l.consumed + {m.nonce}, pop := l.pop + {m.worker}), [])
  }

  function DoJoin(l: Ledger, sender: Addr, today: nat): Outcome {
    var c := CitizenAt(l.citizens, sender);
    if sender !in l.pop then Revert(PoPRequired)
    else if c.isCitizen then Revert(AlreadyCitizen)
    else Done(l.(citizens := l.citizens[sender := Reborn(c, today)]), [])
  }

  function DoSetSabbathDay(l: Ledger, sender: Addr, offset: nat): Outcome {
    var c := CitizenAt(l.citizens, sender);
    if !c.isCitizen then Revert(NotCitizen)
    else if offset >= 7 then Revert(InvalidOffset)
    else Done(l.(citizens := l.citizens[sender := c.(sabbath := offset)]), [])
  }

  function DoBridgeMint(l: Ledger, now: nat, m: Call): Outcome
    requires m.BridgeMintCapital?
  {
    var c := CitizenAt(l.citizens, m.worker);
    if m.worker !in l.pop then Revert(PoPRequired)
    else if !c.isCitizen then Revert(NotCitizen)
    else if m.amount == 0 then Revert(ZeroAmount)
    else if now > m.expiry then Revert(Expired)
    else if m.lockId in l.consumed then Revert(Replay)
    else if m.signer != l.attester then Revert(BadSignature)
    else if !SettlementFits(l, m.worker, 0, Today(now)) then Revert(Overflow)
    else
      var s := Settled(l, m.worker, 0, Today(now));
      if s.honor[0] + m.amount > U256_MAX || s.locked + m.amount > U256_MAX then Revert(Overflow)
      else
        var s' := Earned(s, 0, m.amount);
        Done(l.(consumed := l.consumed + {m.lockId},
                citizens := l.citizens[m.worker := s'.(locked := s'.locked + m.amount)]),
             [CapitalBridged(m.worker, m.amount, m.lockId)])
  }

  function DoAttestHonor(l: Ledger, now: nat, m: Call): Outcome
    requires m.AttestHonor?
  {
    var i := m.axis.Index();
    if m.axis.Capital? then Revert(CapitalAxis)
    else if m.worker !in l.pop then Revert(PoPRequired)
    else if !CitizenAt(l.citizens, m.worker).isCitizen then Revert(NotCitizen)
    else if now > m.expiry then Revert(Expired)
    else if m.jobId in l.consumed then Revert(Replay)
    else if m.signer != l.attester then Revert(BadSignature)
    else if !SettlementFits(l, m.worker, i, Today(now)) then Revert(Overflow)
    else
      var s := Settled(l, m.worker, i, Today(now));
      if s.honor[i] + m.delta > U256_MAX then Revert(Overflow)
      else
        Done(l.(consumed := l.consumed + {m.jobId}, citizens := l.citizens[m.worker := Earned(s, i, m.delta)]), [])
  }

  function DoAttestDay(l: Ledger, now: nat, m: Call): Outcome
    requires m.AttestDay?
  {
    var c := CitizenAt(l.citizens, m.worker);
    if m.worker !in l.pop then Revert(PoPRequired)
    else if !c.isCitizen then Revert(NotCitizen)
    else if now > m.expiry then Revert(Expired)
    else if m.nonce in l.consumed then Revert(Replay)
    else if m.day > Today(now) then Revert(FutureDay)
    else if m.day < c.joinDay then Revert(BeforeJoin)
    else if m.signer != l.attester then Revert(BadSignature)
    else
      Done(l.(consumed := l.consumed + {m.nonce},
              active := if m.activeMet then Marked(l.active, m.worker, m.day) else l.active,
              volunteer := if m.volunteerMet then Marked(l.volunteer, m.worker, m.day) else l.volunteer), [])
  }

  /** The record is zeroed; the locked amount is only announced, for the bridge to release. */
  function DoRagequit(l: Ledger, sender: Addr): Outcome {
    var c := CitizenAt(l.citizens, sender);
    if !c.isCitizen then Revert(NotCitizen)
    else
      Done(l.(badges := l.badges - Cosmwasm.BadgesOf(sender), citizens := l.citizens[sender := NOBODY]),
           [RagequitRequest(sender, c.locked)])
  }

  function DoGrantBadge(l: Ledger, sender: Addr, citizen: Addr, badge: Badge): Outcome {
    if sender != l.governance then Revert(OnlyGovernance)
    else if !CitizenAt(l.citizens, citizen).isCitizen then Revert(NotCitizen)
    else Done(l.(badges := l.badges + {(citizen, badge)}), [])
  }

  function DoRevokeBadge(l: Ledger, sender: Addr, citizen: Addr, badge: Badge): Outcome {
    if sender != l.governance then Revert(OnlyGovernance)
    else Done(l.(badges := l.badges - {(citizen, badge)}), [])
  }

  function DoRotateAttester(l: Ledger, sender: Addr, newAttester: Addr): Outcome {
    if sender != l.governance then Revert(OnlyGovernance)
    else if newAttester == ZERO_ADDRESS then Revert(ZeroAttester)
    else Done(l.(attester := newAttester), [])
  }

  function Step(l: Ledger, now: nat, sender: Addr, m: Call): Outcome {
    match m
    case AttestPoP(_, _, _, _) => DoAttestPoP(l, now, m)
    case Join => DoJoin(l, sender, Today(now))
    case SetSabbathDay(offset) => DoSetSabbathDay(l, sender, offset)
    case BridgeMintCapital(_, _, _, _, _) => DoBridgeMint(l, now, m)
    case AttestHonor(_, _, _, _, _, _) => DoAttestHonor(l, now, m)
    case AttestDay(_, _, _, _, _, _, _) => DoAttestDay(l, now, m)
    case Ragequit => DoRagequit(l, sender)
    case GrantBadge(citizen, badge) => DoGrantBadge(l, sender, citizen, badge)
    case RevokeBadge(citizen, badge) => DoRevokeBadge(l, sender, citizen, badge)
    case RotateAttester(newAttester) => DoRotateAttester(l, sender, newAttester)
  }

  // ---------- the contract ----------

  datatype Response = Ok(events: seq<Event>) | Err(reason: Reason)

  class Contract {
    var governance: Addr
    var attester: Addr
    var citizens: map<Addr, Citizen>
    var hasBadge: set<(Addr, Badge)>
    var attestedPoP: set<Addr>
    const activeDayBits: Bits256
    const volunteerDayBits: Bits256
    var consumed: set<Id>

    ghost predicate Valid()
      reads this, activeDayBits, volunteerDayBits
    {
      && activeDayBits != volunteerDayBits && activeDayBits.Valid() && volunteerDayBits.Valid()
      && forall a | a in citizens :: OnTime(citizens[a])
    }

    ghost function State(): Ledger
      reads this, activeDayBits, volunteerDayBits
    {
      Ledger(attester, governance, citizens, attestedPoP, hasBadge, activeDayBits.days, volunteerDayBits.days, consumed)
    }

    /** The response and the new state are what the given outcome says. */
    twostate predicate Follows(r: Response, o: Outcome)
      reads this, activeDayBits, volunteerDayBits
    {
      match o
      case Done(l, events) => r == Ok(events) && State() == l
      case Revert(reason) => r == Err(reason) && State() == old(State())
    }

    constructor (deployer: Addr, attester: Addr)
      ensures Valid() && fresh(activeDayBits) && fresh(volunteerDayBits)
      ensures State() == Ledger(attester, deployer, map[], {}, {}, map[], map[], {})
    {
      governance, this.attester := deployer, attester;
      citizens, attestedPoP, hasBadge, consumed := map[], {}, {}, {};
      activeDayBits := new Bits256();
      volunteerDayBits := new Bits256();
    }

    /** The deployment, which reverts for the zero attester. */
    static method Deploy(deployer: Addr, attester: Addr) returns (c: Contract?)
      ensures c == null <==> attester == ZERO_ADDRESS
      ensures c != null ==>
                && fresh(c) && fresh(c.activeDayBits) && fresh(c.volunteerDayBits) && c.Valid()
                && c.State() == Ledger(attester, deployer, map[], {}, {}, map[], map[], {})
    {
      if attester == ZERO_ADDRESS {
        return null;
      }
      c := new Contract(deployer, attester);
    }

    function At(who: Addr): Citizen
      reads this
    {
      CitizenAt(citizens, who)
    }

    /** Settles an axis, and the weeks it completes, in storage; on false the transaction reverts. */
    method ApplyDecay(who: Addr, i: nat, now: nat) returns (ok: bool)
      requires Valid() && i < 3 && At(who).isCitizen
      modifies this`citizens
      ensures ok <==> SettlementFits(old(State()), who, i, Today(now))
      ensures ok ==> Valid() && citizens == old(citizens)[who := Settled(old(State()), who, i, Today(now))]
    {
      ok := SettleDays(who, i, now / SECONDS_PER_DAY);
      if ok {
        ok := ProcessWeeks(who, At(who).lastDay[i]);
      }
    }

    /** The first part of ApplyDecay: up to 90 days of one axis. */
    method SettleDays(who: Addr, i: nat, today: nat) returns (ok: bool)
      requires Valid() && i < 3 && At(who).isCitizen
      modifies this`citizens
      ensures var c, active := old(At(who)), DaysOf(activeDayBits.days, who);
              && (ok <==> DecayFits(U256_MAX, c, i, active, today))
              && (ok ==> Valid() && citizens == old(citizens)[who := Decayed(c, i, active, today)])
    {
      ghost var c := At(who);
      assert citizens == citizens[who := c];
      DecayKeepsOnTime(c, i, DaysOf(activeDayBits.days, who), today);
      var last := At(who).lastDay[i];
      if today <= last {
        assert c == Decayed(c, i, DaysOf(activeDayBits.days, who), today);
        return true;
      }
      var dayCount := today - last;
      if dayCount > MAX_DECAY_DAYS_PER_CALL {
        dayCount := MAX_DECAY_DAYS_PER_CALL;
      }
      var endDay := last + dayCount;
      var honor, rate;
      ok, honor, rate :=
        ReplayDays(AxisOf(At(who), i), endDay, At(who).sabbath, At(who).joinDay, who, activeDayBits);
      if ok {
        citizens := citizens[who := WithAxis(At(who), i, AxisState(honor, rate, endDay))];
      }
    }

    /** The loop of ApplyDecay, over the days after a.day up to endDay. */
    static method ReplayDays(a: AxisState, endDay: nat, sabbathOff: nat, join: nat, who: Addr, bits: Bits256)
      returns (ok: bool, honor: nat, rate: nat)
      requires bits.Valid() && join <= a.day <= endDay
      ensures var s := Shield(join, sabbathOff, DaysOf(bits.days, who));
              && (ok <==> DaysFit(U256_MAX, s, a, endDay - a.day))
              && (ok ==> Days(s, a, endDay - a.day) == AxisState(honor, rate, endDay))
    {
      honor, rate := a.honor, a.rate;
      ghost var s := Shield(join, sabbathOff, DaysOf(bits.days, who));
      hide Settling, Days, DaysFit, Undecayed, NextRate, Exempt;
      SettlingStarts(U256_MAX, s, a);
      for d := a.day + 1 to endDay + 1
        invariant Settling(U256_MAX, s, a, d - 1, honor, rate)
      {
        ghost var oldRate := rate;
        rate := GrowRate(rate);
        ExemptIs(s, d);
        DayCases(U256_MAX, s, a, endDay, d, honor, oldRate, rate);
        if honor != 0 && (d - join) % 7 != sabbathOff && !bits.GetBit(who, d) {
          if rate >= BASIS_POINTS {
            honor := 0;
          } else {
            if Undecayed(honor, rate) > U256_MAX {
              return false, honor, rate;
            }
            honor := Undecayed(honor, rate) / BASIS_POINTS;
          }
        }
      }
      SettlingEnds(U256_MAX, s, a, endDay, honor, rate);
      return true, honor, rate;
    }

    method ProcessWeeks(who: Addr, throughDay: nat) returns (ok: bool)
      requires volunteerDayBits.Valid() && At(who).isCitizen
      modifies this`citizens
      ensures var c, vol := old(At(who)), DaysOf(volunteerDayBits.days, who);
              var due := WeeksDue(throughDay, c.lastWeek);
              && (ok <==> WeeksFit(U256_MAX, vol, WeekStateOf(c), due))
              && (ok ==> citizens == old(citizens)[who := WithWeeks(c, Weeks(vol, WeekStateOf(c), due))])
    {
      assert citizens == citizens[who := At(who)];
      assert At(who) == WithWeeks(At(who), WeekStateOf(At(who)));
      if throughDay < 6 {
        return true;
      }
      var lastCompleteWeek := (throughDay - 6) / 7;
      if lastCompleteWeek <= At(who).lastWeek {
        return true;
      }
      var capital, weeks, multBP;
      ok, capital, weeks, multBP := ReplayWeeks(At(who), who, lastCompleteWeek, volunteerDayBits);
      if ok {
        citizens := citizens[who := WithWeeks(At(who), WeekState(capital, weeks, multBP, lastCompleteWeek))];
      }
    }

    /** The loop of ProcessWeeks, over the unprocessed weeks up to lastCompleteWeek. */
    static method ReplayWeeks(c: Citizen, who: Addr, lastCompleteWeek: nat, bits: Bits256)
      returns (ok: bool, capital: nat, weeks: nat, multBP: nat)
      requires bits.Valid() && c.lastWeek <= lastCompleteWeek
      ensures var vol, s, due := DaysOf(bits.days, who), WeekStateOf(c), lastCompleteWeek - c.lastWeek;
              && (ok <==> WeeksFit(U256_MAX, vol, s, due))
              && (ok ==> Weeks(vol, s, due) == WeekState(capital, weeks, multBP, lastCompleteWeek))
    {
      capital, weeks, multBP := c.honor[0], c.weeks, c.mult;
      ghost var vol, s := DaysOf(bits.days, who), WeekStateOf(c);
      hide Crediting, Weeks, WeeksFit, Qualified;
      CreditingStarts(U256_MAX, vol, s);
      for w := c.lastWeek + 1 to lastCompleteWeek + 1
        invariant Crediting(U256_MAX, vol, s, w - 1, capital, weeks, multBP)
      {
        WeekCases(U256_MAX, vol, s, lastCompleteWeek, w, capital, weeks, multBP);
        var qualified := bits.WeekQualifies(who, w);
        if qualified {
          if multBP * VOLUNTEER_BONUS_NUM > U256_MAX || capital * VOLUNTEER_CAPITAL_PCT > U256_MAX {
            return false, capital, weeks, multBP;
          }
          weeks := weeks + 1;
          multBP := multBP * VOLUNTEER_BONUS_NUM / VOLUNTEER_BONUS_DEN;
          var capBonus := capital * VOLUNTEER_CAPITAL_PCT / BASIS_POINTS;
          if capBonus < VOLUNTEER_CAPITAL_MIN {
            capBonus := VOLUNTEER_CAPITAL_MIN;
          }
          if capital + capBonus > U256_MAX {
            return false, capital, weeks, multBP;
          }
          capital := capital + capBonus;
        }
      }
      CreditingEnds(U256_MAX, vol, s, lastCompleteWeek, capital, weeks, multBP);
      return true, capital, weeks, multBP;
    }

    method BridgeMintCapital(now: nat, m: Call) returns (r: Response)
      requires Valid() && m.BridgeMintCapital?
      modifies this`citizens, this`consumed
      ensures Valid() && Follows(r, DoBridgeMint(old(State()), now, m))
    {
      hide Settled, SettlementFits, DaysOf, Today;
      if m.worker !in attestedPoP {
        return Err(PoPRequired);
      }
      if !At(m.worker).isCitizen {
        return Err(NotCitizen);
      }
      if m.amount == 0 {
        return Err(ZeroAmount);
      }
      if now > m.expiry {
        return Err(Expired);
      }
      if m.lockId in consumed {
        return Err(Replay);
      }
      if m.signer != attester {
        return Err(BadSignature);
      }
      var storedCitizens, storedConsumed := citizens, consumed;
      consumed := consumed + {m.lockId};
      SettlementIgnoresIds(old(State()), consumed, m.worker, 0, Today(now));
      var ok := ApplyDecay(m.worker, 0, now);
      if !ok || At(m.worker).honor[0] + m.amount > U256_MAX || At(m.worker).locked + m.amount > U256_MAX {
        citizens, consumed := storedCitizens, storedConsumed;
        return Err(Overflow);
      }
      var c := Earned(At(m.worker), 0, m.amount);
      citizens := citizens[m.worker := c.(locked := c.locked + m.amount)];
      return Ok([CapitalBridged(m.worker, m.amount, m.lockId)]);
    }

    method AttestHonor(now: nat, m: Call) returns (r: Response)
      requires Valid() && m.AttestHonor?
      modifies this`citizens, this`consumed
      ensures Valid() && Follows(r, DoAttestHonor(old(State()), now, m))
    {
      hide Settled, SettlementFits, DaysOf, Today;
      if m.axis.Capital? {
        return Err(CapitalAxis);
      }
      if m.worker !in attestedPoP {
        return Err(PoPRequired);
      }
      if !At(m.worker).isCitizen {
        return Err(NotCitizen);
      }
      if now > m.expiry {
        return Err(Expired);
      }
      if m.jobId in consumed {
        return Err(Replay);
      }
      if m.signer != attester {
        return Err(BadSignature);
      }
      var storedCitizens, storedConsumed := citizens, consumed;
      consumed := consumed + {m.jobId};
      var i := m.axis.Index();
      SettlementIgnoresIds(old(State()), consumed, m.worker, i, Today(now));
      var ok := ApplyDecay(m.worker, i, now);
      if !ok || At(m.worker).honor[i] + m.delta > U256_MAX {
        citizens, consumed := storedCitizens, storedConsumed;
        return Err(Overflow);
      }
      citizens := citizens[m.worker := Earned(At(m.worker), i, m.delta)];
      return Ok([]);
    }

    method AttestDay(now: nat, m: Call) returns (r: Response)
      requires Valid() && m.AttestDay?
      modifies this`consumed, activeDayBits, volunteerDayBits
      ensures Valid() && Follows(r, DoAttestDay(old(State()), now, m))
    {
      if m.worker !in attestedPoP {
        return Err(PoPRequired);
      }
      if !At(m.worker).isCitizen {
        return Err(NotCitizen);
      }
      if now > m.expiry {
        return Err(Expired);
      }
      if m.nonce in consumed {
        return Err(Replay);
      }
      if m.day > now / SECONDS_PER_DAY {
        return Err(FutureDay);
      }
      if m.day < At(m.worker).joinDay {
        return Err(BeforeJoin);
      }
      if m.signer != attester {
        return Err(BadSignature);
      }
      consumed := consumed + {m.nonce};
      if m.activeMet {
        activeDayBits.SetBit(m.worker, m.day);
      }
      if m.volunteerMet {
        volunteerDayBits.SetBit(m.worker, m.day);
      }
      return Ok([]);
    }

    method JoinCitizens(now: nat, sender: Addr) returns (r: Response)
      requires Valid()
      modifies this`citizens
      ensures Valid() && Follows(r, DoJoin(old(State()), sender, Today(now)))
    {
      if sender !in attestedPoP {
        return Err(PoPRequired);
      }
      if At(sender).isCitizen {
        return Err(AlreadyCitizen);
      }
      citizens := citizens[sender := Reborn(At(sender), now / SECONDS_PER_DAY)];
      return Ok([]);
    }

    method Execute(now: nat, sender: Addr, m: Call) returns (r: Response)
      requires Valid()
      modifies this, activeDayBits, volunteerDayBits
      ensures Valid() && Follows(r, Step(old(State()), now, sender, m))
    {
      match m
      case AttestPoP(worker, expiry, nonce, signer) =>
        if now > expiry {
          return Err(Expired);
        }
        if nonce in consumed {
          return Err(Replay);
        }
        if signer != attester {
          return Err(BadSignature);
        }
        consumed := consumed + {nonce};
        attestedPoP := attestedPoP + {worker};
        return Ok([]);
      case Join =>
        r := JoinCitizens(now, sender);
      case SetSabbathDay(offset) =>
        if !At(sender).isCitizen {
          return Err(NotCitizen);
        }
        if offset >= 7 {
          return Err(InvalidOffset);
        }
        citizens := citizens[sender := At(sender).(sabbath := offset)];
        return Ok([]);
      case BridgeMintCapital(_, _, _, _, _) =>
        r := BridgeMintCapital(now, m);
      case AttestHonor(_, _, _, _, _, _) =>
        r := AttestHonor(now, m);
      case AttestDay(_, _, _, _, _, _, _) =>
        r := AttestDay(now, m);
      case Ragequit =>
        if !At(sender).isCitizen {
          return Err(NotCitizen);
        }
        var amount := At(sender).locked;
        hasBadge := hasBadge - Cosmwasm.BadgesOf(sender);
        citizens := citizens[sender := NOBODY];
        return Ok([RagequitRequest(sender, amount)]);
      case GrantBadge(citizen, badge) =>
        if sender != governance {
          return Err(OnlyGovernance);
        }
        if !At(citizen).isCitizen {
          return Err(NotCitizen);
        }
        hasBadge := hasBadge + {(citizen, badge)};
        return Ok([]);
      case RevokeBadge(citizen, badge) =>
        if sender != governance {
          return Err(OnlyGovernance);
        }
        hasBadge := hasBadge - {(citizen, badge)};
        return Ok([]);
      case RotateAttester(newAttester) =>
        if sender != governance {
          return Err(OnlyGovernance);
        }
        if newAttester == ZERO_ADDRESS {
          return Err(ZeroAttester);
        }
        attester := newAttester;
        return Ok([]);
    }
  }
}
