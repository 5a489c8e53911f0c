/** The CosmWasm contract: what each message does to its storage and to its kWR balance. */
module Cosmwasm {
  import opened Constants
  import opened Types
  import opened Citizens
  import opened Account
  import opened DayBits

  datatype Badge = Governance | Audit | Dispute | Node

  datatype Error =
    | OnlyGovernance | OnlyAttester | PoPRequired | AlreadyCitizen | NotCitizen
    | InvalidCapitalDenom | ZeroCapital | Replay | FutureDay | BeforeJoin
    | InvalidSabbathOffset | CapitalNotAttestable | Overflow | BankSendFailed

  /** The sender of a message and the coins attached to it, at most one amount per denomination. */
  datatype Info = Info(sender: Addr, funds: map<string, nat>)

  datatype Msg =
    | AttestPoP(worker: Addr)
    | Join
    | SetSabbathDay(offset: nat)
    | ContributeCapital
    | AttestHonor(worker: Addr, axis: Axis, delta: nat, jobId: Id)
    | AttestDay(worker: Addr, day: nat, activeMet: bool, volunteerMet: bool, nonce: Id)
    | Ragequit
    | GrantBadge(citizen: Addr, badge: Badge)
    | RevokeBadge(citizen: Addr, badge: Badge)
    | RotateAttester(newAttester: Addr)

  datatype Ledger = Ledger(
    attester: Addr,
    governance: Addr,
    denom: string,
    citizens: map<Addr, Citizen>,
    pop: set<Addr>,
    badges: set<(Addr, Badge)>,
    active: DayFlags,
    volunteer: DayFlags,
    consumed: set<Id>,
    balance: nat)

  /** A message either takes effect, possibly paying its sender, or fails and changes nothing. */
  datatype Outcome = Done(ledger: Ledger, paid: nat) | Failed(error: Error)

  function Attached(l: Ledger, info: Info): nat {
    if l.denom in info.funds then info.funds[l.denom] else 0
  }

  function BadgesOf(who: Addr): set<(Addr, Badge)> {
    {(who, Governance), (who, Audit), (who, Dispute), (who, Node)}
  }

  // ---------- what each message means ----------

  /** Decay first, then the new honor, then the weeks completed by the settled axis. */
  function Settled(l: Ledger, who: Addr, i: nat, amount: nat, today: nat): Citizen
    requires i < 3 && who in l.citizens
  {
    var c := Decayed(l.citizens[who], i, DaysOf(l.active, who), today);
    Processed(Earned(c, i, amount), i, DaysOf(l.volunteer, who))
  }

  predicate SettlementFits(l: Ledger, who: Addr, i: nat, amount: nat, today: nat)
    requires i < 3 && who in l.citizens
  {
    var c := Decayed(l.citizens[who], i, DaysOf(l.active, who), today);
    && DecayFits(U128_MAX, l.citizens[who], i, DaysOf(l.active, who), today)
    && c.honor[i] + amount <= U128_MAX
    && ProcessFits(U128_MAX, Earned(c, i, amount), i, DaysOf(l.volunteer, who))
  }

  function ExecAttestPoP(l: Ledger, sender: Addr, worker: Addr): Outcome {
    if sender != l.attester then Failed(OnlyAttester)
    else Done(l.(pop := l.pop + {worker}), 0)
  }

  function ExecJoin(l: Ledger, sender: Addr, today: nat): Outcome {
    if sender !in l.pop then Failed(PoPRequired)
    else if sender in l.citizens then Failed(AlreadyCitizen)
    else Done(l.(citizens := l.citizens[sender := Newborn(today)]), 0)
  }

  function ExecSetSabbathDay(l: Ledger, sender: Addr, offset: nat): Outcome {
    if offset >= 7 then Failed(InvalidSabbathOffset)
    else if sender !in l.citizens then Failed(NotCitizen)
    else Done(l.(citizens := l.citizens[sender := l.citizens[sender].(sabbath := offset)]), 0)
  }

  function ExecContributeCapital(l: Ledger, info: Info, today: nat): Outcome {
    var who := info.sender;
    if who !in l.pop then Failed(PoPRequired)
    else if who !in l.citizens || !l.citizens[who].isCitizen then Failed(NotCitizen)
    else if l.denom !in info.funds then Failed(InvalidCapitalDenom)
    else
      var amount := info.funds[l.denom];
      if amount == 0 then Failed(ZeroCapital)
      else if !SettlementFits(l, who, 0, amount, today) || l.citizens[who].locked + amount > U128_MAX then
        Failed(Overflow)
      else
        var c := Settled(l, who, 0, amount, today);
        Done(l.(citizens := l.citizens[who := c.(locked := c.locked + amount)]), 0)
  }

  function ExecAttestHonor(l: Ledger, sender: Addr, who: Addr, axis: Axis, delta: nat, jobId: Id, today: nat): Outcome {
    if sender != l.attester then Failed(OnlyAttester)
    else if axis.Capital? then Failed(CapitalNotAttestable)
    else if jobId in l.consumed then Failed(Replay)
    else if who !in l.pop then Failed(PoPRequired)
    else if who !in l.citizens then Failed(NotCitizen)
    else if !SettlementFits(l, who, axis.Index(), delta, today) then Failed(Overflow)
    else
      Done(l.(citizens := l.citizens[who := Settled(l, who, axis.Index(), delta, today)],
              consumed := l.consumed + {jobId}), 0)
  }

  function ExecAttestDay(l: Ledger, sender: Addr, m: Msg, today: nat): Outcome
    requires m.AttestDay?
  {
    var who := m.worker;
    if sender != l.attester then Failed(OnlyAttester)
    else if m.nonce in l.consumed then Failed(Replay)
    else if who !in l.pop then Failed(PoPRequired)
    else if who !in l.citizens then Failed(NotCitizen)
    else if m.day > today then Failed(FutureDay)
    else if m.day < l.citizens[who].joinDay then Failed(BeforeJoin)
    else
      Done(l.(consumed := l.consumed + {m.nonce},
              active := if m.activeMet then Marked(l.active, who, m.day) else l.active,
              volunteer := if m.volunteerMet then Marked(l.volunteer, who, m.day) else l.volunteer), 0)
  }

  /** The citizen and all badges go; the day flags stay; the locked kWR is paid out of what the contract holds. */
  function ExecRagequit(l: Ledger, info: Info): Outcome {
    var who := info.sender;
    if who !in l.citizens then Failed(NotCitizen)
    else
      var amount := l.citizens[who].locked;
      if amount > l.balance + Attached(l, info) then Failed(BankSendFailed)
      else Done(l.(citizens := l.citizens - {who}, badges := l.badges - BadgesOf(who)), amount)
  }

  function ExecGrantBadge(l: Ledger, sender: Addr, citizen: Addr, badge: Badge): Outcome {
    if sender != l.governance then Failed(OnlyGovernance)
    else if citizen !in l.citizens then Failed(NotCitizen)
    else Done(l.(badges := l.badges + {(citizen, badge)}), 0)
  }

  function ExecRevokeBadge(l: Ledger, sender: Addr, citizen: Addr, badge: Badge): Outcome {
    if sender != l.governance then Failed(OnlyGovernance)
    else Done(l.(badges := l.badges - {(citizen, badge)}), 0)
  }

  function ExecRotateAttester(l: Ledger, sender: Addr, newAttester: Addr): Outcome {
    if sender != l.governance then Failed(OnlyGovernance)
    else Done(l.(attester := newAttester), 0)
  }

  function Exec(l: Ledger, now: nat, info: Info, m: Msg): Outcome {
    match m
    case AttestPoP(worker) => ExecAttestPoP(l, info.sender, worker)
    case Join => ExecJoin(l, info.sender, Today(now))
    case SetSabbathDay(offset) => ExecSetSabbathDay(l, info.sender, offset)
    case ContributeCapital => ExecContributeCapital(l, info, Today(now))
    case AttestHonor(worker, axis, delta, jobId) =>
      ExecAttestHonor(l, info.sender, worker, axis, delta, jobId, Today(now))
    case AttestDay(_, _, _, _, _) => ExecAttestDay(l, info.sender, m, Today(now))
    case Ragequit => ExecRagequit(l, info)
    case GrantBadge(citizen, badge) => ExecGrantBadge(l, info.sender, citizen, badge)
    case RevokeBadge(citizen, badge) => ExecRevokeBadge(l, info.sender, citizen, badge)
    case RotateAttester(newAttester) => ExecRotateAttester(l, info.sender, newAttester)
  }

  /** A message that takes effect also moves its attached kWR in and its payment out. */
  function Step(l: Ledger, now: nat, info: Info, m: Msg): Outcome {
    match Exec(l, now, info, m)
    case Failed(error) => Failed(error)
    case Done(l', paid) =>
      if paid > l.balance + Attached(l, info) then Failed(BankSendFailed)
      else Done(l'.(balance := l.balance + Attached(l, info) - paid), paid)
  }

  lemma PaymentCovered(l: Ledger, now: nat, info: Info, m: Msg)
    ensures var o := Exec(l, now, info, m);
            o.Done? ==> o.paid <= l.balance + Attached(l, info) && o.ledger.balance == l.balance
  {
    hide Settled, SettlementFits, Marked, Today;
  }

  // ---------- the contract ----------

  datatype Response = Ok(paid: nat) | Err(error: Error)

  class Contract {
    var attester: Addr
    var governance: Addr
    var kwrDenom: string
    var citizens: map<Addr, Citizen>
    var attestedPoP: set<Addr>
    var hasBadge: set<(Addr, Badge)>
    const activeDayBits: Bits128
    const volunteerDayBits: Bits128
    var consumed: set<Id>
    var balance: nat

    ghost predicate Valid()
      reads this, activeDayBits, volunteerDayBits
    {
      && activeDayBits != volunteerDayBits && activeDayBits.Valid() && volunteerDayBits.Valid()
      && forall a | a in citizens :: OnTime(citizens[a])
    }

    ghost function State(): Ledger
      reads this, activeDayBits, volunteerDayBits
    {
      Ledger(attester, governance, kwrDenom, citizens, attestedPoP, hasBadge,
             activeDayBits.days, volunteerDayBits.days, consumed, balance)
    }

    /** The response and the new state are what the given outcome says. */
    twostate predicate Follows(r: Response, o: Outcome)
      reads this, activeDayBits, volunteerDayBits
    {
      match o
      case Done(l, paid) => r == Ok(paid) && State() == l
      case Failed(error) => r == Err(error) && State() == old(State())
    }

    constructor (attester: Addr, governance: Addr, kwrDenom: string)
      ensures Valid() && fresh(activeDayBits) && fresh(volunteerDayBits)
      ensures State() == Ledger(attester, governance, kwrDenom, map[], {}, {}, map[], map[], {}, 0)
    {
      this.attester, this.governance, this.kwrDenom := attester, governance, kwrDenom;
      citizens, attestedPoP, hasBadge, consumed, balance := map[], {}, {}, {}, 0;
      activeDayBits := new Bits128();
      volunteerDayBits := new Bits128();
    }

    /** Settles one axis of a stored citizen and adds honor to it, on a working copy. */
    method Settle(who: Addr, i: nat, amount: nat, now: nat) returns (ok: bool, c: MutCitizen)
      requires Valid() && i < 3 && who in citizens
      ensures fresh(c)
      ensures ok <==> SettlementFits(State(), who, i, amount, Today(now))
      ensures ok ==> c.Value() == Settled(State(), who, i, amount, Today(now)) && OnTime(c.Value())
    {
      c := new MutCitizen(citizens[who]);
      DecayKeepsOnTime(citizens[who], i, DaysOf(activeDayBits.days, who), Today(now));
      ok := c.ApplyDecay(now, i, who, activeDayBits);
      if !ok {
        return;
      }
      if c.baseHonor[i] + amount > U128_MAX {
        return false, c;
      }
      c.baseHonor := c.baseHonor[i := c.baseHonor[i] + amount];
      ok := c.ProcessWeeks(who, volunteerDayBits, i);
    }

    method ContributeCapital(now: nat, info: Info) returns (r: Response)
      requires Valid()
      modifies this`citizens
      ensures Valid() && Follows(r, ExecContributeCapital(old(State()), info, Today(now)))
    {
      if info.sender !in attestedPoP {
        return Err(PoPRequired);
      }
      if info.sender !in citizens || !citizens[info.sender].isCitizen {
        return Err(NotCitizen);
      }
      if kwrDenom !in info.funds {
        return Err(InvalidCapitalDenom);
      }
      var amount := info.funds[kwrDenom];
      if amount == 0 {
        return Err(ZeroCapital);
      }
      var ok, c := Settle(info.sender, 0, amount, now);
      if !ok || citizens[info.sender].locked + amount > U128_MAX {
        return Err(Overflow);
      }
      c.lockedKwr := c.lockedKwr + amount;
      citizens := citizens[info.sender := c.Value()];
      return Ok(0);
    }

    method AttestHonor(now: nat, sender: Addr, worker: Addr, axis: Axis, delta: nat, jobId: Id) returns (r: Response)
      requires Valid()
      modifies this`citizens, this`consumed
      ensures Valid()
      ensures Follows(r, ExecAttestHonor(old(State()), sender, worker, axis, delta, jobId, Today(now)))
    {
      if sender != attester {
        return Err(OnlyAttester);
      }
      if axis.Capital? {
        return Err(CapitalNotAttestable);
      }
      if jobId in consumed {
        return Err(Replay);
      }
      if worker !in attestedPoP {
        return Err(PoPRequired);
      }
      if worker !in citizens {
        return Err(NotCitizen);
      }
      var ok, c := Settle(worker, axis.Index(), delta, now);
      if !ok {
        return Err(Overflow);
      }
      citizens := citizens[worker := c.Value()];
      consumed := consumed + {jobId};
      return Ok(0);
    }

    method AttestDay(now: nat, sender: Addr, m: Msg) returns (r: Response)
      requires Valid() && m.AttestDay?
      modifies this`consumed, activeDayBits, volunteerDayBits
      ensures Valid() && Follows(r, ExecAttestDay(old(State()), sender, m, Today(now)))
    {
      if sender != attester {
        return Err(OnlyAttester);
      }
      if m.nonce in consumed {
        return Err(Replay);
      }
      if m.worker !in attestedPoP {
        return Err(PoPRequired);
      }
      if m.worker !in citizens {
        return Err(NotCitizen);
      }
      if m.day > now / SECONDS_PER_DAY {
        return Err(FutureDay);
      }
      if m.day < citizens[m.worker].joinDay {
        return Err(BeforeJoin);
      }
      consumed := consumed + {m.nonce};
      if m.activeMet {
        activeDayBits.SetBit(m.worker, m.day);
      }
      if m.volunteerMet {
        volunteerDayBits.SetBit(m.worker, m.day);
      }
      return Ok(0);
    }

    method LeaveCitizenship(info: Info) returns (r: Response)
      requires Valid()
      modifies this`citizens, this`hasBadge
      ensures Valid() && Follows(r, ExecRagequit(old(State()), info))
    {
      if info.sender !in citizens {
        return Err(NotCitizen);
      }
      var amount := citizens[info.sender].locked;
      var received := if kwrDenom in info.funds then info.funds[kwrDenom] else 0;
      if amount > balance + received {
        return Err(BankSendFailed);
      }
      hasBadge := hasBadge - BadgesOf(info.sender);
      citizens := citizens - {info.sender};
      return Ok(amount);
    }

    method Handle(now: nat, info: Info, m: Msg) returns (r: Response)
      requires Valid()
      modifies this, activeDayBits, volunteerDayBits
      ensures Valid() && Follows(r, Exec(old(State()), now, info, m))
    {
      match m
      case AttestPoP(worker) =>
        if info.sender != attester {
          return Err(OnlyAttester);
        }
        attestedPoP := attestedPoP + {worker};
        return Ok(0);
      case Join =>
        if info.sender !in attestedPoP {
          return Err(PoPRequired);
        }
        if info.sender in citizens {
          return Err(AlreadyCitizen);
        }
        citizens := citizens[info.sender := Newborn(now / SECONDS_PER_DAY)];
        return Ok(0);
      case SetSabbathDay(offset) =>
        if offset >= 7 {
          return Err(InvalidSabbathOffset);
        }
        if info.sender !in citizens {
          return Err(NotCitizen);
        }
        citizens := citizens[info.sender := citizens[info.sender].(sabbath := offset)];
        return Ok(0);
      case ContributeCapital =>
        r := ContributeCapital(now, info);
      case AttestHonor(worker, axis, delta, jobId) =>
        r := AttestHonor(now, info.sender, worker, axis, delta, jobId);
      case AttestDay(_, _, _, _, _) =>
        r := AttestDay(now, info.sender, m);
      case Ragequit =>
        r := LeaveCitizenship(info);
      case GrantBadge(citizen, badge) =>
        if info.sender != governance {
          return Err(OnlyGovernance);
        }
        if citizen !in citizens {
          return Err(NotCitizen);
        }
        hasBadge := hasBadge + {(citizen, badge)};
        return Ok(0);
      case RevokeBadge(citizen, badge) =>
        if info.sender != governance {
          return Err(OnlyGovernance);
        }
        hasBadge := hasBadge - {(citizen, badge)};
        return Ok(0);
      case RotateAttester(newAttester) =>
        if info.sender != governance {
          return Err(OnlyGovernance);
        }
        attester := newAttester;
        return Ok(0);
    }

    /** One transaction: the attached coins arrive, the handler runs, its bank message is paid. */
    method Execute(now: nat, info: Info, m: Msg) returns (r: Response)
      requires Valid()
      modifies this, activeDayBits, volunteerDayBits
      ensures Valid() && Follows(r, Step(old(State()), now, info, m))
    {
      PaymentCovered(State(), now, info, m);
      hide Exec;
      var received := if kwrDenom in info.funds then info.funds[kwrDenom] else 0;
      r := Handle(now, info, m);
      if r.Ok? {
        balance := balance + received - r.paid;
      }
    }
  }
}
