/** The handler that turns a lock of capital on Zion into a signed mint on the EVM chain. */
module BridgeMint {
  import opened Types
  import opened Dispatching
  import S = Solidity

  datatype Option<T> = None | Some(value: T)

  /** How attribute strings are read; parsing itself is library code. */
  datatype Readers = Readers(address: string -> Addr, decimal: string -> Option<int>, bytes32: string -> Option<Id>)

  datatype Problem = BadAddress | BadAmount | NotPositive | BadLockId | NotSigned | NotAcknowledged

  /** What a lock event asks for. */
  datatype Mint = Mint(worker: Addr, amount: nat, lockId: Id)

  function MintOf(rs: Readers, ev: TypedEvent): Option<Mint> {
    var attrs := ev.attributes;
    if "evm_addr" !in attrs || rs.address(attrs["evm_addr"]) == S.ZERO_ADDRESS then None
    else if "kwr_amount" !in attrs || rs.decimal(attrs["kwr_amount"]).None? then None
    else if rs.decimal(attrs["kwr_amount"]).value <= 0 then None
    else if "lock_id" !in attrs || rs.bytes32(attrs["lock_id"]).None? then None
    else
      Some(Mint(rs.address(attrs["evm_addr"]),
                rs.decimal(attrs["kwr_amount"]).value,
                rs.bytes32(attrs["lock_id"]).value))
  }

  /** What the surroundings do: sign or not, carry the transaction or not, and report back or not. */
  datatype Chances = Chances(signer: Addr, expiry: nat, signs: bool, reaches: bool, acknowledges: bool)

  function CallFor(m: Mint, ch: Chances): S.Call {
    S.BridgeMintCapital(m.worker, m.amount, m.lockId, ch.expiry, ch.signer)
  }

  /** The transaction that enters the network, which may happen even if the handler then reports an error. */
  function Submitted(rs: Readers, ev: TypedEvent, ch: Chances): Option<S.Call> {
    if MintOf(rs, ev).Some? && ch.signs && ch.reaches then Some(CallFor(MintOf(rs, ev).value, ch)) else None
  }

  /** The three attributes are there and can be read: an address other than zero, a positive amount, a lock id. */
  predicate Readable(rs: Readers, attrs: map<string, string>) {
    && "evm_addr" in attrs && rs.address(attrs["evm_addr"]) != S.ZERO_ADDRESS
    && "kwr_amount" in attrs && rs.decimal(attrs["kwr_amount"]).Some? && rs.decimal(attrs["kwr_amount"]).value > 0
    && "lock_id" in attrs && rs.bytes32(attrs["lock_id"]).Some?
  }

  /** The mint carries what the attributes say, and the signature of the present attester key. */
  predicate Carries(rs: Readers, attrs: map<string, string>, ch: Chances, call: S.Call)
    requires Readable(rs, attrs)
  {
    && call.BridgeMintCapital?
    && call.worker == rs.address(attrs["evm_addr"])
    && rs.decimal(attrs["kwr_amount"]) == Some(call.amount)
    && rs.bytes32(attrs["lock_id"]) == Some(call.lockId)
    && call.expiry == ch.expiry && call.signer == ch.signer
  }

  /** A mint is sent exactly for readable attributes, and carries them unchanged. */
  lemma SubmittedCarries(rs: Readers, ev: TypedEvent, ch: Chances)
    ensures Submitted(rs, ev, ch).Some? <==> Readable(rs, ev.attributes) && ch.signs && ch.reaches
    ensures Submitted(rs, ev, ch).Some? ==> Carries(rs, ev.attributes, ch, Submitted(rs, ev, ch).value)
  {
  }

  method RequireAddrAttr(rs: Readers, ev: TypedEvent, key: string) returns (r: Option<Addr>)
    ensures r == if key !in ev.attributes || rs.address(ev.attributes[key]) == S.ZERO_ADDRESS then None
                 else Some(rs.address(ev.attributes[key]))
  {
    if key !in ev.attributes {
      return None;
    }
    var addr := rs.address(ev.attributes[key]);
    if addr == S.ZERO_ADDRESS {
      return None;
    }
    return Some(addr);
  }

  method Handle(rs: Readers, ev: TypedEvent, ch: Chances) returns (sent: Option<S.Call>, err: Option<Problem>)
    ensures sent == Submitted(rs, ev, ch)
    ensures sent.Some? <==> Readable(rs, ev.attributes) && ch.signs && ch.reaches
    ensures sent.Some? ==> Carries(rs, ev.attributes, ch, sent.value)
    ensures err.None? <==> Readable(rs, ev.attributes) && ch.signs && ch.acknowledges
  {
    var worker := RequireAddrAttr(rs, ev, "evm_addr");
    if worker.None? {
      return None, Some(BadAddress);
    }
    if "kwr_amount" !in ev.attributes || rs.decimal(ev.attributes["kwr_amount"]).None? {
      return None, Some(BadAmount);
    }
    var amount := rs.decimal(ev.attributes["kwr_amount"]).value;
    if amount <= 0 {
      return None, Some(NotPositive);
    }
    if "lock_id" !in ev.attributes || rs.bytes32(ev.attributes["lock_id"]).None? {
      return None, Some(BadLockId);
    }
    var lockId := rs.bytes32(ev.attributes["lock_id"]).value;
    if !ch.signs {
      return None, Some(NotSigned);
    }
    sent := if ch.reaches then Some(S.BridgeMintCapital(worker.value, amount, lockId, ch.expiry, ch.signer)) else None;
    err := if ch.acknowledges then None else Some(NotAcknowledged);
  }
}

/** What every call to the Solidity contract does to the sum of the locked amounts. */
module BridgeLedger {
  import opened Types
  import opened Citizens
  import opened Totals
  import S = Solidity
  import Runs

  ghost function TotalLocked(l: S.Ledger): nat {
    Total(Runs.Locked(l.citizens))
  }

  function MintedBy(log: seq<S.Event>): nat {
    if log == [] then 0
    else
      var last := log[|log| - 1];
      MintedBy(log[..|log| - 1]) + if last.CapitalBridged? then last.minted else 0
  }

  function RequestedBy(log: seq<S.Event>): nat {
    if log == [] then 0
    else
      var last := log[|log| - 1];
      RequestedBy(log[..|log| - 1]) + if last.RagequitRequest? then last.amount else 0
  }

  lemma {:induction false} LogSplit(a: seq<S.Event>, b: seq<S.Event>)
    ensures MintedBy(a + b) == MintedBy(a) + MintedBy(b)
    ensures RequestedBy(a + b) == RequestedBy(a) + RequestedBy(b)
  {
    if b == [] {
      assert a + b == a;
    } else {
      assert (a + b)[..|a + b| - 1] == a + b[..|b| - 1];
      LogSplit(a, b[..|b| - 1]);
    }
  }

  lemma LogOne(e: S.Event)
    ensures MintedBy([e]) == if e.CapitalBridged? then e.minted else 0
    ensures RequestedBy([e]) == if e.RagequitRequest? then e.amount else 0
  {
  }

  lemma SettledLocked(l: S.Ledger, who: Addr, i: nat, today: nat)
    requires i < 3
    ensures S.Settled(l, who, i, today).locked == S.CitizenAt(l.citizens, who).locked
  {
  }

  lemma StoredLocked(citizens: map<Addr, Citizen>, who: Addr, c: Citizen)
    ensures Total(Runs.Locked(citizens[who := c])) + S.CitizenAt(citizens, who).locked
         == Total(Runs.Locked(citizens)) + c.locked
  {
    Runs.LockedUpdate(citizens, who, c);
  }

  lemma JoinConserves(l: S.Ledger, now: nat, sender: Addr)
    ensures var o := S.Step(l, now, sender, S.Join);
            o.Done? ==> o.events == [] && TotalLocked(o.ledger) == TotalLocked(l)
  {
    hide S.Reborn, Today;
    RebornLocked(S.CitizenAt(l.citizens, sender), Today(now));
    StoredLocked(l.citizens, sender, S.Reborn(S.CitizenAt(l.citizens, sender), Today(now)));
  }

  lemma MintConserves(l: S.Ledger, now: nat, sender: Addr, m: S.Call)
    requires m.BridgeMintCapital?
    ensures var o := S.Step(l, now, sender, m);
            o.Done? ==>
              && o.events == [S.CapitalBridged(m.worker, m.amount, m.lockId)]
              && TotalLocked(o.ledger) == TotalLocked(l) + m.amount
  {
    hide S.Settled, S.SettlementFits, Today, TotalLocked;
    var c := Earned(S.Settled(l, m.worker, 0, Today(now)), 0, m.amount);
    SettledLocked(l, m.worker, 0, Today(now));
    StoredTotal(l, m.worker, c.(locked := c.locked + m.amount));
  }

  lemma HonorConserves(l: S.Ledger, now: nat, sender: Addr, m: S.Call)
    requires m.AttestHonor?
    ensures var o := S.Step(l, now, sender, m); o.Done? ==> o.events == [] && TotalLocked(o.ledger) == TotalLocked(l)
  {
    hide S.Settled, S.SettlementFits, Today, TotalLocked;
    var i := m.axis.Index();
    SettledLocked(l, m.worker, i, Today(now));
    StoredTotal(l, m.worker, Earned(S.Settled(l, m.worker, i, Today(now)), i, m.delta));
  }

  lemma RagequitConserves(l: S.Ledger, now: nat, sender: Addr)
    ensures var o := S.Step(l, now, sender, S.Ragequit);
            o.Done? ==>
              && o.events == [S.RagequitRequest(sender, S.CitizenAt(l.citizens, sender).locked)]
              && TotalLocked(o.ledger) + S.CitizenAt(l.citizens, sender).locked == TotalLocked(l)
  {
    StoredLocked(l.citizens, sender, S.NOBODY);
  }

  lemma StoredTotal(l: S.Ledger, who: Addr, c: Citizen)
    ensures forall l': S.Ledger | l'.citizens == l.citizens[who := c] ::
              TotalLocked(l') + S.CitizenAt(l.citizens, who).locked == TotalLocked(l) + c.locked
  {
    StoredLocked(l.citizens, who, c);
  }

  lemma OthersConserve(l: S.Ledger, now: nat, sender: Addr, m: S.Call)
    requires m.AttestPoP? || m.SetSabbathDay? || m.AttestDay? || m.GrantBadge? || m.RevokeBadge? || m.RotateAttester?
    ensures var o := S.Step(l, now, sender, m); o.Done? ==> o.events == [] && TotalLocked(o.ledger) == TotalLocked(l)
  {
    hide Today, Marked;
    if m.SetSabbathDay? {
      StoredLocked(l.citizens, sender, S.CitizenAt(l.citizens, sender).(sabbath := m.offset));
    }
  }

  /** A ragequit or rejoin aside, locked amounts only grow by what is minted; what leaves is requested. */
  lemma CallConserves(l: S.Ledger, now: nat, sender: Addr, m: S.Call)
    ensures var o := S.Step(l, now, sender, m);
            o.Done? ==> TotalLocked(o.ledger) + RequestedBy(o.events) == TotalLocked(l) + MintedBy(o.events)
  {
    hide S.Step, MintedBy, RequestedBy, TotalLocked;
    var o := S.Step(l, now, sender, m);
    if o.Done? {
      NoEvents();
      match m {
        case Join => JoinConserves(l, now, sender);
        case BridgeMintCapital(_, _, _, _, _) => MintConserves(l, now, sender, m);
        case AttestHonor(_, _, _, _, _, _) => HonorConserves(l, now, sender, m);
        case Ragequit => RagequitConserves(l, now, sender);
        case _ => OthersConserve(l, now, sender, m);
      }
      if o.events != [] {
        LogOne(o.events[0]);
      }
    }
  }

  lemma NoEvents()
    ensures MintedBy([]) == 0 && RequestedBy([]) == 0
  {
  }

  lemma RebornLocked(c: Citizen, today: nat)
    ensures S.Reborn(c, today).locked == c.locked
  {
  }

  /** Only a mint signed by the attester emits a mint event, and it uses up its lock id. */
  lemma MintUsesLock(l: S.Ledger, now: nat, sender: Addr, m: S.Call)
    ensures var o := S.Step(l, now, sender, m);
            o.Done? ==>
              && l.consumed <= o.ledger.consumed
              && |o.events| <= 1
              && forall e | e in o.events && e.CapitalBridged? ::
                   && m.BridgeMintCapital? && m.signer == l.attester
                   && e == S.CapitalBridged(m.worker, m.amount, m.lockId)
                   && e.lockId !in l.consumed && e.lockId in o.ledger.consumed
  {
    hide S.Settled, S.SettlementFits, Today, S.Reborn, Earned;
  }
}

/**
 The whole bridge: Zion issues locks, the daemon turns their events into signed
 mints, and the contract executes calls. Events may be delivered again, attempts
 may fail after their transaction got out, the daemon may crash and forget
 marks, and a signed mint may be submitted by anybody any number of times.
 */
module Bridge {
  import opened Types
  import opened Totals
  import opened Dispatching
  import opened BridgeMint
  import opened BridgeLedger
  import Runs
  import S = Solidity

  datatype Lock = Lock(worker: Addr, amount: nat)

  datatype System = System(
    /** What Zion holds in escrow, by lock id. */
    locks: map<Id, Lock>,
    /** The keys the daemon remembers. */
    marks: set<string>,
    /** The mints the daemon has signed and sent. */
    signed: set<S.Call>,
    ledger: S.Ledger,
    log: seq<S.Event>)

  datatype Step =
    | ZionLock(lockId: Id, lock: Lock)
    | Attempt(event: TypedEvent, chances: Chances, result: Result)
    | Crash(remembered: set<string>)
    | EvmCall(now: nat, sender: Addr, call: S.Call)

  /** The event is one that Zion emitted for one of its locks: if its attributes can be read, they name that lock. */
  predicate Emitted(rs: Readers, s: System, ev: TypedEvent) {
    var attrs := ev.attributes;
    Readable(rs, attrs) ==>
      var id := rs.bytes32(attrs["lock_id"]).value;
      id in s.locks && s.locks[id] == Lock(rs.address(attrs["evm_addr"]), rs.decimal(attrs["kwr_amount"]).value)
  }

  /**
   What can happen: Zion never reuses a lock id, the daemon sees only what Zion
   emitted, and mints bearing the attester's signature are those the daemon signed.
   */
  predicate Possible(rs: Readers, s: System, step: Step) {
    match step
    case ZionLock(id, _) => id !in s.locks
    case Attempt(ev, _, _) => Emitted(rs, s, ev)
    case Crash(_) => true
    case EvmCall(_, _, call) => call.BridgeMintCapital? && call.signer == s.ledger.attester ==> call in s.signed
  }

  function After(rs: Readers, hs: Handlers, s: System, step: Step): System {
    match step
    case ZionLock(id, lock) => s.(locks := s.locks[id := lock])
    case Attempt(ev, ch, result) =>
      var desk := Desk(s.marks, []);
      if !Handled(hs, desk, ev) then s
      else
        var desk' := Dispatched(hs, desk, ev, result);
        var call := Submitted(rs, ev, ch);
        s.(marks := if result.Permanent? then MarkedFailed(desk', ev).marks else desk'.marks,
           signed := if call.Some? then s.signed + {call.value} else s.signed)
    case Crash(remembered) => s.(marks := s.marks * remembered)
    case EvmCall(now, sender, call) => (
      match S.Step(s.ledger, now, sender, call)
      case Revert(_) => s
      case Done(l, events) => s.(ledger := l, log := s.log + events)
    )
  }

  function Run(rs: Readers, hs: Handlers, s: System, steps: seq<Step>): System {
    if steps == [] then s else After(rs, hs, Run(rs, hs, s, steps[..|steps| - 1]), steps[|steps| - 1])
  }

  predicate AllPossible(rs: Readers, hs: Handlers, s: System, steps: seq<Step>) {
    steps == [] ||
    (var before := steps[..|steps| - 1];
     AllPossible(rs, hs, s, before) && Possible(rs, Run(rs, hs, s, before), steps[|steps| - 1]))
  }

  function Genesis(attester: Addr, governance: Addr): System {
    System(map[], {}, {}, S.Ledger(attester, governance, map[], {}, {}, map[], map[], {}), [])
  }

  // ---------- safety ----------

  predicate SignedForLock(s: System, call: S.Call) {
    call.BridgeMintCapital? && call.lockId in s.locks && s.locks[call.lockId] == Lock(call.worker, call.amount)
  }

  /** A mint of the log stands for a lock on Zion and has used up its id. */
  predicate MintedForLock(s: System, e: S.Event) {
    e.CapitalBridged? ==>
      e.lockId in s.locks && s.locks[e.lockId] == Lock(e.worker, e.minted) && e.lockId in s.ledger.consumed
  }

  predicate MintsOnce(log: seq<S.Event>) {
    forall i, j | 0 <= i < j < |log| ::
      log[i].CapitalBridged? && log[j].CapitalBridged? ==> log[i].lockId != log[j].lockId
  }

  ghost predicate Safe(s: System) {
    && (forall call | call in s.signed :: SignedForLock(s, call))
    && (forall e | e in s.log :: MintedForLock(s, e))
    && MintsOnce(s.log)
    && TotalLocked(s.ledger) + RequestedBy(s.log) == MintedBy(s.log)
  }

  lemma CallSafe(rs: Readers, hs: Handlers, s: System, now: nat, sender: Addr, call: S.Call)
    requires Safe(s) && Possible(rs, s, EvmCall(now, sender, call))
    ensures Safe(After(rs, hs, s, EvmCall(now, sender, call)))
  {
    CallConserves(s.ledger, now, sender, call);
    MintUsesLock(s.ledger, now, sender, call);
    hide S.Step, TotalLocked, MintedBy, RequestedBy;
    var o := S.Step(s.ledger, now, sender, call);
    if o.Done? {
      LogSplit(s.log, o.events);
      var s' := After(rs, hs, s, EvmCall(now, sender, call));
      forall e | e in s'.log
        ensures MintedForLock(s', e)
      {
        if e in s.log {
          assert MintedForLock(s, e);
        } else {
          assert e in o.events;
          assert e.CapitalBridged? ==> SignedForLock(s, call);
        }
      }
      forall i, j | 0 <= i < j < |s'.log| && s'.log[i].CapitalBridged? && s'.log[j].CapitalBridged?
        ensures s'.log[i].lockId != s'.log[j].lockId
      {
        if j == |s.log| {
          assert s'.log[i] in s.log && MintedForLock(s, s'.log[i]);
          assert s'.log[j] in o.events;
        }
      }
    }
  }

  lemma StepSafe(rs: Readers, hs: Handlers, s: System, step: Step)
    requires Safe(s) && Possible(rs, s, step)
    ensures Safe(After(rs, hs, s, step))
  {
    match step
    case EvmCall(now, sender, call) =>
      CallSafe(rs, hs, s, now, sender, call);
    case ZionLock(id, lock) =>
      hide TotalLocked, MintedBy, RequestedBy, MintsOnce;
      assert forall call :: SignedForLock(s, call) ==> SignedForLock(After(rs, hs, s, step), call);
      assert forall e :: MintedForLock(s, e) ==> MintedForLock(After(rs, hs, s, step), e);
    case Attempt(ev, ch, result) =>
      hide TotalLocked, MintedBy, RequestedBy, MintsOnce, MintOf;
      assert forall call :: SignedForLock(s, call) ==> SignedForLock(After(rs, hs, s, step), call);
      assert forall e :: MintedForLock(s, e) ==> MintedForLock(After(rs, hs, s, step), e);
    case Crash(_) =>
      hide TotalLocked, MintedBy, RequestedBy, MintsOnce;
      assert forall call :: SignedForLock(s, call) ==> SignedForLock(After(rs, hs, s, step), call);
      assert forall e :: MintedForLock(s, e) ==> MintedForLock(After(rs, hs, s, step), e);
  }

  lemma {:induction false} AlwaysSafe(rs: Readers, hs: Handlers, attester: Addr, governance: Addr, steps: seq<Step>)
    requires AllPossible(rs, hs, Genesis(attester, governance), steps)
    ensures Safe(Run(rs, hs, Genesis(attester, governance), steps))
  {
    if steps == [] {
      assert Runs.Locked(Genesis(attester, governance).ledger.citizens) == map[];
    } else {
      hide Safe, Possible, After;
      AlwaysSafe(rs, hs, attester, governance, steps[..|steps| - 1]);
      StepSafe(rs, hs, Run(rs, hs, Genesis(attester, governance), steps[..|steps| - 1]), steps[|steps| - 1]);
    }
  }

  function Amounts(locks: map<Id, Lock>): Totals.Amounts {
    map id | id in locks :: locks[id].amount
  }

  /** Mints of different locks, each for its lock's amount, sum to at most all the locks. */
  lemma {:induction false} MintsWithinLocks(log: seq<S.Event>, amounts: Totals.Amounts)
    requires MintsOnce(log)
    requires forall e | e in log && e.CapitalBridged? :: e.lockId in amounts && amounts[e.lockId] == e.minted
    ensures MintedBy(log) <= Total(amounts)
  {
    if log != [] {
      var before, last := log[..|log| - 1], log[|log| - 1];
      assert last in log && forall e | e in before :: e in log;
      if last.CapitalBridged? {
        TotalWithout(amounts, last.lockId);
        forall e | e in before && e.CapitalBridged?
          ensures e.lockId in amounts - {last.lockId} && (amounts - {last.lockId})[e.lockId] == e.minted
        {
          var i :| 0 <= i < |before| && before[i] == e;
          assert log[i].lockId != log[|log| - 1].lockId;
        }
        MintsWithinLocks(before, amounts - {last.lockId});
      } else {
        MintsWithinLocks(before, amounts);
      }
    }
  }

  lemma SafeWithinLocks(s: System)
    requires Safe(s)
    ensures TotalLocked(s.ledger) + RequestedBy(s.log) == MintedBy(s.log) <= Total(Amounts(s.locks))
    ensures forall e | e in s.log && e.CapitalBridged? ::
              e.lockId in s.locks && s.locks[e.lockId] == Lock(e.worker, e.minted)
  {
    hide TotalLocked, RequestedBy, MintedBy;
    forall e | e in s.log && e.CapitalBridged?
      ensures e.lockId in s.locks && s.locks[e.lockId] == Lock(e.worker, e.minted)
    {
      assert MintedForLock(s, e);
    }
    MintsWithinLocks(s.log, Amounts(s.locks));
  }

  /**
   Bridge safety: every lock id is minted at most once and for exactly its lock;
   what citizens hold locked on the EVM side plus everything ragequits have
   requested back equals what was minted, and that never exceeds the Zion locks.
   */
  lemma {:induction false} BridgeSafety(rs: Readers, hs: Handlers, attester: Addr, governance: Addr, steps: seq<Step>)
    requires AllPossible(rs, hs, Genesis(attester, governance), steps)
    ensures var s := Run(rs, hs, Genesis(attester, governance), steps);
            && MintsOnce(s.log)
            && (forall e | e in s.log && e.CapitalBridged? ::
                  e.lockId in s.locks && s.locks[e.lockId] == Lock(e.worker, e.minted))
            && TotalLocked(s.ledger) + RequestedBy(s.log) == MintedBy(s.log) <= Total(Amounts(s.locks))
  {
    AlwaysSafe(rs, hs, attester, governance, steps);
    hide Run, AllPossible, TotalLocked, RequestedBy, MintedBy;
    SafeWithinLocks(Run(rs, hs, Genesis(attester, governance), steps));
  }

  // ---------- mints have a recipient and an amount ----------

  predicate Payable(worker: Addr, amount: nat) {
    worker != S.ZERO_ADDRESS && amount > 0
  }

  predicate OnlyPayable(s: System) {
    && (forall call | call in s.signed && call.BridgeMintCapital? :: Payable(call.worker, call.amount))
    && (forall e | e in s.log && e.CapitalBridged? :: Payable(e.worker, e.minted))
  }

  lemma SubmittedPayable(rs: Readers, ev: TypedEvent, ch: Chances)
    ensures var call := Submitted(rs, ev, ch);
            call.Some? ==> call.value.BridgeMintCapital? && Payable(call.value.worker, call.value.amount)
  {
  }

  lemma StepPayable(rs: Readers, hs: Handlers, s: System, step: Step)
    requires OnlyPayable(s) && Possible(rs, s, step)
    ensures OnlyPayable(After(rs, hs, s, step))
  {
    hide S.Step, Payable, Dispatched;
    match step
    case EvmCall(now, sender, call) =>
      MintUsesLock(s.ledger, now, sender, call);
    case Attempt(ev, ch, result) =>
      SubmittedPayable(rs, ev, ch);
      hide Submitted;
    case _ =>
  }

  /** Whatever the attributes of the events say, nothing is ever minted for the zero address, and no mint is empty. */
  lemma {:induction false} MintsPayable(rs: Readers, hs: Handlers, attester: Addr, governance: Addr, steps: seq<Step>)
    requires AllPossible(rs, hs, Genesis(attester, governance), steps)
    ensures OnlyPayable(Run(rs, hs, Genesis(attester, governance), steps))
  {
    if steps != [] {
      var before, step := steps[..|steps| - 1], steps[|steps| - 1];
      MintsPayable(rs, hs, attester, governance, before);
      hide OnlyPayable, Possible, After;
      StepPayable(rs, hs, Run(rs, hs, Genesis(attester, governance), before), step);
    }
  }
}
