/** Totals over a finite map. */
module Totals {
  import opened Types

  type Amounts = map<Addr, nat>

  function Of(m: Amounts, a: Addr): nat {
    if a in m then m[a] else 0
  }

  function Plus(m: Amounts, a: Addr, n: nat): Amounts {
    m[a := Of(m, a) + n]
  }

  ghost function Total(m: Amounts): nat {
    if m == map[] then 0
    else var a :| a in m; m[a] + Total(m - {a})
  }

  lemma {:induction false} TotalWithout(m: Amounts, a: Addr)
    requires a in m
    ensures Total(m) == m[a] + Total(m - {a})
    decreases |m|
  {
    var b :| b in m && Total(m) == m[b] + Total(m - {b});
    if a != b {
      TotalWithout(m - {b}, a);
      TotalWithout(m - {a}, b);
      assert m - {b} - {a} == m - {a} - {b};
    }
  }

  lemma TotalUpdate(m: Amounts, a: Addr, n: nat)
    ensures Total(m[a := n]) == Total(m - {a}) + n
    ensures Total(m[a := n]) + Of(m, a) == Total(m) + n
  {
    var m' := m[a := n];
    TotalWithout(m', a);
    assert m' - {a} == m - {a};
    if a in m {
      TotalWithout(m, a);
    } else {
      assert m - {a} == m;
    }
  }

  lemma TotalAtLeast(m: Amounts, a: Addr)
    ensures Of(m, a) <= Total(m)
  {
  }
}

/**
 Whole runs of the CosmWasm contract: transactions and plain bank transfers in
 any order, at times that never go back. Beside the ledger a world keeps what
 has happened: deposits, payouts, kWR that arrived otherwise, and the flags
 attested since each citizen last joined.
 */
module Runs {
  import opened Constants
  import opened Types
  import opened Citizens
  import opened Cosmwasm
  import opened Totals

  datatype Entry = Tx(now: nat, info: Info, msg: Msg) | Transfer(now: nat, amount: nat)

  datatype World = World(
    ledger: Ledger,
    now: nat,
    donated: nat,
    deposits: Amounts,
    payouts: Amounts,
    /** Active days attested since the present citizenship began. */
    since: DayFlags,
    /** Volunteer days attested since then, each while its week was still unprocessed. */
    timely: DayFlags)

  function Genesis(attester: Addr, governance: Addr, denom: string): World {
    World(Ledger(attester, governance, denom, map[], {}, {}, map[], map[], {}, 0), 0, 0, map[], map[], map[], map[])
  }

  function Recorded(w: World, info: Info, m: Msg, l: Ledger, paid: nat): World {
    var attached := Attached(w.ledger, info);
    var w' := w.(ledger := l);
    match m
    case ContributeCapital => w'.(deposits := Plus(w.deposits, info.sender, attached))
    case Ragequit => w'.(donated := w.donated + attached, payouts := Plus(w.payouts, info.sender, paid))
    case Join =>
      w'.(donated := w.donated + attached, since := w.since[info.sender := {}], timely := w.timely[info.sender := {}])
    case AttestDay(who, day, activeMet, volunteerMet, _) =>
      var inTime := volunteerMet && who in w.ledger.citizens && day / 7 > w.ledger.citizens[who].lastWeek;
      w'.(donated := w.donated + attached,
          since := if activeMet then Marked(w.since, who, day) else w.since,
          timely := if inTime then Marked(w.timely, who, day) else w.timely)
    case _ => w'.(donated := w.donated + attached)
  }

  function After(w: World, e: Entry): World {
    match e
    case Tx(now, info, m) => (
      match Step(w.ledger, now, info, m)
      case Failed(_) => w.(now := now)
      case Done(l, paid) => Recorded(w, info, m, l, paid).(now := now)
    )
    case Transfer(now, amount) =>
      w.(now := now, donated := w.donated + amount, ledger := w.ledger.(balance := w.ledger.balance + amount))
  }

  function Run(w: World, entries: seq<Entry>): World {
    if entries == [] then w else After(Run(w, entries[..|entries| - 1]), entries[|entries| - 1])
  }

  lemma RunNext(w: World, entries: seq<Entry>, e: Entry)
    ensures Run(w, entries + [e]) == After(Run(w, entries), e)
  {
    assert (entries + [e])[..|entries|] == entries;
  }

  function Clock(start: nat, entries: seq<Entry>): nat {
    if entries == [] then start else entries[|entries| - 1].now
  }

  /** Time never goes back. */
  predicate InOrder(start: nat, entries: seq<Entry>) {
    entries == [] ||
    (InOrder(start, entries[..|entries| - 1]) && Clock(start, entries[..|entries| - 1]) <= entries[|entries| - 1].now)
  }

  lemma InOrderNext(start: nat, entries: seq<Entry>, e: Entry)
    requires InOrder(start, entries) && Clock(start, entries) <= e.now
    ensures InOrder(start, entries + [e]) && Clock(start, entries + [e]) == e.now
  {
    assert (entries + [e])[..|entries|] == entries;
  }

  ghost predicate Reachable(w: World) {
    exists attester, governance, denom, entries ::
      InOrder(0, entries) && w == Run(Genesis(attester, governance, denom), entries)
  }

  /** The entry does not end the citizenship of the address. */
  predicate Stays(e: Entry, a: Addr) {
    e.Tx? && e.info.sender == a ==> !e.msg.Ragequit?
  }

  predicate AllStay(entries: seq<Entry>, a: Addr) {
    forall e | e in entries :: Stays(e, a)
  }

  // ---------- custody ----------

  function Locked(citizens: map<Addr, Citizen>): Amounts {
    map a | a in citizens :: citizens[a].locked
  }

  ghost function TotalLocked(l: Ledger): nat {
    Total(Locked(l.citizens))
  }

  lemma LockedUpdate(citizens: map<Addr, Citizen>, a: Addr, c: Citizen)
    ensures Total(Locked(citizens[a := c])) + Of(Locked(citizens), a) == Total(Locked(citizens)) + c.locked
  {
    assert Locked(citizens[a := c]) == Locked(citizens)[a := c.locked];
    TotalUpdate(Locked(citizens), a, c.locked);
  }

  lemma LockedRemoval(citizens: map<Addr, Citizen>, a: Addr)
    requires a in citizens
    ensures Total(Locked(citizens)) == Total(Locked(citizens - {a})) + citizens[a].locked
  {
    assert Locked(citizens - {a}) == Locked(citizens) - {a};
    TotalWithout(Locked(citizens), a);
  }

  /** What a message locks: the kWR attached to a deposit, and nothing else. */
  function Deposited(l: Ledger, info: Info, m: Msg): nat {
    if m.ContributeCapital? then Attached(l, info) else 0
  }

  /** Settlement never touches the locked amount. */
  lemma SettledLocked(l: Ledger, who: Addr, i: nat, amount: nat, today: nat)
    requires i < 3 && who in l.citizens
    ensures Settled(l, who, i, amount, today).locked == l.citizens[who].locked
  {
  }

  /** Each message moves as much kWR into and out of custody as it adds to and removes from the locked amounts. */
  lemma StepConserves(l: Ledger, now: nat, info: Info, m: Msg)
    ensures var o := Step(l, now, info, m);
            o.Done? ==>
              && o.ledger.balance + o.paid == l.balance + Attached(l, info)
              && TotalLocked(o.ledger) + o.paid == TotalLocked(l) + Deposited(l, info, m)
              && (o.paid > 0 ==> m.Ragequit?)
  {
    hide Settled, SettlementFits, Newborn, Total, Today;
    var o := Step(l, now, info, m);
    if o.Done? {
      match m
      case Join =>
        LockedUpdate(l.citizens, info.sender, Newborn(Today(now)));
        assert Newborn(Today(now)).locked == 0 by { NewbornLocked(Today(now)); }
      case SetSabbathDay(offset) =>
        LockedUpdate(l.citizens, info.sender, l.citizens[info.sender].(sabbath := offset));
      case ContributeCapital =>
        var amount := info.funds[l.denom];
        SettledLocked(l, info.sender, 0, amount, Today(now));
        var c := Settled(l, info.sender, 0, amount, Today(now));
        LockedUpdate(l.citizens, info.sender, c.(locked := c.locked + amount));
      case AttestHonor(who, axis, delta, _) =>
        SettledLocked(l, who, axis.Index(), delta, Today(now));
        LockedUpdate(l.citizens, who, Settled(l, who, axis.Index(), delta, Today(now)));
      case Ragequit =>
        LockedRemoval(l.citizens, info.sender);
      case _ =>
    }
  }

  lemma NewbornLocked(today: nat)
    ensures Newborn(today).locked == 0
  {
  }

  /** The same, address by address. */
  lemma StepAccounts(l: Ledger, now: nat, info: Info, m: Msg, a: Addr)
    ensures var o := Step(l, now, info, m);
            o.Done? ==>
              Of(Locked(o.ledger.citizens), a) + (if a == info.sender then o.paid else 0)
              == Of(Locked(l.citizens), a) + (if a == info.sender then Deposited(l, info, m) else 0)
  {
    hide Settled, SettlementFits, Newborn, Today;
    var o := Step(l, now, info, m);
    if o.Done? {
      match m
      case Join =>
        NewbornLocked(Today(now));
      case ContributeCapital =>
        SettledLocked(l, info.sender, 0, info.funds[l.denom], Today(now));
      case AttestHonor(who, axis, delta, _) =>
        SettledLocked(l, who, axis.Index(), delta, Today(now));
      case _ =>
    }
  }

  /** All deposits of an address are paid back or still locked for it. */
  predicate Repaid(w: World, a: Addr) {
    Of(w.deposits, a) == Of(w.payouts, a) + Of(Locked(w.ledger.citizens), a)
  }

  ghost predicate Custody(w: World) {
    && w.ledger.balance == TotalLocked(w.ledger) + w.donated
    && forall a :: Repaid(w, a)
  }

  lemma RecordedAmounts(w: World, info: Info, m: Msg, l: Ledger, paid: nat, a: Addr)
    requires paid > 0 ==> m.Ragequit?
    ensures var w' := Recorded(w, info, m, l, paid);
            && w'.ledger == l
            && w'.donated + Deposited(w.ledger, info, m) == w.donated + Attached(w.ledger, info)
            && Of(w'.deposits, a) == Of(w.deposits, a) + (if a == info.sender then Deposited(w.ledger, info, m) else 0)
            && Of(w'.payouts, a) == Of(w.payouts, a) + (if a == info.sender then paid else 0)
  {
    hide Attached;
  }

  lemma {:induction false} RepaidKept(w: World, now: nat, info: Info, m: Msg, a: Addr)
    requires Repaid(w, a)
    ensures Repaid(After(w, Tx(now, info, m)), a)
  {
    hide Step, Locked, Attached, Of, Deposited, Recorded;
    match Step(w.ledger, now, info, m)
    case Failed(_) =>
    case Done(l, paid) =>
      StepConserves(w.ledger, now, info, m);
      StepAccounts(w.ledger, now, info, m, a);
      RecordedAmounts(w, info, m, l, paid, a);
  }

  lemma CustodyKept(w: World, e: Entry)
    requires Custody(w)
    ensures Custody(After(w, e))
  {
    match e
    case Transfer(_, _) =>
      assert forall a :: Repaid(w, a) ==> Repaid(After(w, e), a);
    case Tx(now, info, m) =>
      forall a ensures Repaid(After(w, e), a) {
        RepaidKept(w, now, info, m, a);
      }
      hide Step, Repaid, Attached, TotalLocked, Deposited, Recorded;
      match Step(w.ledger, now, info, m)
      case Failed(_) =>
      case Done(l, paid) =>
        StepConserves(w.ledger, now, info, m);
        RecordedAmounts(w, info, m, l, paid, info.sender);
  }

  /**
   In every reachable state the contract holds exactly the locked kWR plus what
   arrived outside deposits, and every address has been paid back all its
   deposits except what is still locked for it.
   */
  lemma {:induction false} CustodyAlways(attester: Addr, governance: Addr, denom: string, entries: seq<Entry>)
    ensures Custody(Run(Genesis(attester, governance, denom), entries))
  {
    if entries != [] {
      CustodyAlways(attester, governance, denom, entries[..|entries| - 1]);
      CustodyKept(Run(Genesis(attester, governance, denom), entries[..|entries| - 1]), entries[|entries| - 1]);
    }
  }

  /**
   Ragequit is open to every citizen of a reachable state at any moment, with or
   without coins attached, and pays exactly the deposits not yet paid back,
   whatever decay and bonuses did to the honor.
   */
  lemma RagequitPaysDeposits(w: World, now: nat, info: Info)
    requires Reachable(w) && info.sender in w.ledger.citizens
    ensures var o := Step(w.ledger, now, info, Ragequit);
            && o.Done?
            && Of(w.payouts, info.sender) + o.paid == Of(w.deposits, info.sender)
            && info.sender !in o.ledger.citizens
            && o.ledger.badges == w.ledger.badges - BadgesOf(info.sender)
            && o.ledger.balance == w.ledger.balance + Attached(w.ledger, info) - o.paid
  {
    ReachableCustody(w);
    assert Repaid(w, info.sender);
    TotalAtLeast(Locked(w.ledger.citizens), info.sender);
  }

  lemma ReachableCustody(w: World)
    requires Reachable(w)
    ensures Custody(w)
  {
    var attester, governance, denom, entries :|
      InOrder(0, entries) && w == Run(Genesis(attester, governance, denom), entries);
    CustodyAlways(attester, governance, denom, entries);
  }
}
