/** Bounds on amounts under which the two contracts never part because of 128-bit overflow. */
module LockstepBounds {
  import opened Constants
  import opened Types
  import opened Citizens
  import opened Lockstep
  import opened Overflow
  import R = Cosmwasm
  import S = Solidity
  import Runs

  /** The honors a message touches stay within (2^128 - 1) / 10000, and at most 4900 weeks are credited. */
  predicate WithinBounds(r: R.Ledger, now: nat, a: Action) {
    match a
    case Deposit(who, amount, _, _, _) =>
      who in r.citizens ==>
        && Bounded(r.citizens[who].honor[0] + amount)
        && R.Settled(r, who, 0, amount, Today(now)).weeks <= MAX_WEEKS
        && r.citizens[who].locked + amount <= U128_MAX
    case AttestHonor(_, who, axis, delta, _, _) =>
      who in r.citizens ==>
        && Bounded(r.citizens[who].honor[0])
        && Bounded(r.citizens[who].honor[axis.Index()] + delta)
        && R.Settled(r, who, axis.Index(), delta, Today(now)).weeks <= MAX_WEEKS
    case _ => true
  }

  function Clock(trace: seq<Timed>): nat {
    if trace == [] then 0 else trace[|trace| - 1].now
  }

  /** Time never goes back, Solidity's extra checks pass, and amounts stay within bounds. */
  predicate Calm(p: Pair, trace: seq<Timed>) {
    trace == [] ||
    (var before, t := RunBoth(p, trace[..|trace| - 1]), trace[|trace| - 1];
     && Calm(p, trace[..|trace| - 1])
     && Clock(trace[..|trace| - 1]) <= t.now
     && Authorized(before.r, before.s, t.now, t.action)
     && WithinBounds(before.r, t.now, t.action))
  }

  /** The trace as the CosmWasm contract sees it. */
  function Entries(denom: string, trace: seq<Timed>): seq<Runs.Entry> {
    if trace == [] then []
    else
      var t := trace[|trace| - 1];
      Entries(denom, trace[..|trace| - 1]) + [Runs.Tx(t.now, InfoOf(denom, t.action), MsgOf(t.action))]
  }

  lemma DenomStays(l: R.Ledger, now: nat, info: R.Info, m: R.Msg)
    ensures R.Step(l, now, info, m).Done? ==> R.Step(l, now, info, m).ledger.denom == l.denom
  {
    hide R.Settled, R.SettlementFits, Newborn, Today, Marked, R.BadgesOf;
  }

  lemma EntriesNext(denom: string, trace: seq<Timed>)
    requires trace != []
    ensures var t, es := trace[|trace| - 1], Entries(denom, trace);
            && es != [] && es[..|es| - 1] == Entries(denom, trace[..|trace| - 1])
            && es[|es| - 1] == Runs.Tx(t.now, InfoOf(denom, t.action), MsgOf(t.action))
    ensures Runs.Clock(0, Entries(denom, trace)) == Clock(trace)
  {
  }

  lemma AfterTx(w: Runs.World, t: Timed)
    ensures var e := Runs.Tx(t.now, InfoOf(w.ledger.denom, t.action), MsgOf(t.action));
            Runs.After(w, e).ledger
            == if OnCosmwasm(w.ledger, t.now, t.action).Done? then OnCosmwasm(w.ledger, t.now, t.action).ledger
               else w.ledger
  {
    hide R.Step;
  }

  /** The CosmWasm half of a joint run is a run of the CosmWasm contract. */
  lemma {:induction false} HalfIsRun(attester: Addr, governance: Addr, denom: string, trace: seq<Timed>)
    requires Calm(Start(attester, governance, denom), trace)
    ensures var w := Runs.Run(Runs.Genesis(attester, governance, denom), Entries(denom, trace));
            && Runs.InOrder(0, Entries(denom, trace))
            && RunBoth(Start(attester, governance, denom), trace).r == w.ledger
            && w.ledger.denom == denom
  {
    if trace != [] {
      var before, t := trace[..|trace| - 1], trace[|trace| - 1];
      HalfIsRun(attester, governance, denom, before);
      EntriesNext(denom, trace);
      if before != [] {
        EntriesNext(denom, before);
      }
      var w := Runs.Run(Runs.Genesis(attester, governance, denom), Entries(denom, before));
      hide OnCosmwasm, OnSolidity, Authorized, WithinBounds, Runs.After, R.Step;
      AfterTx(w, t);
      OnCosmwasmDenom(w.ledger, t);
    }
  }

  lemma OnCosmwasmDenom(l: R.Ledger, t: Timed)
    ensures OnCosmwasm(l, t.now, t.action).Done? ==> OnCosmwasm(l, t.now, t.action).ledger.denom == l.denom
  {
    hide R.Step;
    DenomStays(l, t.now, InfoOf(l.denom, t.action), MsgOf(t.action));
  }

  lemma BoundedStep(w: Runs.World, t: Timed)
    requires Runs.Reachable(w) && WithinBounds(w.ledger, t.now, t.action)
    ensures OnCosmwasm(w.ledger, t.now, t.action) != R.Failed(R.Overflow)
  {
    hide Runs.Reachable, R.Settled, R.SettlementFits, Newborn, Today, Marked, R.BadgesOf, Bounded;
    match t.action
    case Deposit(who, amount, _, _, _) =>
      if who in w.ledger.citizens {
        BoundedSum(w.ledger.citizens[who].honor[0], amount);
        SettlementNeverOverflows(w, who, 0, amount, Today(t.now));
      }
    case AttestHonor(_, who, axis, delta, _, _) =>
      if who in w.ledger.citizens {
        SettlementNeverOverflows(w, who, axis.Index(), delta, Today(t.now));
      }
    case _ =>
  }

  lemma BoundedSum(x: nat, y: nat)
    requires Bounded(x + y)
    ensures Bounded(x)
  {
  }

  lemma {:induction false} CalmIsFair(attester: Addr, governance: Addr, denom: string, trace: seq<Timed>)
    requires Calm(Start(attester, governance, denom), trace)
    ensures Fair(Start(attester, governance, denom), trace)
  {
    if trace != [] {
      var before, t := trace[..|trace| - 1], trace[|trace| - 1];
      CalmIsFair(attester, governance, denom, before);
      HalfIsRun(attester, governance, denom, before);
      var w := Runs.Run(Runs.Genesis(attester, governance, denom), Entries(denom, before));
      hide OnCosmwasm, Authorized, WithinBounds, Runs.Run;
      assert Runs.Reachable(w);
      BoundedStep(w, t);
    }
  }

  /**
   While honors stay within (2^128 - 1) / 10000 and at most 4900 weeks are
   credited, the contracts accept the same messages and agree on every citizen
   but for capital honor, where CosmWasm is never behind.
   */
  lemma BoundedRunTogether(attester: Addr, governance: Addr, denom: string, trace: seq<Timed>)
    requires Calm(Start(attester, governance, denom), trace)
    ensures var p := RunBoth(Start(attester, governance, denom), trace);
            Twinned(p.r, p.s) && p.acceptedByR == p.acceptedByS
  {
    CalmIsFair(attester, governance, denom, trace);
    hide Calm, Fair, RunBoth, Twinned;
    RunTogether(attester, governance, denom, trace);
  }
}
