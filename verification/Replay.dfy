/** One-time identifiers: over any run, no accepted message reuses one. */
module Replay {
  import opened Types
  import opened Citizens
  import R = Cosmwasm
  import S = Solidity
  import Runs
  import SolidityRuns

  predicate NoRepeats(ids: seq<Id>) {
    forall i, j | 0 <= i < j < |ids| :: ids[i] != ids[j]
  }

  lemma NoRepeatsAppend(ids: seq<Id>, id: Id)
    requires NoRepeats(ids) && id !in ids
    ensures NoRepeats(ids + [id])
  {
  }

  // ---------- Solidity: job ids, nonces and lock ids share one namespace ----------

  function CallIds(m: S.Call): seq<Id> {
    match m
    case AttestPoP(_, _, nonce, _) => [nonce]
    case BridgeMintCapital(_, _, lockId, _, _) => [lockId]
    case AttestHonor(_, _, _, jobId, _, _) => [jobId]
    case AttestDay(_, _, _, _, _, nonce, _) => [nonce]
    case _ => []
  }

  /** The identifiers of the calls accepted so far. */
  function AcceptedCalls(w: SolidityRuns.World, calls: seq<SolidityRuns.Timed>): seq<Id> {
    if calls == [] then []
    else
      var before, t := calls[..|calls| - 1], calls[|calls| - 1];
      var l := SolidityRuns.Run(w, before).ledger;
      AcceptedCalls(w, before) + if S.Step(l, t.now, t.sender, t.call).Done? then CallIds(t.call) else []
  }

  lemma CallUsesId(l: S.Ledger, now: nat, sender: Addr, m: S.Call)
    ensures var o := S.Step(l, now, sender, m);
            o.Done? ==>
              && |CallIds(m)| <= 1
              && (forall id | id in CallIds(m) :: id !in l.consumed)
              && o.ledger.consumed == l.consumed + (set id | id in CallIds(m))
  {
    hide S.Settled, S.SettlementFits, Today, S.Reborn, Earned;
  }

  lemma LedgerAfterCall(w: SolidityRuns.World, t: SolidityRuns.Timed)
    ensures var o := S.Step(w.ledger, t.now, t.sender, t.call);
            SolidityRuns.After(w, t).ledger == if o.Done? then o.ledger else w.ledger
  {
    hide S.Step;
  }

  /** The consumed identifiers are exactly those of the accepted calls, and no two accepted calls share one. */
  lemma {:induction false} CallsNeverReplayed(attester: Addr, governance: Addr, calls: seq<SolidityRuns.Timed>)
    ensures var w0 := SolidityRuns.Genesis(attester, governance);
            var ids := AcceptedCalls(w0, calls);
            NoRepeats(ids) && forall id :: id in SolidityRuns.Run(w0, calls).ledger.consumed <==> id in ids
  {
    if calls != [] {
      var w0, before, t := SolidityRuns.Genesis(attester, governance), calls[..|calls| - 1], calls[|calls| - 1];
      CallsNeverReplayed(attester, governance, before);
      var w := SolidityRuns.Run(w0, before);
      hide SolidityRuns.After, SolidityRuns.Genesis, S.Step, CallIds;
      CallUsesId(w.ledger, t.now, t.sender, t.call);
      LedgerAfterCall(w, t);
      var ids, newIds := AcceptedCalls(w0, before), CallIds(t.call);
      if S.Step(w.ledger, t.now, t.sender, t.call).Done? && newIds != [] {
        NoRepeatsAppend(ids, newIds[0]);
      }
    }
  }

  // ---------- CosmWasm: job ids and nonces ----------

  function MsgIds(m: R.Msg): seq<Id> {
    match m
    case AttestHonor(_, _, _, jobId) => [jobId]
    case AttestDay(_, _, _, _, nonce) => [nonce]
    case _ => []
  }

  predicate Accepted(w: Runs.World, e: Runs.Entry) {
    e.Tx? && R.Step(w.ledger, e.now, e.info, e.msg).Done?
  }

  /** The identifiers of the messages accepted so far. */
  function AcceptedMsgs(w: Runs.World, entries: seq<Runs.Entry>): seq<Id> {
    if entries == [] then []
    else
      var before, e := entries[..|entries| - 1], entries[|entries| - 1];
      AcceptedMsgs(w, before) + if Accepted(Runs.Run(w, before), e) then MsgIds(e.msg) else []
  }

  lemma MsgUsesId(l: R.Ledger, now: nat, info: R.Info, m: R.Msg)
    ensures var o := R.Step(l, now, info, m);
            o.Done? ==>
              && |MsgIds(m)| <= 1
              && (forall id | id in MsgIds(m) :: id !in l.consumed)
              && o.ledger.consumed == l.consumed + (set id | id in MsgIds(m))
  {
    hide R.Settled, R.SettlementFits, Newborn, Today, Marked, R.BadgesOf;
  }

  lemma LedgerAfterEntry(w: Runs.World, e: Runs.Entry)
    ensures Runs.After(w, e).ledger.consumed
         == if Accepted(w, e) then R.Step(w.ledger, e.now, e.info, e.msg).ledger.consumed else w.ledger.consumed
  {
    hide R.Step;
  }

  /** The same for CosmWasm. */
  lemma {:induction false} MsgsNeverReplayed(attester: Addr, governance: Addr, denom: string, entries: seq<Runs.Entry>)
    ensures var w0 := Runs.Genesis(attester, governance, denom);
            var ids := AcceptedMsgs(w0, entries);
            NoRepeats(ids) && forall id :: id in Runs.Run(w0, entries).ledger.consumed <==> id in ids
  {
    if entries != [] {
      var w0, before, e := Runs.Genesis(attester, governance, denom), entries[..|entries| - 1], entries[|entries| - 1];
      MsgsNeverReplayed(attester, governance, denom, before);
      var w := Runs.Run(w0, before);
      hide Runs.After, Runs.Genesis, R.Step, MsgIds;
      LedgerAfterEntry(w, e);
      if Accepted(w, e) {
        MsgUsesId(w.ledger, e.now, e.info, e.msg);
        if MsgIds(e.msg) != [] {
          NoRepeatsAppend(AcceptedMsgs(w0, before), MsgIds(e.msg)[0]);
        }
      }
    }
  }
}
