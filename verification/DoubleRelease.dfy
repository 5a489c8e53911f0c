/**
 A run of the whole bridge in which Zion pays one request twice: a worker joins,
 locks and mints capital, and ragequits; the watcher has the request paid and
 crashes before it marks it, and on its return has it paid again.
 */
module DoubleRelease {
  import opened Constants
  import opened Types
  import opened Decay
  import opened Volunteer
  import opened Citizens
  import opened Totals
  import opened Keys
  import opened Dispatching
  import opened BridgeMint
  import opened BridgeLedger
  import opened Bridge
  import opened RoundTrip
  import S = Solidity
  import Runs

  /** Who and what takes part, all within one block time; names, amount and time do not matter. */
  datatype Cast = Cast(
    attester: Addr,
    governance: Addr,
    worker: Addr,
    event: TypedEvent,
    chances: Chances,
    nonce: Id,
    lockId: Id,
    amount: nat,
    now: nat)

  function MintCall(c: Cast): S.Call {
    S.BridgeMintCapital(c.worker, c.amount, c.lockId, c.chances.expiry, c.chances.signer)
  }

  /** The event asks for the mint, a handler for it is registered, and the attester signs in time. */
  predicate Proper(rs: Readers, hs: Handlers, c: Cast) {
    && Readable(rs, c.event.attributes) && Carries(rs, c.event.attributes, c.chances, MintCall(c))
    && c.event.kind in hs && ZionHash(c.event.txHash)
    && c.chances.signs && c.chances.reaches && c.chances.signer == c.attester && c.now <= c.chances.expiry
    && c.nonce != c.lockId && 1 + c.amount <= U256_MAX
  }

  function Entering(c: Cast): seq<Move> {
    [Bridging(EvmCall(c.now, c.worker, S.AttestPoP(c.worker, c.now, c.nonce, c.attester))),
     Bridging(EvmCall(c.now, c.worker, S.Join))]
  }

  function Locking(c: Cast): seq<Move> {
    [Bridging(ZionLock(c.lockId, Lock(c.worker, c.amount))),
     Bridging(Attempt(c.event, c.chances, Success))]
  }

  function Leaving(c: Cast): seq<Move> {
    [Bridging(EvmCall(c.now, c.worker, MintCall(c))),
     Bridging(EvmCall(c.now, c.worker, S.Ragequit))]
  }

  /** The whole run; the request is the second entry of the contract's log. */
  function Moves(c: Cast): seq<Move> {
    Entering(c) + Locking(c) + Leaving(c) + Interrupted(1)
  }

  function Entered(c: Cast): System {
    var l := S.Ledger(c.attester, c.governance, map[c.worker := Newborn(Today(c.now))], {c.worker}, {}, map[], map[],
                      {c.nonce});
    System(map[], {}, {}, l, [])
  }

  function Signed(c: Cast): System {
    Entered(c).(locks := map[c.lockId := Lock(c.worker, c.amount)], marks := {Key(c.event)}, signed := {MintCall(c)})
  }

  function Minted(c: Cast): System {
    var citizen := Earned(Newborn(Today(c.now)), 0, c.amount).(locked := c.amount);
    Signed(c).(
      ledger := Entered(c).ledger.(citizens := map[c.worker := citizen], consumed := {c.nonce, c.lockId}),
      log := [S.CapitalBridged(c.worker, c.amount, c.lockId)])
  }

  function Left(c: Cast): System {
    Minted(c).(
      ledger := Minted(c).ledger.(citizens := map[c.worker := S.NOBODY]),
      log := [S.CapitalBridged(c.worker, c.amount, c.lockId), S.RagequitRequest(c.worker, c.amount)])
  }

  // ---------- step by step ----------

  lemma TwoMoves(rs: Readers, hs: Handlers, at: Places, t: Trip, a: Bridge.Step, b: Bridge.Step, x: System, y: System)
    requires Possible(rs, t.bridge, a) && Bridge.After(rs, hs, t.bridge, a) == x
    requires Possible(rs, x, b) && Bridge.After(rs, hs, x, b) == y
    ensures AllMovesPossible(rs, hs, at, t, [Bridging(a), Bridging(b)])
    ensures Travel(rs, hs, at, t, [Bridging(a), Bridging(b)]) == t.(bridge := y)
  {
    hide Possible, Bridge.After;
    assert [Bridging(a), Bridging(b)] == [Bridging(a)] + [Bridging(b)];
    TravelOn(rs, hs, at, t, [Bridging(a)], [Bridging(b)]);
    OneMove(rs, hs, at, t, Bridging(a));
    OneMove(rs, hs, at, t.(bridge := x), Bridging(b));
  }

  lemma Enters(rs: Readers, hs: Handlers, at: Places, c: Cast)
    ensures var t := Origin(c.attester, c.governance);
            && AllMovesPossible(rs, hs, at, t, Entering(c))
            && Travel(rs, hs, at, t, Entering(c)) == t.(bridge := Entered(c))
  {
    var t := Origin(c.attester, c.governance);
    var admitted := t.bridge.(ledger := t.bridge.ledger.(pop := {c.worker}, consumed := {c.nonce}));
    assert S.Reborn(S.NOBODY, Today(c.now)) == Newborn(Today(c.now));
    hide Travel, AllMovesPossible, S.Reborn, Newborn, Today;
    TwoMoves(rs, hs, at, t, Entering(c)[0].step, Entering(c)[1].step, admitted, Entered(c));
  }

  lemma Locks(rs: Readers, hs: Handlers, at: Places, c: Cast, t: Trip)
    requires Proper(rs, hs, c) && t.bridge == Entered(c)
    ensures AllMovesPossible(rs, hs, at, t, Locking(c))
    ensures Travel(rs, hs, at, t, Locking(c)) == t.(bridge := Signed(c))
  {
    var locked := Entered(c).(locks := map[c.lockId := Lock(c.worker, c.amount)]);
    SubmittedCarries(rs, c.event, c.chances);
    assert Submitted(rs, c.event, c.chances) == Some(MintCall(c)) by {
      hide Submitted;
    }
    hide Travel, AllMovesPossible, Submitted, Key, Newborn, Today;
    TwoMoves(rs, hs, at, t, Locking(c)[0].step, Locking(c)[1].step, locked, Signed(c));
  }

  /** On the joining day there is nothing to settle. */
  lemma NothingToSettle(l: S.Ledger, who: Addr, today: nat)
    requires S.CitizenAt(l.citizens, who) == Newborn(today)
    ensures S.SettlementFits(l, who, 0, today) && S.Settled(l, who, 0, today) == Newborn(today)
  {
    assert WeeksDue(today, today / 7) == 0;
  }

  lemma Mints(rs: Readers, hs: Handlers, c: Cast)
    requires Proper(rs, hs, c)
    ensures Possible(rs, Signed(c), EvmCall(c.now, c.worker, MintCall(c)))
    ensures Bridge.After(rs, hs, Signed(c), EvmCall(c.now, c.worker, MintCall(c))) == Minted(c)
  {
    var l := Signed(c).ledger;
    NothingToSettle(l, c.worker, Today(c.now));
    assert c.amount > 0;
    var n := Newborn(Today(c.now));
    assert n.isCitizen && n.honor[0] == 1 && n.locked == 0;
    hide S.Settled, S.SettlementFits, Newborn, Today, Key;
    assert map[c.worker := n][c.worker := Earned(n, 0, c.amount).(locked := c.amount)]
        == map[c.worker := Earned(n, 0, c.amount).(locked := c.amount)];
  }

  lemma Leaves(rs: Readers, hs: Handlers, at: Places, c: Cast, t: Trip)
    requires Proper(rs, hs, c) && t.bridge == Signed(c)
    ensures AllMovesPossible(rs, hs, at, t, Leaving(c))
    ensures Travel(rs, hs, at, t, Leaving(c)) == t.(bridge := Left(c))
  {
    Mints(rs, hs, c);
    assert Newborn(Today(c.now)).isCitizen;
    assert Bridge.After(rs, hs, Minted(c), Leaving(c)[1].step) == Left(c) by {
      hide Newborn, Today, Key;
    }
    hide Travel, AllMovesPossible, S.Step, Newborn, Today, Signed, Minted, Left;
    TwoMoves(rs, hs, at, t, Leaving(c)[0].step, Leaving(c)[1].step, Minted(c), Left(c));
  }

  lemma NotYetMarked(at: Places, rs: Readers, hs: Handlers, c: Cast)
    requires Proper(rs, hs, c)
    ensures IsRequest(Left(c).log, 1) && !RoundTrip.Marked(at, Left(c).marks, 1)
  {
    ChainsApart(c.event.txHash, c.event.kind, at(1).0, at(1).1);
    hide DispatchKey, RagequitKey, RagequitFailedKey, ZionHash, Newborn, Today;
  }

  /** Everything happens as told, and at its end the one request has been released twice. */
  lemma Told(rs: Readers, hs: Handlers, at: Places, c: Cast)
    requires Proper(rs, hs, c)
    ensures var t := Origin(c.attester, c.governance);
            var u := Travel(rs, hs, at, t, Moves(c));
            && AllMovesPossible(rs, hs, at, t, Moves(c))
            && u.released == [1, 1] && u.paid == 2 * c.amount
            && u.bridge == Left(c).(marks := u.bridge.marks)
  {
    var t := Origin(c.attester, c.governance);
    assert t.released == [] && t.paid == 0 && |Left(c).log| == 2 && Left(c).log[1].amount == c.amount;
    hide Travel, AllMovesPossible, Proper, Entering, Locking, Leaving, Interrupted, Entered, Signed, Left, Origin;
    Enters(rs, hs, at, c);
    Locks(rs, hs, at, c, t.(bridge := Entered(c)));
    Leaves(rs, hs, at, c, t.(bridge := Signed(c)));
    NotYetMarked(at, rs, hs, c);
    CrashReleasesTwice(rs, hs, at, t.(bridge := Left(c)), 1);
    TravelOn(rs, hs, at, t, Entering(c), Locking(c));
    TravelOn(rs, hs, at, t, Entering(c) + Locking(c), Leaving(c));
    TravelOn(rs, hs, at, t, Entering(c) + Locking(c) + Leaving(c), Interrupted(1));
    assert [] + [1, 1] == [1, 1];
  }

  lemma Sums(c: Cast)
    ensures Owed(Left(c).log, [1, 1]) == 0
    ensures Total(Bridge.Amounts(Left(c).locks)) == c.amount && TotalLocked(Left(c).ledger) == 0
  {
    var log, k := Left(c).log, [1, 1];
    assert log[..1][..0] == [] && Owed(log, k) == Owed(log[..1], k);
    var none: Totals.Amounts := map[];
    assert none - {c.lockId} == none && none - {c.worker} == none;
    assert Bridge.Amounts(Left(c).locks) == none[c.lockId := c.amount];
    TotalUpdate(none, c.lockId, c.amount);
    assert Runs.Locked(Left(c).ledger.citizens) == none[c.worker := 0];
    TotalUpdate(none, c.worker, 0);
  }

  /**
   Zion pays a positive amount twice, more than was ever locked: what remains in
   escrow does not cover what is locked and owed.
   */
  lemma PaidTwice(rs: Readers, hs: Handlers, at: Places, c: Cast)
    requires Proper(rs, hs, c)
    ensures var t := Origin(c.attester, c.governance);
            var u := Travel(rs, hs, at, t, Moves(c));
            && AllMovesPossible(rs, hs, at, t, Moves(c))
            && u.released == [1, 1] && c.amount > 0
            && |u.bridge.log| == 2 && u.bridge.log[1] == S.RagequitRequest(c.worker, c.amount)
            && u.paid == 2 * c.amount > c.amount == Total(Bridge.Amounts(u.bridge.locks))
            && Total(Bridge.Amounts(u.bridge.locks)) - u.paid
               < TotalLocked(u.bridge.ledger) + Owed(u.bridge.log, u.released)
  {
    assert c.amount > 0;
    Told(rs, hs, at, c);
    Sums(c);
    hide Travel, AllMovesPossible, Proper, Moves, Left, Owed, TotalLocked, Total;
  }
}
