/**
 The bridge with its way back: the watcher hands ragequit requests of the
 contract to Zion, which releases the amounts. The watcher marks a request only
 after its broadcast, and may crash in between; crashes may also lose marks.
 */
module RoundTrip {
  import opened Types
  import opened Totals
  import opened Keys
  import opened Dispatching
  import opened Watching
  import opened BridgeMint
  import opened BridgeLedger
  import opened Bridge
  import S = Solidity

  /** The transaction and index under which each position of the contract's log is published. */
  type Places = nat -> (string, nat)

  /** Both directions of the bridge, the log positions whose requests Zion has released, and what it has paid. */
  datatype Trip = Trip(bridge: System, released: seq<nat>, paid: nat)

  /**
   A step of the bridge, or the watcher receiving a request: Zion pays or not,
   the broadcast reports success or not, and the watcher lives to mark it or not.
   */
  datatype Move = Bridging(step: Bridge.Step) | Receive(k: nat, pays: bool, confirmed: bool, survives: bool)

  predicate IsRequest(log: seq<S.Event>, k: nat) {
    k < |log| && log[k].RagequitRequest?
  }

  function RequestAt(at: Places, log: seq<S.Event>, k: nat): RagequitEvent
    requires IsRequest(log, k)
  {
    RagequitEvent(at(k).0, at(k).1, log[k].citizen, log[k].amount)
  }

  /** The request is marked as released or as failed. */
  predicate Marked(at: Places, marks: set<string>, k: nat) {
    RagequitKey(at(k).0, at(k).1) in marks || RagequitFailedKey(at(k).0, at(k).1) in marks
  }

  /** What the watcher sends to Zion names the citizen, the amount and the transaction of the request. */
  lemma RequestSent(at: Places, log: seq<S.Event>, marks: set<string>, k: nat, confirmed: bool)
    requires IsRequest(log, k) && !Marked(at, marks, k)
    ensures var seen := Watched(true, Watch(marks, []), RequestAt(at, log, k), confirmed);
            && |seen.unlocks| == 1
            && var ev := seen.unlocks[0].event;
               ev.citizen == log[k].citizen && ev.amount == log[k].amount && ev.txHash == at(k).0
  {
    hide RagequitKey, RagequitFailedKey;
  }

  function Next(rs: Readers, hs: Handlers, at: Places, t: Trip, m: Move): Trip {
    match m
    case Bridging(step) => t.(bridge := Bridge.After(rs, hs, t.bridge, step))
    case Receive(k, pays, confirmed, survives) =>
      if !IsRequest(t.bridge.log, k) || Marked(at, t.bridge.marks, k) then t
      else
        var seen := Watched(true, Watch(t.bridge.marks, []), RequestAt(at, t.bridge.log, k), confirmed);
        Trip(t.bridge.(marks := if survives then seen.marks else t.bridge.marks),
             if pays then t.released + [k] else t.released,
             if pays then t.paid + seen.unlocks[0].event.amount else t.paid)
  }

  function Travel(rs: Readers, hs: Handlers, at: Places, t: Trip, moves: seq<Move>): Trip {
    if moves == [] then t else Next(rs, hs, at, Travel(rs, hs, at, t, moves[..|moves| - 1]), moves[|moves| - 1])
  }

  predicate MovePossible(rs: Readers, t: Trip, m: Move) {
    m.Bridging? ==> Possible(rs, t.bridge, m.step)
  }

  predicate AllMovesPossible(rs: Readers, hs: Handlers, at: Places, t: Trip, moves: seq<Move>) {
    moves == [] ||
    (var before := moves[..|moves| - 1];
     AllMovesPossible(rs, hs, at, t, before) && MovePossible(rs, Travel(rs, hs, at, t, before), moves[|moves| - 1]))
  }

  function Origin(attester: Addr, governance: Addr): Trip {
    Trip(Bridge.Genesis(attester, governance), [], 0)
  }

  // ---------- what holds on every way ----------

  predicate RequestsOnly(t: Trip) {
    forall k | k in t.released :: IsRequest(t.bridge.log, k)
  }

  lemma MoveSafe(rs: Readers, hs: Handlers, at: Places, t: Trip, m: Move)
    requires Safe(t.bridge) && RequestsOnly(t) && MovePossible(rs, t, m)
    ensures Safe(Next(rs, hs, at, t, m).bridge) && RequestsOnly(Next(rs, hs, at, t, m))
  {
    match m
    case Bridging(step) =>
      LogGrows(rs, hs, t.bridge, step);
      StepSafe(rs, hs, t.bridge, step);
      hide Safe, Bridge.After;
    case Receive(_, _, _, _) =>
      MarksIrrelevant(t.bridge, Next(rs, hs, at, t, m).bridge.marks);
      hide Safe, Watched;
  }

  lemma LogGrows(rs: Readers, hs: Handlers, s: System, step: Bridge.Step)
    ensures s.log <= Bridge.After(rs, hs, s, step).log
  {
    hide S.Step, Submitted;
  }

  lemma MarksIrrelevant(s: System, marks: set<string>)
    requires Safe(s)
    ensures Safe(s.(marks := marks))
  {
    hide TotalLocked, MintedBy, RequestedBy, MintsOnce;
    assert forall call :: SignedForLock(s, call) ==> SignedForLock(s.(marks := marks), call);
    assert forall e :: MintedForLock(s, e) ==> MintedForLock(s.(marks := marks), e);
  }

  lemma {:induction false} TravelSafe(rs: Readers, hs: Handlers, at: Places, attester: Addr, governance: Addr,
                                      moves: seq<Move>)
    requires AllMovesPossible(rs, hs, at, Origin(attester, governance), moves)
    ensures var t := Travel(rs, hs, at, Origin(attester, governance), moves); Safe(t.bridge) && RequestsOnly(t)
  {
    if moves == [] {
      AlwaysSafe(rs, hs, attester, governance, []);
    } else {
      hide Safe, RequestsOnly, MovePossible, Next;
      TravelSafe(rs, hs, at, attester, governance, moves[..|moves| - 1]);
      MoveSafe(rs, hs, at, Travel(rs, hs, at, Origin(attester, governance), moves[..|moves| - 1]), moves[|moves| - 1]);
    }
  }

  // ---------- when a request is released twice ----------

  predicate NoneTwice(released: seq<nat>) {
    forall i, j | 0 <= i < j < |released| :: released[i] != released[j]
  }

  /** Zion pays a request that was released before, because neither mark of it is remembered. */
  predicate ReleasesAgain(at: Places, t: Trip, m: Move) {
    m.Receive? && m.pays && m.k in t.released && IsRequest(t.bridge.log, m.k) && !Marked(at, t.bridge.marks, m.k)
  }

  predicate NeverAgain(rs: Readers, hs: Handlers, at: Places, t: Trip, moves: seq<Move>) {
    moves == [] ||
    (var before := moves[..|moves| - 1];
     NeverAgain(rs, hs, at, t, before) && !ReleasesAgain(at, Travel(rs, hs, at, t, before), moves[|moves| - 1]))
  }

  lemma NoneTwiceAppend(released: seq<nat>, k: nat)
    ensures NoneTwice(released + [k]) <==> NoneTwice(released) && k !in released
  {
    var all := released + [k];
    assert forall i | 0 <= i < |released| :: all[i] == released[i] && released[i] in released;
    if k in released {
      var i :| 0 <= i < |released| && released[i] == k;
      assert all[i] == all[|released|];
    }
  }

  /** Exactly those moves release a request a second time. */
  lemma {:induction false} ReleasedTwiceIff(rs: Readers, hs: Handlers, at: Places, t: Trip, moves: seq<Move>)
    requires NoneTwice(t.released)
    ensures NoneTwice(Travel(rs, hs, at, t, moves).released) <==> NeverAgain(rs, hs, at, t, moves)
  {
    if moves != [] {
      var before, m := moves[..|moves| - 1], moves[|moves| - 1];
      ReleasedTwiceIff(rs, hs, at, t, before);
      var b := Travel(rs, hs, at, t, before);
      hide NoneTwice, Bridge.After, Watched;
      if m.Receive? {
        NoneTwiceAppend(b.released, m.k);
      }
    }
  }

  /** A release goes unmarked: the watcher crashes after the broadcast, or forgets the marks later. */
  predicate Loses(at: Places, t: Trip, m: Move) {
    match m
    case Receive(k, pays, _, survives) =>
      pays && !survives && IsRequest(t.bridge.log, k) && !Marked(at, t.bridge.marks, k)
    case Bridging(step) =>
      step.Crash? && exists k | k in t.released ::
        Marked(at, t.bridge.marks, k) && !Marked(at, t.bridge.marks * step.remembered, k)
  }

  predicate NothingLost(rs: Readers, hs: Handlers, at: Places, t: Trip, moves: seq<Move>) {
    moves == [] ||
    (var before := moves[..|moves| - 1];
     NothingLost(rs, hs, at, t, before) && !Loses(at, Travel(rs, hs, at, t, before), moves[|moves| - 1]))
  }

  predicate ReleasesMarked(at: Places, t: Trip) {
    forall k | k in t.released :: Marked(at, t.bridge.marks, k)
  }

  lemma MoveKeepsMarks(rs: Readers, hs: Handlers, at: Places, t: Trip, m: Move)
    requires ReleasesMarked(at, t)
    ensures ReleasesMarked(at, Next(rs, hs, at, t, m)) <==> !Loses(at, t, m)
  {
    hide RagequitKey, RagequitFailedKey, S.Step, Submitted;
    if Loses(at, t, m) && m.Receive? {
      assert m.k in Next(rs, hs, at, t, m).released;
    }
  }

  /** A second release takes a crash: where none loses a mark, every request is released at most once. */
  lemma {:induction false} SecondReleaseNeedsCrash(rs: Readers, hs: Handlers, at: Places, t: Trip, moves: seq<Move>)
    requires ReleasesMarked(at, t) && NothingLost(rs, hs, at, t, moves)
    ensures NeverAgain(rs, hs, at, t, moves) && ReleasesMarked(at, Travel(rs, hs, at, t, moves))
  {
    if moves != [] {
      var before, m := moves[..|moves| - 1], moves[|moves| - 1];
      SecondReleaseNeedsCrash(rs, hs, at, t, before);
      hide Next, Marked, Loses;
      MoveKeepsMarks(rs, hs, at, Travel(rs, hs, at, t, before), m);
    }
  }

  lemma {:induction false} TravelOn(rs: Readers, hs: Handlers, at: Places, t: Trip, a: seq<Move>, b: seq<Move>)
    ensures Travel(rs, hs, at, t, a + b) == Travel(rs, hs, at, Travel(rs, hs, at, t, a), b)
    ensures AllMovesPossible(rs, hs, at, t, a + b)
            <==> AllMovesPossible(rs, hs, at, t, a) && AllMovesPossible(rs, hs, at, Travel(rs, hs, at, t, a), b)
  {
    if b == [] {
      assert a + b == a;
    } else {
      var all := a + b;
      assert all[..|all| - 1] == a + b[..|b| - 1] && all[|all| - 1] == b[|b| - 1];
      hide Next, MovePossible;
      TravelOn(rs, hs, at, t, a, b[..|b| - 1]);
    }
  }

  lemma OneMove(rs: Readers, hs: Handlers, at: Places, t: Trip, m: Move)
    ensures Travel(rs, hs, at, t, [m]) == Next(rs, hs, at, t, m)
    ensures AllMovesPossible(rs, hs, at, t, [m]) <==> MovePossible(rs, t, m)
  {
    hide Next, MovePossible;
    assert [m][..0] == [];
  }

  /** A crash between broadcast and mark, and the same request received again. */
  function Interrupted(k: nat): seq<Move> {
    [Receive(k, true, true, false), Receive(k, true, true, true)]
  }

  /** Any request not yet marked is paid twice by it, and nothing stands in its way. */
  lemma CrashReleasesTwice(rs: Readers, hs: Handlers, at: Places, t: Trip, k: nat)
    requires IsRequest(t.bridge.log, k) && !Marked(at, t.bridge.marks, k)
    ensures AllMovesPossible(rs, hs, at, t, Interrupted(k))
    ensures var u := Travel(rs, hs, at, t, Interrupted(k));
            && u.released == t.released + [k, k]
            && u.paid == t.paid + 2 * t.bridge.log[k].amount
            && u.bridge == t.bridge.(marks := u.bridge.marks)
  {
    var first, again := Receive(k, true, true, false), Receive(k, true, true, true);
    assert Interrupted(k) == [first] + [again];
    TravelOn(rs, hs, at, t, [first], [again]);
    OneMove(rs, hs, at, t, first);
    OneMove(rs, hs, at, Next(rs, hs, at, t, first), again);
    hide Travel, AllMovesPossible, RagequitKey, RagequitFailedKey;
    assert t.released + [k] + [k] == t.released + [k, k];
  }

  /** Some released request, were it received again, would be paid again. */
  predicate Repeatable(at: Places, t: Trip) {
    exists k | k in t.released :: ReleasesAgain(at, t, Receive(k, true, true, true))
  }

  predicate NeverRepeatable(rs: Readers, hs: Handlers, at: Places, t: Trip, moves: seq<Move>) {
    && !Repeatable(at, Travel(rs, hs, at, t, moves))
    && (moves == [] || NeverRepeatable(rs, hs, at, t, moves[..|moves| - 1]))
  }

  lemma RepeatableIs(at: Places, t: Trip)
    requires RequestsOnly(t)
    ensures Repeatable(at, t) <==> !ReleasesMarked(at, t)
  {
    hide Marked;
    if !ReleasesMarked(at, t) {
      var k :| k in t.released && !Marked(at, t.bridge.marks, k);
      assert ReleasesAgain(at, t, Receive(k, true, true, true));
    }
  }

  /** A loss suffices as well: no request is ever open to a second release exactly if no crash loses a mark. */
  lemma {:induction false} RepeatableIff(rs: Readers, hs: Handlers, at: Places, attester: Addr, governance: Addr,
                                         moves: seq<Move>)
    requires AllMovesPossible(rs, hs, at, Origin(attester, governance), moves)
    ensures var t := Origin(attester, governance);
            NeverRepeatable(rs, hs, at, t, moves) <==> NothingLost(rs, hs, at, t, moves)
  {
    var start := Origin(attester, governance);
    hide Next, Marked, Loses, Repeatable, MovePossible;
    TravelSafe(rs, hs, at, attester, governance, moves);
    RepeatableIs(at, Travel(rs, hs, at, start, moves));
    hide RequestsOnly, Safe;
    if moves != [] {
      var before, m := moves[..|moves| - 1], moves[|moves| - 1];
      RepeatableIff(rs, hs, at, attester, governance, before);
      if NothingLost(rs, hs, at, start, before) {
        SecondReleaseNeedsCrash(rs, hs, at, start, before);
        MoveKeepsMarks(rs, hs, at, Travel(rs, hs, at, start, before), m);
      }
    }
  }

  // ---------- a Zion that refuses repeats ----------

  /** Zion pays for an EVM transaction that it has paid for before. */
  predicate PaysTransactionAgain(at: Places, t: Trip, m: Move) {
    && m.Receive? && m.pays && IsRequest(t.bridge.log, m.k) && !Marked(at, t.bridge.marks, m.k)
    && exists r | r in t.released :: at(r).0 == at(m.k).0
  }

  /** Zion consumes the hash of each EVM transaction it pays for, as is planned for its module. */
  predicate RefusesRepeats(rs: Readers, hs: Handlers, at: Places, t: Trip, moves: seq<Move>) {
    moves == [] ||
    (var before := moves[..|moves| - 1];
     && RefusesRepeats(rs, hs, at, t, before)
     && !PaysTransactionAgain(at, Travel(rs, hs, at, t, before), moves[|moves| - 1]))
  }

  predicate OnePerTransaction(at: Places, released: seq<nat>) {
    forall i, j | 0 <= i < j < |released| :: at(released[i]).0 != at(released[j]).0
  }

  lemma OnePerTransactionAppend(at: Places, released: seq<nat>, k: nat)
    requires OnePerTransaction(at, released) && forall r | r in released :: at(r).0 != at(k).0
    ensures OnePerTransaction(at, released + [k])
  {
    assert forall i | 0 <= i < |released| :: released[i] in released;
  }

  /**
   Then no crash matters: every request is released at most once. But neither
   does the log index: of several requests in one transaction at most one is released.
   */
  lemma {:induction false} RefusalReleasesOnce(rs: Readers, hs: Handlers, at: Places, t: Trip, moves: seq<Move>)
    requires OnePerTransaction(at, t.released) && RefusesRepeats(rs, hs, at, t, moves)
    ensures var u := Travel(rs, hs, at, t, moves); OnePerTransaction(at, u.released) && NoneTwice(u.released)
  {
    if moves != [] {
      var before, m := moves[..|moves| - 1], moves[|moves| - 1];
      RefusalReleasesOnce(rs, hs, at, t, before);
      var b := Travel(rs, hs, at, t, before);
      hide OnePerTransaction, NoneTwice, Marked, Bridge.After, Watched;
      if Next(rs, hs, at, b, m).released != b.released {
        OnePerTransactionAppend(at, b.released, m.k);
      }
    }
    NoneTwiceIfDistinct(at, Travel(rs, hs, at, t, moves).released);
  }

  lemma NoneTwiceIfDistinct(at: Places, released: seq<nat>)
    requires OnePerTransaction(at, released)
    ensures NoneTwice(released)
  {
  }

  // ---------- what Zion pays out ----------

  function ReleasedBy(log: seq<S.Event>, released: seq<nat>): nat {
    if released == [] then 0
    else
      var k := released[|released| - 1];
      ReleasedBy(log, released[..|released| - 1]) + if IsRequest(log, k) then log[k].amount else 0
  }

  /** The requests that no release has answered. */
  function Owed(log: seq<S.Event>, released: seq<nat>): nat {
    if log == [] then 0
    else
      var n := |log| - 1;
      Owed(log[..n], released) + if log[n].RagequitRequest? && n !in released then log[n].amount else 0
  }

  lemma {:induction false} ReleasedWithout(log: seq<S.Event>, released: seq<nat>, p: nat)
    requires p < |released|
    ensures var k := released[p];
            ReleasedBy(log, released)
            == ReleasedBy(log, released[..p] + released[p + 1..]) + if IsRequest(log, k) then log[k].amount else 0
  {
    var n := |released| - 1;
    if p == n {
      assert released[..p] + released[p + 1..] == released[..n];
    } else {
      ReleasedWithout(log, released[..n], p);
      var rest := released[..p] + released[p + 1..];
      assert rest[..|rest| - 1] == released[..n][..p] + released[..n][p + 1..];
      assert rest[|rest| - 1] == released[n];
    }
  }

  lemma {:induction false} ReleasedPrefix(log: seq<S.Event>, released: seq<nat>)
    requires log != [] && forall k | k in released :: k < |log| - 1
    ensures ReleasedBy(log, released) == ReleasedBy(log[..|log| - 1], released)
  {
    if released != [] {
      var before := released[..|released| - 1];
      assert released[|released| - 1] in released && forall k | k in before :: k in released;
      ReleasedPrefix(log, before);
    }
  }

  lemma {:induction false} OwedSame(log: seq<S.Event>, a: seq<nat>, b: seq<nat>)
    requires forall k | 0 <= k < |log| :: k in a <==> k in b
    ensures Owed(log, a) == Owed(log, b)
  {
    if log != [] {
      OwedSame(log[..|log| - 1], a, b);
    }
  }

  /** Where nothing is released twice, what is released and what is still owed make up all requests. */
  lemma {:induction false} ReleasedPlusOwed(log: seq<S.Event>, released: seq<nat>)
    requires NoneTwice(released) && forall k | k in released :: k < |log|
    ensures ReleasedBy(log, released) + Owed(log, released) == RequestedBy(log)
    decreases |log|
  {
    if released == [] {
      AllOwed(log);
    } else {
      assert released[0] in released;
      var n := |log| - 1;
      if n in released {
        var p :| 0 <= p < |released| && released[p] == n;
        var rest := released[..p] + released[p + 1..];
        ReleasedWithout(log, released, p);
        Rest(released, p, n);
        ReleasedPrefix(log, rest);
        OwedSame(log[..n], rest, released);
        ReleasedPlusOwed(log[..n], rest);
      } else {
        ReleasedPrefix(log, released);
        ReleasedPlusOwed(log[..n], released);
      }
    }
  }

  lemma {:induction false} AllOwed(log: seq<S.Event>)
    ensures Owed(log, []) == RequestedBy(log)
  {
    if log != [] {
      AllOwed(log[..|log| - 1]);
    }
  }

  lemma Rest(released: seq<nat>, p: nat, n: nat)
    requires NoneTwice(released) && p < |released| && released[p] == n && forall k | k in released :: k <= n
    ensures var rest := released[..p] + released[p + 1..];
            && NoneTwice(rest)
            && (forall k | k in rest :: k < n)
            && forall k: nat | k < n :: k in released <==> k in rest
  {
    var rest := released[..p] + released[p + 1..];
    assert released == released[..p] + [n] + released[p + 1..];
    forall i | 0 <= i < |rest|
      ensures rest[i] == (if i < p then released[i] else released[i + 1]) && rest[i] < n
    {
      assert (if i < p then released[i] else released[i + 1]) in released;
    }
    assert forall k | k in rest :: exists i :: 0 <= i < |rest| && rest[i] == k;
  }

  lemma {:induction false} ReleasedStays(log: seq<S.Event>, more: seq<S.Event>, released: seq<nat>)
    requires forall k | k in released :: k < |log|
    ensures ReleasedBy(log + more, released) == ReleasedBy(log, released)
  {
    if released != [] {
      var before := released[..|released| - 1];
      assert released[|released| - 1] in released && forall k | k in before :: k in released;
      ReleasedStays(log, more, before);
    }
  }

  lemma ReleasedMore(log: seq<S.Event>, released: seq<nat>, k: nat)
    requires IsRequest(log, k)
    ensures ReleasedBy(log, released + [k]) == ReleasedBy(log, released) + log[k].amount
  {
    assert (released + [k])[..|released|] == released;
  }

  lemma MovePays(rs: Readers, hs: Handlers, at: Places, t: Trip, m: Move)
    requires RequestsOnly(t) && t.paid == ReleasedBy(t.bridge.log, t.released)
    ensures var u := Next(rs, hs, at, t, m); u.paid == ReleasedBy(u.bridge.log, u.released)
  {
    var log := t.bridge.log;
    hide ReleasedBy, Marked, Watched, Bridge.After;
    match m
    case Bridging(step) =>
      LogGrows(rs, hs, t.bridge, step);
      var log' := Bridge.After(rs, hs, t.bridge, step).log;
      assert log' == log + log'[|log|..];
      ReleasedStays(log, log'[|log|..], t.released);
    case Receive(k, _, confirmed, _) =>
      if IsRequest(log, k) && !Marked(at, t.bridge.marks, k) {
        RequestSent(at, log, t.bridge.marks, k, confirmed);
        ReleasedMore(log, t.released, k);
      }
  }

  /** What Zion has paid is the sum of the requests it has released, over any travel. */
  lemma {:induction false} PaidIsReleased(rs: Readers, hs: Handlers, at: Places, attester: Addr, governance: Addr,
                                          moves: seq<Move>)
    requires AllMovesPossible(rs, hs, at, Origin(attester, governance), moves)
    ensures var t := Travel(rs, hs, at, Origin(attester, governance), moves);
            t.paid == ReleasedBy(t.bridge.log, t.released)
  {
    if moves != [] {
      var before := moves[..|moves| - 1];
      hide Next, MovePossible, ReleasedBy, Safe;
      PaidIsReleased(rs, hs, at, attester, governance, before);
      TravelSafe(rs, hs, at, attester, governance, before);
      hide RequestsOnly;
      MovePays(rs, hs, at, Travel(rs, hs, at, Origin(attester, governance), before), moves[|moves| - 1]);
    }
  }

  /**
   As long as no crash loses a mark, or Zion refuses repeats, every request is
   released at most once, and what remains in escrow on Zion covers what
   citizens hold locked and what they have requested but not yet received.
   */
  lemma EscrowCovers(rs: Readers, hs: Handlers, at: Places, attester: Addr, governance: Addr, moves: seq<Move>)
    requires AllMovesPossible(rs, hs, at, Origin(attester, governance), moves)
    requires var t := Origin(attester, governance);
             NothingLost(rs, hs, at, t, moves) || RefusesRepeats(rs, hs, at, t, moves)
    ensures var t := Travel(rs, hs, at, Origin(attester, governance), moves);
            && NoneTwice(t.released)
            && Total(Bridge.Amounts(t.bridge.locks)) - t.paid
               >= TotalLocked(t.bridge.ledger) + Owed(t.bridge.log, t.released)
  {
    var start := Origin(attester, governance);
    TravelSafe(rs, hs, at, attester, governance, moves);
    PaidIsReleased(rs, hs, at, attester, governance, moves);
    if NothingLost(rs, hs, at, start, moves) {
      SecondReleaseNeedsCrash(rs, hs, at, start, moves);
      ReleasedTwiceIff(rs, hs, at, start, moves);
    } else {
      RefusalReleasesOnce(rs, hs, at, start, moves);
    }
    var t := Travel(rs, hs, at, start, moves);
    hide Travel, RefusesRepeats, NeverAgain, AllMovesPossible, NothingLost, ReleasesMarked, NoneTwice;
    ReleasedPlusOwed(t.bridge.log, t.released);
    hide ReleasedBy, Owed, RequestsOnly, TotalLocked, RequestedBy;
    SafeWithinLocks(t.bridge);
  }
}
