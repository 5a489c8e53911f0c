/**
 Whole runs of the daemon: deliveries of Zion events and ragequit events, in
 any order and with any repetition, over one store.
 */
module DaemonRuns {
  import opened Keys
  import opened Dispatching
  import opened Watching

  datatype Config = Config(handlers: Handlers, maxRetries: int, connected: bool)

  datatype Job = Zion(delivery: Delivery) | Evm(event: RagequitEvent, accepted: bool)

  datatype State = State(marks: set<string>, calls: seq<Call>, unlocks: seq<Unlock>)

  /** What a key in the store stands for. */
  datatype Mark =
    | Done(txHash: string, kind: string)
    | Failed(txHash: string, kind: string)
    | Released(txHash: string, logIndex: nat)
    | Dead(txHash: string, logIndex: nat)

  predicate Genuine(m: Mark) {
    match m
    case Done(h, _) => ZionHash(h)
    case Failed(h, _) => ZionHash(h)
    case Released(h, _) => EvmHash(h)
    case Dead(h, _) => EvmHash(h)
  }

  function Encode(m: Mark): string {
    match m
    case Done(h, k) => DispatchKey(h, k)
    case Failed(h, k) => FailedKey(h, k)
    case Released(h, i) => RagequitKey(h, i)
    case Dead(h, i) => RagequitFailedKey(h, i)
  }

  /** The store cannot confuse one mark with another. */
  lemma EncodeInjective(m: Mark, n: Mark)
    requires Genuine(m) && Genuine(n)
    ensures Encode(m) == Encode(n) <==> m == n
  {
    hide DispatchKey, FailedKey, RagequitKey, RagequitFailedKey, ZionHash, EvmHash;
    if (m.Done? || m.Failed?) && (n.Done? || n.Failed?) {
      DispatchKeyInjective(m.txHash, m.kind, n.txHash, n.kind);
      KeysApart(m.txHash, m.kind, n.txHash, n.kind);
      KeysApart(n.txHash, n.kind, m.txHash, m.kind);
    } else if (m.Released? || m.Dead?) && (n.Released? || n.Dead?) {
      RagequitKeyInjective(m.txHash, m.logIndex, n.txHash, n.logIndex);
      KindsApart(m.txHash, m.logIndex, n.txHash, n.logIndex);
      KindsApart(n.txHash, n.logIndex, m.txHash, m.logIndex);
    } else if m.Done? || m.Failed? {
      ChainsApart(m.txHash, m.kind, n.txHash, n.logIndex);
    } else {
      ChainsApart(n.txHash, n.kind, m.txHash, m.logIndex);
    }
  }

  // ---------- jobs ----------

  function DeskOf(s: State): Desk {
    Desk(s.marks, s.calls)
  }

  function WatchOf(s: State): Watch {
    Watch(s.marks, s.unlocks)
  }

  function Did(c: Config, s: State, j: Job): State {
    match j
    case Zion(v) =>
      var d := Tried(c.handlers, c.maxRetries, DeskOf(s), v, 0);
      s.(marks := d.marks, calls := d.calls)
    case Evm(ev, accepted) =>
      var w := Watched(c.connected, WatchOf(s), ev, accepted);
      s.(marks := w.marks, unlocks := w.unlocks)
  }

  function RunJobs(c: Config, s: State, jobs: seq<Job>): State {
    if |jobs| == 0 then s else Did(c, RunJobs(c, s, jobs[..|jobs| - 1]), jobs[|jobs| - 1])
  }

  predicate JobGenuine(j: Job) {
    match j
    case Zion(v) => ZionHash(v.event.txHash)
    case Evm(ev, _) => EvmHash(ev.txHash)
  }

  predicate JobsGenuine(jobs: seq<Job>) {
    forall i | 0 <= i < |jobs| :: JobGenuine(jobs[i])
  }

  const FRESH: State := State({}, [], [])

  // ---------- what the marks say about the past ----------

  predicate SameKey(a: TypedEvent, b: TypedEvent) {
    a.txHash == b.txHash && a.kind == b.kind
  }

  predicate SameLog(a: RagequitEvent, b: RagequitEvent) {
    a.txHash == b.txHash && a.logIndex == b.logIndex
  }

  predicate CallOf(c: Call, h: string, k: string) {
    c.event.txHash == h && c.event.kind == k
  }

  predicate UnlockOf(u: Unlock, h: string, i: nat) {
    u.event.txHash == h && u.event.logIndex == i
  }

  /** The mark is backed by a handler call, or by what became of a ragequit event. */
  predicate Backed(s: State, m: Mark) {
    match m
    case Done(h, k) => exists c | c in s.calls :: CallOf(c, h, k) && !c.result.Transient?
    case Failed(h, k) => exists c | c in s.calls :: CallOf(c, h, k) && c.result.Permanent?
    case Released(h, i) => exists u | u in s.unlocks :: UnlockOf(u, h, i) && !u.fate.Refused?
    case Dead(h, i) => exists u | u in s.unlocks :: UnlockOf(u, h, i) && u.fate.Refused?
  }

  ghost predicate MarksBacked(s: State) {
    forall m | Genuine(m) :: Encode(m) in s.marks <==> Backed(s, m)
  }

  /** Of the calls for one key, all but the last ended in a transient failure. */
  predicate CallsEndOnce(calls: seq<Call>) {
    forall i, j | 0 <= i < j < |calls| :: SameKey(calls[i].event, calls[j].event) ==> calls[i].result.Transient?
  }

  /** No ragequit event is dealt with twice. */
  predicate UnlocksOnce(unlocks: seq<Unlock>) {
    forall i, j | 0 <= i < j < |unlocks| :: !SameLog(unlocks[i].event, unlocks[j].event)
  }

  ghost predicate Sane(s: State) {
    MarksBacked(s) && CallsEndOnce(s.calls) && UnlocksOnce(s.unlocks)
  }

  lemma FreshSane()
    ensures Sane(FRESH)
  {
  }

  /** Marking one more key changes what the store says about that mark alone. */
  lemma MarkOne(marks: set<string>, m: Mark, n: Mark)
    requires Genuine(m) && Genuine(n)
    ensures Encode(n) in marks + {Encode(m)} <==> n == m || Encode(n) in marks
  {
    hide Encode, Genuine;
    EncodeInjective(m, n);
  }

  /** One handler call, with the marks that follow from it. */
  function Attempted(hs: Handlers, s: State, ev: TypedEvent, r: Result): State
    requires Handled(hs, DeskOf(s), ev)
  {
    var marks := match r
                 case Transient => s.marks
                 case Success => s.marks + {Encode(Done(ev.txHash, ev.kind))}
                 case Permanent => s.marks + {Encode(Failed(ev.txHash, ev.kind))} + {Encode(Done(ev.txHash, ev.kind))};
    s.(marks := marks, calls := s.calls + [Call(ev, hs[ev.kind], r)])
  }

  lemma AttemptedMarks(hs: Handlers, s: State, ev: TypedEvent, r: Result)
    requires Handled(hs, DeskOf(s), ev) && ZionHash(ev.txHash) && MarksBacked(s)
    ensures MarksBacked(Attempted(hs, s, ev, r))
  {
    var s', done, failed := Attempted(hs, s, ev, r), Done(ev.txHash, ev.kind), Failed(ev.txHash, ev.kind);
    var call := Call(ev, hs[ev.kind], r);
    forall m | Genuine(m)
      ensures Encode(m) in s'.marks <==> Backed(s', m)
    {
      hide Encode, Genuine, ZionHash;
      assert Genuine(done) && Genuine(failed) by { BothGenuine(ev.txHash, ev.kind); }
      MarkOne(s.marks, done, m);
      MarkOne(s.marks, failed, m);
      MarkOne(s.marks + {Encode(failed)}, done, m);
      assert forall c :: c in s'.calls <==> c in s.calls || c == call;
      BackedAfterCall(s, s', call, m);
    }
  }

  lemma BothGenuine(h: string, k: string)
    requires ZionHash(h)
    ensures Genuine(Done(h, k)) && Genuine(Failed(h, k))
  {
  }

  lemma BackedAfterCall(s: State, s': State, call: Call, m: Mark)
    requires forall c :: c in s'.calls <==> c in s.calls || c == call
    requires s'.unlocks == s.unlocks
    ensures Backed(s', m) <==>
              || Backed(s, m)
              || (m == Done(call.event.txHash, call.event.kind) && !call.result.Transient?)
              || (m == Failed(call.event.txHash, call.event.kind) && call.result.Permanent?)
  {
  }

  /** A call is made only while every earlier call for its key was a transient failure. */
  lemma AttemptedCalls(hs: Handlers, s: State, ev: TypedEvent, r: Result)
    requires Handled(hs, DeskOf(s), ev) && ZionHash(ev.txHash) && MarksBacked(s) && CallsEndOnce(s.calls)
    ensures CallsEndOnce(Attempted(hs, s, ev, r).calls)
  {
    assert Genuine(Done(ev.txHash, ev.kind)) && Encode(Done(ev.txHash, ev.kind)) !in s.marks;
    assert !Backed(s, Done(ev.txHash, ev.kind));
    forall i | 0 <= i < |s.calls| && SameKey(s.calls[i].event, ev)
      ensures s.calls[i].result.Transient?
    {
      assert s.calls[i] in s.calls && CallOf(s.calls[i], ev.txHash, ev.kind);
    }
    hide Encode, MarksBacked, ZionHash;
  }

  function WithDesk(s: State, d: Desk): State {
    s.(marks := d.marks, calls := d.calls)
  }

  /** One step of the retry loop in terms of a single call. */
  lemma TriedOnce(hs: Handlers, maxRetries: int, s: State, v: Delivery, attempt: nat)
    requires attempt <= maxRetries && !(attempt > 0 && v.cancelled(attempt)) && Handled(hs, DeskOf(s), v.event)
    ensures var s' := Attempted(hs, s, v.event, v.results(attempt));
            Tried(hs, maxRetries, DeskOf(s), v, attempt)
            == if v.results(attempt).Transient? then Tried(hs, maxRetries, DeskOf(s'), v, attempt + 1) else DeskOf(s')
  {
  }

  lemma TriedNothing(hs: Handlers, maxRetries: int, d: Desk, v: Delivery, attempt: nat)
    requires attempt > maxRetries || (attempt > 0 && v.cancelled(attempt)) || !Handled(hs, d, v.event)
    ensures Tried(hs, maxRetries, d, v, attempt) == d
  {
  }

  /** A delivery keeps the books sane, forgets nothing, and makes at most one call per remaining attempt. */
  lemma {:induction false} DeliverySane(hs: Handlers, maxRetries: int, s: State, v: Delivery, attempt: nat)
    requires Sane(s) && ZionHash(v.event.txHash)
    ensures var d := Tried(hs, maxRetries, DeskOf(s), v, attempt);
            && Sane(WithDesk(s, d))
            && s.marks <= d.marks && s.calls <= d.calls
            && |d.calls| - |s.calls| <= (if maxRetries + 1 > attempt then maxRetries + 1 - attempt else 0)
            && forall i | |s.calls| <= i < |d.calls| :: d.calls[i].event == v.event
    decreases maxRetries + 1 - attempt
  {
    hide ZionHash, Handled;
    if attempt > maxRetries || (attempt > 0 && v.cancelled(attempt)) || !Handled(hs, DeskOf(s), v.event) {
      TriedNothing(hs, maxRetries, DeskOf(s), v, attempt);
      hide Tried, MarksBacked, CallsEndOnce, UnlocksOnce;
      assert WithDesk(s, DeskOf(s)) == s;
    } else {
      var r := v.results(attempt);
      AttemptedMarks(hs, s, v.event, r);
      AttemptedCalls(hs, s, v.event, r);
      TriedOnce(hs, maxRetries, s, v, attempt);
      var s' := Attempted(hs, s, v.event, r);
      hide Tried, MarksBacked, CallsEndOnce, UnlocksOnce, Encode;
      assert Sane(s');
      if r.Transient? {
        DeliverySane(hs, maxRetries, s', v, attempt + 1);
        var d := Tried(hs, maxRetries, DeskOf(s'), v, attempt + 1);
        assert WithDesk(s', d) == WithDesk(s, d);
      } else {
        assert WithDesk(s, DeskOf(s')) == s';
      }
    }
  }

  // ---------- ragequit events ----------

  lemma WatchedMarks(connected: bool, s: State, ev: RagequitEvent, accepted: bool)
    requires MarksBacked(s) && EvmHash(ev.txHash)
    ensures var w := Watched(connected, WatchOf(s), ev, accepted);
            MarksBacked(s.(marks := w.marks, unlocks := w.unlocks))
  {
    var w := Watched(connected, WatchOf(s), ev, accepted);
    var s' := s.(marks := w.marks, unlocks := w.unlocks);
    if Settled(s.marks, ev) {
      assert s' == s;
    } else {
      var fate := FateOf(connected, accepted);
      var mark := if fate.Refused? then Dead(ev.txHash, ev.logIndex) else Released(ev.txHash, ev.logIndex);
      forall m | Genuine(m)
        ensures Encode(m) in s'.marks <==> Backed(s', m)
      {
        assert Genuine(mark);
        hide Genuine, EvmHash;
        MarkOne(s.marks, mark, m);
        BackedAfterUnlock(s, s', Unlock(ev, fate), m);
      }
    }
  }

  lemma BackedAfterUnlock(s: State, s': State, unlock: Unlock, m: Mark)
    requires s'.unlocks == s.unlocks + [unlock] && s'.calls == s.calls
    ensures Backed(s', m) <==>
              || Backed(s, m)
              || (m == Released(unlock.event.txHash, unlock.event.logIndex) && !unlock.fate.Refused?)
              || (m == Dead(unlock.event.txHash, unlock.event.logIndex) && unlock.fate.Refused?)
  {
  }

  lemma WatchedUnlocks(connected: bool, s: State, ev: RagequitEvent, accepted: bool)
    requires MarksBacked(s) && EvmHash(ev.txHash) && UnlocksOnce(s.unlocks)
    ensures UnlocksOnce(Watched(connected, WatchOf(s), ev, accepted).unlocks)
  {
    if !Settled(s.marks, ev) {
      var released, dead := Released(ev.txHash, ev.logIndex), Dead(ev.txHash, ev.logIndex);
      assert Genuine(released) && Genuine(dead) && Encode(released) !in s.marks && Encode(dead) !in s.marks;
      assert !Backed(s, released) && !Backed(s, dead);
      forall i | 0 <= i < |s.unlocks|
        ensures !SameLog(s.unlocks[i].event, ev)
      {
        assert s.unlocks[i] in s.unlocks;
      }
    }
  }

  lemma JobSane(c: Config, s: State, j: Job)
    requires Sane(s) && JobGenuine(j)
    ensures Sane(Did(c, s, j)) && s.marks <= Did(c, s, j).marks
    ensures s.calls <= Did(c, s, j).calls && s.unlocks <= Did(c, s, j).unlocks
  {
    match j
    case Zion(v) =>
      DeliverySane(c.handlers, c.maxRetries, s, v, 0);
    case Evm(ev, accepted) =>
      WatchedMarks(c.connected, s, ev, accepted);
      WatchedUnlocks(c.connected, s, ev, accepted);
      hide MarksBacked, UnlocksOnce, EvmHash;
  }

  /**
   Over any run of the daemon every mark is backed by what happened, each
   (transaction, type) key sees no handler call after a success or a permanent
   failure, and each ragequit log is dealt with at most once.
   */
  lemma {:induction false} DaemonAlwaysSane(c: Config, jobs: seq<Job>)
    requires JobsGenuine(jobs)
    ensures Sane(RunJobs(c, FRESH, jobs))
  {
    if |jobs| == 0 {
      FreshSane();
    } else {
      assert JobsGenuine(jobs[..|jobs| - 1]);
      DaemonAlwaysSane(c, jobs[..|jobs| - 1]);
      JobSane(c, RunJobs(c, FRESH, jobs[..|jobs| - 1]), jobs[|jobs| - 1]);
    }
  }

  /** No mark is ever undone, and no call or unlock forgotten. */
  lemma {:induction false} NothingUndone(c: Config, jobs: seq<Job>, n: nat)
    requires JobsGenuine(jobs) && n <= |jobs|
    ensures var s, t := RunJobs(c, FRESH, jobs[..n]), RunJobs(c, FRESH, jobs);
            s.marks <= t.marks && s.calls <= t.calls && s.unlocks <= t.unlocks
  {
    if n == |jobs| {
      assert jobs[..n] == jobs;
    } else {
      var before := jobs[..|jobs| - 1];
      assert JobsGenuine(before) && before[..n] == jobs[..n];
      NothingUndone(c, before, n);
      DaemonAlwaysSane(c, before);
      JobSane(c, RunJobs(c, FRESH, before), jobs[|jobs| - 1]);
    }
  }

  predicate Successful(c: Call) {
    c.result.Success?
  }

  /** For each (transaction, type) key at most one handler call succeeds, and none comes after it. */
  lemma AtMostOneSuccess(c: Config, jobs: seq<Job>, i: nat, j: nat)
    requires JobsGenuine(jobs)
    requires var calls := RunJobs(c, FRESH, jobs).calls; i < j < |calls| && SameKey(calls[i].event, calls[j].event)
    ensures !Successful(RunJobs(c, FRESH, jobs).calls[i]) && !RunJobs(c, FRESH, jobs).calls[i].result.Permanent?
  {
    DaemonAlwaysSane(c, jobs);
    hide RunJobs, MarksBacked;
  }

  /** Every ragequit event that has been delivered carries exactly one of the two marks: done or dead-lettered. */
  lemma DoneOrDead(c: Config, jobs: seq<Job>, n: nat)
    requires JobsGenuine(jobs) && n < |jobs| && jobs[n].Evm?
    ensures var s, ev := RunJobs(c, FRESH, jobs), jobs[n].event;
            RagequitKey(ev.txHash, ev.logIndex) in s.marks <==> RagequitFailedKey(ev.txHash, ev.logIndex) !in s.marks
  {
    var s, ev := RunJobs(c, FRESH, jobs), jobs[n].event;
    assert JobGenuine(jobs[n]);
    SettledOnceDelivered(c, jobs, n);
    DaemonAlwaysSane(c, jobs);
    var released, dead := Released(ev.txHash, ev.logIndex), Dead(ev.txHash, ev.logIndex);
    assert Genuine(released) && Genuine(dead);
    assert Encode(released) in s.marks <==> Backed(s, released);
    assert Encode(dead) in s.marks <==> Backed(s, dead);
    hide RunJobs, MarksBacked, EvmHash;
    if Backed(s, released) && Backed(s, dead) {
      var u :| u in s.unlocks && UnlockOf(u, ev.txHash, ev.logIndex) && !u.fate.Refused?;
      var v :| v in s.unlocks && UnlockOf(v, ev.txHash, ev.logIndex) && v.fate.Refused?;
      OneUnlock(s.unlocks, u, v);
    }
  }

  lemma OneUnlock(unlocks: seq<Unlock>, u: Unlock, v: Unlock)
    requires UnlocksOnce(unlocks) && u in unlocks && v in unlocks && SameLog(u.event, v.event)
    ensures u == v
  {
  }

  lemma SettledOnceDelivered(c: Config, jobs: seq<Job>, n: nat)
    requires JobsGenuine(jobs) && n < |jobs| && jobs[n].Evm?
    ensures Settled(RunJobs(c, FRESH, jobs).marks, jobs[n].event)
  {
    assert jobs[..n + 1][..n] == jobs[..n];
    assert RunJobs(c, FRESH, jobs[..n + 1]) == Did(c, RunJobs(c, FRESH, jobs[..n]), jobs[n]);
    NothingUndone(c, jobs, n + 1);
    hide JobsGenuine;
  }

  /** One delivery calls handlers at most maxRetries + 1 times, and always for its own event. */
  lemma AttemptsBounded(c: Config, jobs: seq<Job>, v: Delivery)
    requires JobsGenuine(jobs) && ZionHash(v.event.txHash)
    ensures var s := RunJobs(c, FRESH, jobs);
            var t := Did(c, s, Zion(v));
            && |t.calls| <= |s.calls| + (if c.maxRetries >= 0 then c.maxRetries + 1 else 0)
            && s.calls <= t.calls
            && forall i | |s.calls| <= i < |t.calls| :: t.calls[i].event == v.event
  {
    DaemonAlwaysSane(c, jobs);
    DeliverySane(c.handlers, c.maxRetries, RunJobs(c, FRESH, jobs), v, 0);
    hide RunJobs, Sane, Tried;
  }
}
