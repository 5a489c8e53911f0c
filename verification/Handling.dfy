/**
 Which events are handled over whole runs of the daemon. Events of one
 transaction and one type share a key, so only the first of them is handled;
 an event whose key no other delivery shares is handled exactly once.
 */
module Handling {
  import opened Keys
  import opened Dispatching
  import opened Watching
  import opened DaemonRuns

  /** Some attempt succeeds before a permanent failure, shutdown or the retry limit. */
  predicate EventuallySucceeds(maxRetries: int, v: Delivery, attempt: nat)
    decreases maxRetries + 1 - attempt
  {
    && attempt <= maxRetries
    && !(attempt > 0 && v.cancelled(attempt))
    && (v.results(attempt).Success?
        || (v.results(attempt).Transient? && EventuallySucceeds(maxRetries, v, attempt + 1)))
  }

  /** The job delivers an event of a registered type. */
  predicate Registered(c: Config, j: Job) {
    j.Zion? && j.delivery.event.kind in c.handlers
  }

  predicate WillSucceed(c: Config, j: Job) {
    Registered(c, j) ==> EventuallySucceeds(c.maxRetries, j.delivery, 0)
  }

  /** The events whose handler call succeeded, in order. */
  function Succeeded(calls: seq<Call>): seq<TypedEvent> {
    if calls == [] then []
    else
      var last := calls[|calls| - 1];
      Succeeded(calls[..|calls| - 1]) + if last.result.Success? then [last.event] else []
  }

  lemma SucceededNext(calls: seq<Call>, c: Call)
    ensures Succeeded(calls + [c]) == Succeeded(calls) + if c.result.Success? then [c.event] else []
  {
    assert (calls + [c])[..|calls|] == calls;
  }

  /** A delivery that eventually succeeds is handled once, and its key marked. */
  lemma {:induction false} DeliverySucceeds(hs: Handlers, maxRetries: int, d: Desk, v: Delivery, attempt: nat)
    requires Handled(hs, d, v.event) && EventuallySucceeds(maxRetries, v, attempt)
    ensures var d' := Tried(hs, maxRetries, d, v, attempt);
            && d'.marks == d.marks + {Key(v.event)}
            && Succeeded(d'.calls) == Succeeded(d.calls) + [v.event]
            && d'.calls != [] && d'.calls[|d'.calls| - 1] == Call(v.event, hs[v.event.kind], Success)
    decreases maxRetries + 1 - attempt
  {
    SucceededNext(d.calls, Call(v.event, hs[v.event.kind], v.results(attempt)));
    hide Succeeded, Key;
    if v.results(attempt).Transient? {
      DeliverySucceeds(hs, maxRetries, Dispatched(hs, d, v.event, v.results(attempt)), v, attempt + 1);
    }
  }

  /** From attempt a on, every attempt before the kth fails for the time being, without a shutdown in between. */
  predicate KeepsTrying(v: Delivery, a: nat, k: nat) {
    (forall j | a <= j < k :: v.results(j).Transient?) && (forall j | a <= j < k && j > 0 :: !v.cancelled(j))
  }

  /** The first attempt that succeeds or fails for good is the last, and decides which keys are marked. */
  lemma {:induction false} DeliveryEnds(hs: Handlers, maxRetries: int, d: Desk, v: Delivery, a: nat, k: nat)
    requires Handled(hs, d, v.event) && a <= k <= maxRetries && KeepsTrying(v, a, k)
    requires !v.results(k).Transient? && (k > 0 ==> !v.cancelled(k))
    ensures var d', done := Tried(hs, maxRetries, d, v, a), v.event.txHash + ":" + v.event.kind;
            && |d'.calls| == |d.calls| + k - a + 1
            && d'.calls[|d'.calls| - 1] == Call(v.event, hs[v.event.kind], v.results(k))
            && d'.marks == d.marks + if v.results(k).Success? then {done} else {done, "failed:" + done}
    decreases maxRetries + 1 - a
  {
    assert "failed:" + (v.event.txHash + ":" + v.event.kind) == "failed:" + v.event.txHash + ":" + v.event.kind;
    if a < k {
      DeliveryEnds(hs, maxRetries, Dispatched(hs, d, v.event, v.results(a)), v, a + 1, k);
    }
  }

  /** Where the retries run out, or shutdown comes, nothing is marked: the event may be delivered again. */
  lemma {:induction false} DeliveryGivesUp(hs: Handlers, maxRetries: int, d: Desk, v: Delivery, a: nat, k: nat)
    requires Handled(hs, d, v.event) && a <= k && k <= maxRetries + 1 && KeepsTrying(v, a, k)
    requires k == maxRetries + 1 || (k > 0 && v.cancelled(k))
    ensures var d' := Tried(hs, maxRetries, d, v, a); d'.marks == d.marks && |d'.calls| == |d.calls| + k - a
    decreases maxRetries + 1 - a
  {
    if a < k {
      DeliveryGivesUp(hs, maxRetries, Dispatched(hs, d, v.event, v.results(a)), v, a + 1, k);
    }
  }

  // ---------- the first of each key ----------

  type EventId = (string, string)

  function IdOf(ev: TypedEvent): EventId {
    (ev.txHash, ev.kind)
  }

  function Ids(events: seq<TypedEvent>): set<EventId> {
    set ev | ev in events :: IdOf(ev)
  }

  /** The events whose transaction and type have not occurred together before. */
  function Firsts(events: seq<TypedEvent>): seq<TypedEvent> {
    if events == [] then []
    else
      var before, last := events[..|events| - 1], events[|events| - 1];
      Firsts(before) + if IdOf(last) in Ids(before) then [] else [last]
  }

  function ZionEvents(jobs: seq<Job>): seq<TypedEvent> {
    if |jobs| == 0 then []
    else
      var last := jobs[|jobs| - 1];
      ZionEvents(jobs[..|jobs| - 1]) + if last.Zion? then [last.delivery.event] else []
  }

  /** The delivered events of registered types; the dispatcher skips all others. */
  function RegisteredEvents(c: Config, jobs: seq<Job>): seq<TypedEvent> {
    if |jobs| == 0 then []
    else RegisteredEvents(c, jobs[..|jobs| - 1]) + NewEvent(c, jobs[|jobs| - 1])
  }

  /** What one more job adds. */
  function NewEvent(c: Config, j: Job): seq<TypedEvent> {
    if Registered(c, j) then [j.delivery.event] else []
  }

  function NewFirst(c: Config, events: seq<TypedEvent>, j: Job): seq<TypedEvent> {
    if Registered(c, j) && IdOf(j.delivery.event) !in Ids(events) then [j.delivery.event] else []
  }

  /** Of all dispatch keys, exactly those of the given identities are marked. */
  ghost predicate MarkedIds(marks: set<string>, ids: set<EventId>) {
    forall h, k | ZionHash(h) :: DispatchKey(h, k) in marks <==> (h, k) in ids
  }

  lemma IdsNext(events: seq<TypedEvent>, ev: TypedEvent)
    ensures Ids(events + [ev]) == Ids(events) + {IdOf(ev)}
  {
    assert ev in events + [ev];
    forall e | e in events
      ensures IdOf(e) in Ids(events + [ev])
    {
      assert e in events + [ev];
    }
  }

  lemma FirstsNext(events: seq<TypedEvent>, ev: TypedEvent)
    ensures Firsts(events + [ev]) == Firsts(events) + if IdOf(ev) in Ids(events) then [] else [ev]
  {
    assert (events + [ev])[..|events|] == events;
  }

  lemma ZionNext(c: Config, s: State, v: Delivery, ids: set<EventId>)
    requires ZionHash(v.event.txHash) && v.event.kind in c.handlers && WillSucceed(c, Zion(v))
    requires MarkedIds(s.marks, ids)
    ensures var s', ev := Did(c, s, Zion(v)), v.event;
            && Succeeded(s'.calls) == Succeeded(s.calls) + (if IdOf(ev) in ids then [] else [ev])
            && MarkedIds(s'.marks, ids + {IdOf(ev)})
  {
    hide EventuallySucceeds, Succeeded, DispatchKey, ZionHash;
    var ev := v.event;
    if IdOf(ev) in ids {
      TriedNothing(c.handlers, c.maxRetries, DeskOf(s), v, 0);
      assert ids + {IdOf(ev)} == ids;
    } else {
      DeliverySucceeds(c.handlers, c.maxRetries, DeskOf(s), v, 0);
      hide Tried;
      forall h, k | ZionHash(h)
        ensures DispatchKey(h, k) == Key(ev) <==> (h, k) == IdOf(ev)
      {
        DispatchKeyInjective(h, k, ev.txHash, ev.kind);
      }
    }
  }

  /** Events of other types are skipped. */
  lemma UnregisteredNext(c: Config, s: State, v: Delivery)
    requires v.event.kind !in c.handlers
    ensures Did(c, s, Zion(v)) == s
  {
    TriedNothing(c.handlers, c.maxRetries, DeskOf(s), v, 0);
  }

  lemma EvmNext(c: Config, s: State, ev: RagequitEvent, accepted: bool, ids: set<EventId>)
    requires MarkedIds(s.marks, ids)
    ensures var s' := Did(c, s, Evm(ev, accepted)); s'.calls == s.calls && MarkedIds(s'.marks, ids)
  {
    hide DispatchKey, RagequitKey, RagequitFailedKey, ZionHash;
    forall h, k | ZionHash(h)
      ensures DispatchKey(h, k) != RagequitKey(ev.txHash, ev.logIndex)
      ensures DispatchKey(h, k) != RagequitFailedKey(ev.txHash, ev.logIndex)
    {
      ChainsApart(h, k, ev.txHash, ev.logIndex);
    }
  }

  lemma JobNext(c: Config, s: State, j: Job, events: seq<TypedEvent>)
    requires JobGenuine(j) && WillSucceed(c, j) && MarkedIds(s.marks, Ids(events))
    ensures Succeeded(Did(c, s, j).calls) == Succeeded(s.calls) + NewFirst(c, events, j)
    ensures Firsts(events + NewEvent(c, j)) == Firsts(events) + NewFirst(c, events, j)
    ensures MarkedIds(Did(c, s, j).marks, Ids(events + NewEvent(c, j)))
  {
    hide Succeeded, MarkedIds, WillSucceed, Did, ZionHash, Firsts, Ids;
    if Registered(c, j) {
      ZionNext(c, s, j.delivery, Ids(events));
      IdsNext(events, j.delivery.event);
      FirstsNext(events, j.delivery.event);
    } else {
      assert events + NewEvent(c, j) == events;
      match j
      case Zion(v) => UnregisteredNext(c, s, v);
      case Evm(ev, accepted) => EvmNext(c, s, ev, accepted, Ids(events));
    }
  }

  /**
   Whatever transactions the events come from, in whatever order they are
   delivered, and whatever ragequit events and events of other types come
   between: of the registered types exactly the first event of each transaction
   and type is handled, each once and in order.
   */
  lemma {:induction false} FirstsHandled(c: Config, s: State, jobs: seq<Job>)
    requires JobsGenuine(jobs) && forall i | 0 <= i < |jobs| :: WillSucceed(c, jobs[i])
    requires MarkedIds(s.marks, {})
    ensures var s' := RunJobs(c, s, jobs);
            && Succeeded(s'.calls) == Succeeded(s.calls) + Firsts(RegisteredEvents(c, jobs))
            && MarkedIds(s'.marks, Ids(RegisteredEvents(c, jobs)))
  {
    hide Succeeded, MarkedIds, WillSucceed, Did, JobGenuine;
    if |jobs| == 0 {
      assert Ids(RegisteredEvents(c, jobs)) == {};
    } else {
      var before, last := jobs[..|jobs| - 1], jobs[|jobs| - 1];
      assert RegisteredEvents(c, jobs) == RegisteredEvents(c, before) + NewEvent(c, last);
      assert RunJobs(c, s, jobs) == Did(c, RunJobs(c, s, before), last);
      hide Ids, Firsts, NewFirst, NewEvent, RegisteredEvents, RunJobs;
      FirstsHandled(c, s, before);
      JobNext(c, RunJobs(c, s, before), last, RegisteredEvents(c, before));
    }
  }

  predicate DistinctIds(events: seq<TypedEvent>) {
    forall i, j | 0 <= i < j < |events| :: IdOf(events[i]) != IdOf(events[j])
  }

  lemma DistinctNext(before: seq<TypedEvent>, last: TypedEvent)
    ensures DistinctIds(before + [last]) <==> DistinctIds(before) && IdOf(last) !in Ids(before)
  {
    var all := before + [last];
    assert forall i | 0 <= i < |before| :: before[i] == all[i] && before[i] in before;
    if IdOf(last) in Ids(before) {
      var e :| e in before && IdOf(e) == IdOf(last);
      var i :| 0 <= i < |before| && before[i] == e;
      assert IdOf(all[i]) == IdOf(all[|before|]);
    }
  }

  lemma {:induction false} FirstsOfDistinct(events: seq<TypedEvent>)
    ensures |Firsts(events)| <= |events|
    ensures |Firsts(events)| == |events| <==> DistinctIds(events)
    ensures DistinctIds(events) ==> Firsts(events) == events
  {
    if events != [] {
      var before, last := events[..|events| - 1], events[|events| - 1];
      assert events == before + [last];
      FirstsOfDistinct(before);
      DistinctNext(before, last);
      hide DistinctIds, Ids;
    }
  }

  /**
   With handlers that eventually succeed, every event of a registered type is handled,
   each once and in order, exactly if no two share transaction and type.
   */
  lemma HandledExactlyOnce(c: Config, s: State, jobs: seq<Job>)
    requires JobsGenuine(jobs) && forall i | 0 <= i < |jobs| :: WillSucceed(c, jobs[i])
    requires MarkedIds(s.marks, {})
    ensures Succeeded(RunJobs(c, s, jobs).calls) == Succeeded(s.calls) + RegisteredEvents(c, jobs)
            <==> DistinctIds(RegisteredEvents(c, jobs))
  {
    FirstsHandled(c, s, jobs);
    FirstsOfDistinct(RegisteredEvents(c, jobs));
    hide Succeeded, Firsts, RegisteredEvents, RunJobs, DistinctIds, MarkedIds;
    var a, b, e := Succeeded(s.calls), Firsts(RegisteredEvents(c, jobs)), RegisteredEvents(c, jobs);
    if a + b == a + e {
      assert b == (a + b)[|a|..] == e;
    }
  }

  lemma TwoEvents(c: Config, v: Delivery, w: Delivery)
    requires v.event.kind in c.handlers && IdOf(v.event) == IdOf(w.event)
    ensures Firsts(RegisteredEvents(c, [Zion(v), Zion(w)])) == [v.event]
  {
    assert [Zion(v), Zion(w)][..1] == [Zion(v)] && [Zion(v)][..0] == [];
    assert RegisteredEvents(c, [Zion(v)]) == [v.event];
    assert RegisteredEvents(c, [Zion(v), Zion(w)]) == [v.event] + [w.event];
    FirstsNext([], v.event);
    assert [] + [v.event] == [v.event] && v.event in [v.event];
    FirstsNext([v.event], w.event);
  }

  /** Two events of one type in one transaction, such as two locks of capital: only the first is ever handled. */
  lemma SecondLockIsLost(c: Config, s: State, v: Delivery, w: Delivery)
    requires WillSucceed(c, Zion(v)) && WillSucceed(c, Zion(w)) && MarkedIds(s.marks, {})
    requires ZionHash(v.event.txHash) && v.event.kind in c.handlers && IdOf(v.event) == IdOf(w.event)
    ensures Succeeded(RunJobs(c, s, [Zion(v), Zion(w)]).calls) == Succeeded(s.calls) + [v.event]
  {
    hide RunJobs, Succeeded, MarkedIds, WillSucceed, ZionHash, Firsts, RegisteredEvents;
    FirstsHandled(c, s, [Zion(v), Zion(w)]);
    TwoEvents(c, v, w);
  }

  // ---------- one delivery among any others ----------

  /** Every handler call was made for a delivered event. */
  lemma {:induction false} CallsFromJobs(c: Config, jobs: seq<Job>)
    requires JobsGenuine(jobs)
    ensures forall call | call in RunJobs(c, FRESH, jobs).calls :: call.event in ZionEvents(jobs)
  {
    if |jobs| > 0 {
      var before, last := jobs[..|jobs| - 1], jobs[|jobs| - 1];
      assert JobsGenuine(before) && JobGenuine(last);
      CallsFromJobs(c, before);
      DaemonAlwaysSane(c, before);
      var s := RunJobs(c, FRESH, before);
      hide JobsGenuine, Sane;
      match last {
        case Zion(v) =>
          AttemptsBounded(c, before, v);
          hide Did;
          forall call | call in Did(c, s, last).calls
            ensures call in s.calls || call.event == v.event
          {
            var i :| 0 <= i < |Did(c, s, last).calls| && Did(c, s, last).calls[i] == call;
          }
        case Evm(_, _) =>
      }
    }
  }

  /** The call ended its key: it succeeded or failed for good. */
  predicate Concludes(call: Call, ev: TypedEvent) {
    SameKey(call.event, ev) && !call.result.Transient?
  }

  lemma ConcludedOnce(calls: seq<Call>, i: nat, ev: TypedEvent)
    requires CallsEndOnce(calls) && i < |calls| && Concludes(calls[i], ev)
    ensures forall j | 0 <= j < |calls| && Concludes(calls[j], ev) :: j == i
  {
  }

  /**
   A registered event whose delivery eventually succeeds has, whatever other
   deliveries fail or repeat, exactly one concluding call for its key.
   */
  lemma DeliveryConcludes(c: Config, jobs: seq<Job>, n: nat)
    requires JobsGenuine(jobs) && n < |jobs| && Registered(c, jobs[n]) && WillSucceed(c, jobs[n])
    ensures var calls, ev := RunJobs(c, FRESH, jobs).calls, jobs[n].delivery.event;
            exists i :: 0 <= i < |calls| && Concludes(calls[i], ev)
              && forall j | 0 <= j < |calls| && Concludes(calls[j], ev) :: j == i
  {
    var v, ev := jobs[n].delivery, jobs[n].delivery.event;
    var done, s, t := Done(ev.txHash, ev.kind), RunJobs(c, FRESH, jobs[..n]), RunJobs(c, FRESH, jobs[..n + 1]);
    assert JobGenuine(jobs[n]) && Genuine(done);
    assert jobs[..n + 1][..n] == jobs[..n] && t == Did(c, s, jobs[n]);
    assert Encode(done) in t.marks by {
      hide EventuallySucceeds, Succeeded;
      if Handled(c.handlers, DeskOf(s), ev) {
        DeliverySucceeds(c.handlers, c.maxRetries, DeskOf(s), v, 0);
      } else {
        TriedNothing(c.handlers, c.maxRetries, DeskOf(s), v, 0);
      }
    }
    hide Did, RunJobs, EventuallySucceeds, Encode, ZionHash;
    NothingUndone(c, jobs, n + 1);
    DaemonAlwaysSane(c, jobs);
    BackedConcludes(RunJobs(c, FRESH, jobs), ev);
  }

  lemma BackedConcludes(s: State, ev: TypedEvent)
    requires Sane(s) && ZionHash(ev.txHash) && Encode(Done(ev.txHash, ev.kind)) in s.marks
    ensures exists i :: 0 <= i < |s.calls| && Concludes(s.calls[i], ev)
              && forall j | 0 <= j < |s.calls| && Concludes(s.calls[j], ev) :: j == i
  {
    var done := Done(ev.txHash, ev.kind);
    assert Genuine(done) && Backed(s, done);
    var call :| call in s.calls && CallOf(call, ev.txHash, ev.kind) && !call.result.Transient?;
    var i :| 0 <= i < |s.calls| && s.calls[i] == call;
    hide Encode, MarksBacked, ZionHash;
    assert Concludes(s.calls[i], ev);
    ConcludedOnce(s.calls, i, ev);
  }

  /** No other delivery of the run shares transaction and type with the nth. */
  predicate OnlyDelivery(jobs: seq<Job>, n: nat)
    requires n < |jobs| && jobs[n].Zion?
  {
    forall m | 0 <= m < |jobs| && m != n && jobs[m].Zion? :: !SameKey(jobs[m].delivery.event, jobs[n].delivery.event)
  }

  lemma {:induction false} EventsFromJobs(jobs: seq<Job>)
    ensures forall ev | ev in ZionEvents(jobs) ::
              exists m | 0 <= m < |jobs| :: jobs[m].Zion? && jobs[m].delivery.event == ev
  {
    if |jobs| > 0 {
      var before := jobs[..|jobs| - 1];
      EventsFromJobs(before);
      forall ev | ev in ZionEvents(before)
        ensures exists m | 0 <= m < |jobs| :: jobs[m].Zion? && jobs[m].delivery.event == ev
      {
        var m :| 0 <= m < |before| && before[m].Zion? && before[m].delivery.event == ev;
        assert jobs[m] == before[m];
      }
      var last := |jobs| - 1;
      assert jobs[last].Zion? ==> jobs[last].delivery.event == jobs[last].delivery.event;
    }
  }

  /**
   An event with a key of its own whose delivery eventually succeeds is handled
   successfully exactly once, whatever becomes of all other deliveries.
   */
  lemma OwnKeyHandledOnce(c: Config, jobs: seq<Job>, n: nat)
    requires JobsGenuine(jobs) && n < |jobs| && Registered(c, jobs[n]) && WillSucceed(c, jobs[n])
    requires OnlyDelivery(jobs, n)
    ensures var calls, ev := RunJobs(c, FRESH, jobs).calls, jobs[n].delivery.event;
            exists i :: 0 <= i < |calls| && calls[i].event == ev && calls[i].result.Success?
              && forall j | 0 <= j < |calls| && Concludes(calls[j], ev) :: j == i
  {
    var v, ev := jobs[n].delivery, jobs[n].delivery.event;
    var s, t, all := RunJobs(c, FRESH, jobs[..n]), RunJobs(c, FRESH, jobs[..n + 1]), RunJobs(c, FRESH, jobs);
    assert JobsGenuine(jobs[..n]) && JobGenuine(jobs[n]);
    NotYetHandled(c, jobs, n);
    assert jobs[..n + 1][..n] == jobs[..n] && t == Did(c, s, jobs[n]);
    DeliverySucceeds(c.handlers, c.maxRetries, DeskOf(s), v, 0);
    hide Tried, RunJobs, EventuallySucceeds, Succeeded, OnlyDelivery;
    var i := |t.calls| - 1;
    assert t.calls[i] == Call(ev, c.handlers[ev.kind], Success);
    hide Did;
    NothingUndone(c, jobs, n + 1);
    DaemonAlwaysSane(c, jobs);
    hide MarksBacked, JobsGenuine, CallsEndOnce, UnlocksOnce;
    assert all.calls[i] == t.calls[i] && Concludes(all.calls[i], ev);
    ConcludedOnce(all.calls, i, ev);
  }

  /** A mark of a key means that one of its deliveries has come before. */
  lemma MarkedMeansDelivered(c: Config, jobs: seq<Job>, ev: TypedEvent)
    requires JobsGenuine(jobs) && ZionHash(ev.txHash)
    requires Encode(Done(ev.txHash, ev.kind)) in RunJobs(c, FRESH, jobs).marks
    ensures exists m | 0 <= m < |jobs| :: jobs[m].Zion? && SameKey(jobs[m].delivery.event, ev)
  {
    DaemonAlwaysSane(c, jobs);
    CallsFromJobs(c, jobs);
    EventsFromJobs(jobs);
    var s, done := RunJobs(c, FRESH, jobs), Done(ev.txHash, ev.kind);
    hide RunJobs, ZionEvents;
    assert Genuine(done) && Backed(s, done);
    var call :| call in s.calls && CallOf(call, ev.txHash, ev.kind) && !call.result.Transient?;
    var m :| 0 <= m < |jobs| && jobs[m].Zion? && jobs[m].delivery.event == call.event;
  }

  lemma NotYetHandled(c: Config, jobs: seq<Job>, n: nat)
    requires JobsGenuine(jobs) && n < |jobs| && Registered(c, jobs[n]) && WillSucceed(c, jobs[n])
    requires OnlyDelivery(jobs, n)
    ensures Handled(c.handlers, DeskOf(RunJobs(c, FRESH, jobs[..n])), jobs[n].delivery.event)
  {
    var before, ev := jobs[..n], jobs[n].delivery.event;
    assert JobsGenuine(before) && JobGenuine(jobs[n]);
    hide RunJobs, EventuallySucceeds;
    assert forall m | 0 <= m < |before| :: before[m] == jobs[m];
    if Encode(Done(ev.txHash, ev.kind)) in RunJobs(c, FRESH, before).marks {
      MarkedMeansDelivered(c, before, ev);
    }
  }
}
