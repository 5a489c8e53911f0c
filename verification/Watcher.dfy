/** The reverse direction: what one ragequit event does to the store, and whether it is sent to Zion. */
module Watching {
  import opened Keys

  datatype RagequitEvent = RagequitEvent(txHash: string, logIndex: nat, citizen: string, amount: nat)

  /** What became of an event: sent, refused by the broadcast, or only logged because there is no broadcaster. */
  datatype Fate = Sent | Refused | Logged

  datatype Unlock = Unlock(event: RagequitEvent, fate: Fate)

  /** The marked keys, and the fates of all events so far. */
  datatype Watch = Watch(marks: set<string>, unlocks: seq<Unlock>)

  predicate Settled(marks: set<string>, ev: RagequitEvent) {
    RagequitKey(ev.txHash, ev.logIndex) in marks || RagequitFailedKey(ev.txHash, ev.logIndex) in marks
  }

  function FateOf(connected: bool, accepted: bool): Fate {
    if !connected then Logged else if accepted then Sent else Refused
  }

  /** One event, whose broadcast would be accepted or not. */
  function Watched(connected: bool, w: Watch, ev: RagequitEvent, accepted: bool): Watch {
    if Settled(w.marks, ev) then w
    else
      var fate := FateOf(connected, accepted);
      var key := if fate.Refused? then RagequitFailedKey(ev.txHash, ev.logIndex)
                 else RagequitKey(ev.txHash, ev.logIndex);
      Watch(w.marks + {key}, w.unlocks + [Unlock(ev, fate)])
  }

  /** A new event is sent once, and marked under the key that says what became of it. */
  lemma WatchedIs(connected: bool, w: Watch, ev: RagequitEvent, accepted: bool)
    requires !Settled(w.marks, ev)
    ensures var w', place := Watched(connected, w, ev, accepted), ev.txHash + ":" + Decimal(ev.logIndex);
            && w'.unlocks == w.unlocks + [Unlock(ev, if !connected then Logged else if accepted then Sent else Refused)]
            && w'.marks == w.marks + {if connected && !accepted then "failed:evm_ragequit:" + place
                                      else "evm_ragequit:" + place}
  {
    hide Decimal;
    assert "evm_ragequit:" + (ev.txHash + ":" + Decimal(ev.logIndex)) == RagequitKey(ev.txHash, ev.logIndex);
    assert "failed:evm_ragequit:" + (ev.txHash + ":" + Decimal(ev.logIndex))
        == RagequitFailedKey(ev.txHash, ev.logIndex);
  }
}

/** The handler that consumes EVM ragequit events. */
module Watchers {
  import opened Keys
  import opened Store
  import opened Watching

  datatype Arrival = Arrival(event: RagequitEvent, accepted: bool)

  function AllWatched(connected: bool, w: Watch, arrivals: seq<Arrival>): Watch {
    if arrivals == [] then w
    else
      var last := arrivals[|arrivals| - 1];
      Watched(connected, AllWatched(connected, w, arrivals[..|arrivals| - 1]), last.event, last.accepted)
  }

  class EVMRagequitHandler {
    const store: MemoryStore
    const connected: bool
    ghost var unlocks: seq<Unlock>

    ghost function State(): Watch
      reads this, store
    {
      Watch(store.Marks(), unlocks)
    }

    constructor (store: MemoryStore, connected: bool)
      ensures this.store == store && this.connected == connected && unlocks == []
    {
      this.store, this.connected, unlocks := store, connected, [];
    }

    /** Fails only if the broadcast does; the caller then records the event as failed. */
    method Handle(ev: RagequitEvent, accepted: bool) returns (ok: bool)
      modifies this, store
      ensures ok ==> State() == Watched(connected, old(State()), ev, accepted)
      ensures !ok ==>
                var failedKey := RagequitFailedKey(ev.txHash, ev.logIndex);
                State().(marks := State().marks + {failedKey}) == Watched(connected, old(State()), ev, accepted)
    {
      var key := RagequitKey(ev.txHash, ev.logIndex);
      var done := store.IsConsumed(key);
      if done {
        return true;
      }
      var failedKey := RagequitFailedKey(ev.txHash, ev.logIndex);
      var failed := store.IsConsumed(failedKey);
      if failed {
        return true;
      }
      unlocks := unlocks + [Unlock(ev, FateOf(connected, accepted))];
      if connected && !accepted {
        return false;
      }
      store.MarkConsumed(key);
      return true;
    }

    /** Consumes the channel until it closes. */
    method Run(arrivals: seq<Arrival>)
      modifies this, store
      ensures State() == AllWatched(connected, old(State()), arrivals)
    {
      for i := 0 to |arrivals|
        invariant State() == AllWatched(connected, old(State()), arrivals[..i])
      {
        assert arrivals[..i + 1][..i] == arrivals[..i];
        var ok := Handle(arrivals[i].event, arrivals[i].accepted);
        if !ok {
          var failedKey := RagequitFailedKey(arrivals[i].event.txHash, arrivals[i].event.logIndex);
          store.MarkConsumed(failedKey);
        }
      }
      assert arrivals[..|arrivals|] == arrivals;
    }
  }
}
