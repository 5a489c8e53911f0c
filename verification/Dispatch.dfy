/** The store of processed keys: an in-memory map, written through to a file. */
module Store {
  class MemoryStore {
    var consumed: map<string, bool>
    /** Whether there is a state file, and what it holds. */
    const persistent: bool
    var file: map<string, bool>

    static function KeysOf(m: map<string, bool>): set<string> {
      set k | k in m && m[k]
    }

    function Marks(): set<string>
      reads this
    {
      KeysOf(consumed)
    }

    /** A restart from the state file never remembers more than was marked. */
    predicate FileBehind()
      reads this
    {
      KeysOf(file) <= Marks()
    }

    /** Starts from what was loaded from the state file, if anything. */
    constructor (persistent: bool, loaded: map<string, bool>)
      ensures this.persistent == persistent && file == loaded
      ensures consumed == if persistent then loaded else map[]
      ensures persistent ==> FileBehind()
    {
      this.persistent, file := persistent, loaded;
      consumed := if persistent then loaded else map[];
    }

    method IsConsumed(key: string) returns (b: bool)
      ensures b <==> key in Marks()
    {
      b := if key in consumed then consumed[key] else false;
    }

    /** The file is written through on best effort: a failed write leaves it as it was, and nobody is told. */
    method MarkConsumed(key: string)
      modifies this
      ensures consumed == old(consumed)[key := true]
      ensures Marks() == old(Marks()) + {key}
      ensures file == old(file) || (persistent && file == consumed)
      ensures old(FileBehind()) ==> FileBehind()
    {
      consumed := consumed[key := true];
      if persistent {
        if * {
          file := consumed;
        }
      }
    }

    /** A copy that later marks do not reach. */
    method Snapshot() returns (out: map<string, bool>)
      ensures out == consumed
    {
      out := map[];
      var todo := consumed.Keys;
      while todo != {}
        invariant todo <= consumed.Keys
        invariant out.Keys == consumed.Keys - todo
        invariant forall k | k in out :: out[k] == consumed[k]
        decreases |todo|
      {
        var k :| k in todo;
        out := out[k := consumed[k]];
        todo := todo - {k};
      }
    }
  }
}

/** What dispatching an event, with retries, does to the store and which handler calls it makes. */
module Dispatching {
  import opened Keys

  /** How one call of a handler ends. */
  datatype Result = Success | Transient | Permanent

  datatype TypedEvent = TypedEvent(kind: string, attributes: map<string, string>, txHash: string, height: int)

  datatype Call = Call(event: TypedEvent, handler: string, result: Result)

  type Handlers = map<string, string>

  /** The marked keys, and all handler calls so far. */
  datatype Desk = Desk(marks: set<string>, calls: seq<Call>)

  function Key(ev: TypedEvent): string {
    DispatchKey(ev.txHash, ev.kind)
  }

  predicate Handled(hs: Handlers, d: Desk, ev: TypedEvent) {
    ev.kind in hs && Key(ev) !in d.marks
  }

  /** One dispatch, in which the handler, if it is called, ends as given. */
  function Dispatched(hs: Handlers, d: Desk, ev: TypedEvent, r: Result): Desk {
    if !Handled(hs, d, ev) then d
    else Desk(if r.Success? then d.marks + {Key(ev)} else d.marks, d.calls + [Call(ev, hs[ev.kind], r)])
  }

  function MarkedFailed(d: Desk, ev: TypedEvent): Desk {
    d.(marks := d.marks + {FailedKey(ev.txHash, ev.kind), Key(ev)})
  }

  /**
   One delivery of an event: how each attempt would end, and whether shutdown
   arrives during the pause before it.
   */
  datatype Delivery = Delivery(event: TypedEvent, results: nat -> Result, cancelled: nat -> bool)

  /** The delivery from the given attempt on. */
  function Tried(hs: Handlers, maxRetries: int, d: Desk, v: Delivery, attempt: nat): Desk
    decreases maxRetries + 1 - attempt
  {
    if attempt > maxRetries || (attempt > 0 && v.cancelled(attempt)) then d
    else
      var d' := Dispatched(hs, d, v.event, v.results(attempt));
      if !Handled(hs, d, v.event) || v.results(attempt).Success? then d'
      else if v.results(attempt).Permanent? then MarkedFailed(d', v.event)
      else Tried(hs, maxRetries, d', v, attempt + 1)
  }

  /** One delivery after the other. */
  function Delivered(hs: Handlers, maxRetries: int, d: Desk, vs: seq<Delivery>): Desk {
    if |vs| == 0 then d
    else Tried(hs, maxRetries, Delivered(hs, maxRetries, d, vs[..|vs| - 1]), vs[|vs| - 1], 0)
  }
}

/** The dispatcher, and the pipeline that feeds it. */
module Pipelines {
  import opened Dispatching
  import opened Keys
  import opened Store

  class Dispatcher {
    var handlers: Handlers
    const store: MemoryStore
    ghost var calls: seq<Call>

    ghost function State(): Desk
      reads this, store
    {
      Desk(store.Marks(), calls)
    }

    constructor (store: MemoryStore)
      ensures this.store == store && handlers == map[] && calls == []
    {
      this.store, handlers, calls := store, map[], [];
    }

    /** The last handler registered for a type serves it. */
    method Register(handler: string, eventTypes: seq<string>)
      modifies this`handlers
      ensures forall k :: k in handlers <==> k in old(handlers) || k in eventTypes
      ensures forall k | k in handlers :: handlers[k] == if k in eventTypes then handler else old(handlers)[k]
    {
      for i := 0 to |eventTypes|
        invariant forall k :: k in handlers <==> k in old(handlers) || k in eventTypes[..i]
        invariant forall k | k in handlers :: handlers[k] == if k in eventTypes[..i] then handler else old(handlers)[k]
      {
        handlers := handlers[eventTypes[i] := handler];
      }
    }

    /** Returns how the handler ended; an event that is skipped counts as success. */
    method Dispatch(ev: TypedEvent, result: Result) returns (err: Result)
      modifies this`calls, store
      ensures State() == Dispatched(handlers, old(State()), ev, result)
      ensures err == if Handled(handlers, old(State()), ev) then result else Success
    {
      if ev.kind !in handlers {
        return Success;
      }
      var key := ev.txHash + ":" + ev.kind;
      var done := store.IsConsumed(key);
      if done {
        return Success;
      }
      calls := calls + [Call(ev, handlers[ev.kind], result)];
      if result != Success {
        return result;
      }
      store.MarkConsumed(key);
      return Success;
    }

    method MarkPermanentlyFailed(ev: TypedEvent)
      modifies store
      ensures State() == MarkedFailed(old(State()), ev)
    {
      var failedKey := "failed:" + ev.txHash + ":" + ev.kind;
      store.MarkConsumed(failedKey);
      store.MarkConsumed(ev.txHash + ":" + ev.kind);
    }
  }

  class Pipeline {
    const dispatcher: Dispatcher
    const maxRetries: int

    constructor (dispatcher: Dispatcher, maxRetries: int)
      ensures this.dispatcher == dispatcher && this.maxRetries == maxRetries
    {
      this.dispatcher, this.maxRetries := dispatcher, maxRetries;
    }

    method ProcessWithRetry(v: Delivery)
      modifies dispatcher`calls, dispatcher.store
      ensures dispatcher.State() == Tried(dispatcher.handlers, maxRetries, old(dispatcher.State()), v, 0)
    {
      ghost var before := dispatcher.State();
      var attempt: nat := 0;
      while attempt <= maxRetries
        invariant Tried(dispatcher.handlers, maxRetries, before, v, 0)
               == Tried(dispatcher.handlers, maxRetries, dispatcher.State(), v, attempt)
        decreases maxRetries + 1 - attempt
      {
        if attempt > 0 && v.cancelled(attempt) {
          return;
        }
        var err := dispatcher.Dispatch(v.event, v.results(attempt));
        if err == Success {
          return;
        }
        if err == Permanent {
          dispatcher.MarkPermanentlyFailed(v.event);
          return;
        }
        attempt := attempt + 1;
      }
    }

    /** Processes events until the source closes or shutdown arrives. */
    method Run(deliveries: seq<Delivery>)
      modifies dispatcher`calls, dispatcher.store
      ensures dispatcher.State() == Delivered(dispatcher.handlers, maxRetries, old(dispatcher.State()), deliveries)
    {
      for i := 0 to |deliveries|
        invariant dispatcher.State()
               == Delivered(dispatcher.handlers, maxRetries, old(dispatcher.State()), deliveries[..i])
      {
        assert deliveries[..i + 1][..i] == deliveries[..i];
        ProcessWithRetry(deliveries[i]);
      }
      assert deliveries[..|deliveries|] == deliveries;
    }
  }
}
