/** From one Zion transaction to the events the pipeline delivers. */
module Decoding {
  import opened Dispatching

  datatype AbciEvent = AbciEvent(kind: string, attributes: seq<(string, string)>)

  /** What a subscription yields: a transaction with its hash and events, or something else. */
  datatype ResultEvent = TxResult(txHash: string, height: int, events: seq<AbciEvent>) | OtherResult

  /** The attributes as a map; of several with the same key the last one counts. */
  function AttributeMap(attributes: seq<(string, string)>): map<string, string> {
    if attributes == [] then map[]
    else
      var last := attributes[|attributes| - 1];
      AttributeMap(attributes[..|attributes| - 1])[last.0 := last.1]
  }

  function Typed(ev: AbciEvent, txHash: string, height: int): TypedEvent {
    TypedEvent(ev.kind, AttributeMap(ev.attributes), txHash, height)
  }

  /** The map has the keys that occur, and no others. */
  lemma {:induction false} AttributeKeys(attributes: seq<(string, string)>)
    ensures forall k :: k in AttributeMap(attributes) <==> exists i :: 0 <= i < |attributes| && attributes[i].0 == k
  {
    if attributes != [] {
      var before, last := attributes[..|attributes| - 1], attributes[|attributes| - 1];
      AttributeKeys(before);
      forall k
        ensures k in AttributeMap(attributes) <==> exists i :: 0 <= i < |attributes| && attributes[i].0 == k
      {
        if k in AttributeMap(before) {
          var i :| 0 <= i < |before| && before[i].0 == k;
          assert attributes[i].0 == k;
        } else if k == last.0 {
          assert attributes[|attributes| - 1].0 == k;
        } else if i :| 0 <= i < |attributes| && attributes[i].0 == k {
          assert before[i].0 == k;
        }
      }
    }
  }

  method AbciEventToTyped(ev: AbciEvent, txHash: string, height: int) returns (t: TypedEvent)
    ensures t == Typed(ev, txHash, height)
    ensures t.kind == ev.kind && t.txHash == txHash && t.height == height
    ensures forall k :: k in t.attributes <==> exists i :: 0 <= i < |ev.attributes| && ev.attributes[i].0 == k
  {
    AttributeKeys(ev.attributes);
    var attrs: map<string, string> := map[];
    for i := 0 to |ev.attributes|
      invariant attrs == AttributeMap(ev.attributes[..i])
    {
      assert ev.attributes[..i + 1][..i] == ev.attributes[..i];
      attrs := attrs[ev.attributes[i].0 := ev.attributes[i].1];
    }
    assert ev.attributes[..|ev.attributes|] == ev.attributes;
    return TypedEvent(ev.kind, attrs, txHash, height);
  }

  /** One typed event per event of the transaction, in order, all with the transaction's hash. */
  method DecodeResultEvent(re: ResultEvent) returns (out: seq<TypedEvent>)
    ensures re.OtherResult? ==> out == []
    ensures re.TxResult? ==>
              && |out| == |re.events|
              && (forall i | 0 <= i < |out| :: out[i] == Typed(re.events[i], re.txHash, re.height))
              && (forall i | 0 <= i < |out| ::
                    out[i].kind == re.events[i].kind && out[i].txHash == re.txHash && out[i].height == re.height)
  {
    out := [];
    if re.TxResult? {
      for i := 0 to |re.events|
        invariant |out| == i
        invariant forall j | 0 <= j < i :: out[j] == Typed(re.events[j], re.txHash, re.height)
      {
        var t := AbciEventToTyped(re.events[i], re.txHash, re.height);
        out := out + [t];
      }
    }
  }

  /** A key is present if it occurs, with the value of its last occurrence. */
  lemma {:induction false} LastAttributeCounts(attributes: seq<(string, string)>, i: nat)
    requires i < |attributes| && forall j | i < j < |attributes| :: attributes[j].0 != attributes[i].0
    ensures attributes[i].0 in AttributeMap(attributes) && AttributeMap(attributes)[attributes[i].0] == attributes[i].1
  {
    if i < |attributes| - 1 {
      LastAttributeCounts(attributes[..|attributes| - 1], i);
    }
  }
}
