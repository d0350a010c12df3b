/** Listener notification for mutating steps: an ordered registry of
    callbacks, the detached event a write produces, and the synchronous,
    in-order, fail-fast delivery of that event. */
module Events {
  import opened Values

  /** A listener. Its `accept` is code outside the core; `throws` says whether
      that code fails when called. */
  datatype Callback = Callback(name: nat, throws: bool)

  /** `Event.VertexAddedEvent` over the detached snapshot of the new vertex. */
  datatype Event = VertexAdded(detached: Vertex)

  /** One `accept` call: which callback received which event. */
  datatype Delivery = Delivery(callback: Callback, event: Event)

  /** What a pull of a mutating step can raise instead of returning: the
      exhaustion signal, a listener's failure, or a null dereference. */
  datatype StepError = NoSuchElement | ListenerFailed(callback: Callback) | NullPointer

  datatype Broadcasted = Broadcasted(delivered: seq<Delivery>, failed: Option<Callback>)

  /** `getCallbacks().forEach(c -> c.accept(e))` over the callbacks `cs`:
      what each callback receives, and the callback that threw, if any. */
  function Broadcast(cs: seq<Callback>, e: Event): Broadcasted
  {
    if cs == [] then Broadcasted([], None)
    else if cs[0].throws then Broadcasted([Delivery(cs[0], e)], Some(cs[0]))
    else
      var rest := Broadcast(cs[1..], e);
      Broadcasted([Delivery(cs[0], e)] + rest.delivered, rest.failed)
  }

  /** Each callback, in registry order, receives `e` exactly once; the first
      callback that throws ends the broadcast, having received the event
      itself; when none throws, every callback has received it. */
  lemma {:induction false} BroadcastInOrder(cs: seq<Callback>, e: Event)
    ensures var r := Broadcast(cs, e);
      && |r.delivered| <= |cs|
      && (forall i :: 0 <= i < |r.delivered| ==> r.delivered[i] == Delivery(cs[i], e))
      && (r.failed.None? <==> forall i :: 0 <= i < |cs| ==> !cs[i].throws)
      && (r.failed.None? ==> |r.delivered| == |cs|)
      && (r.failed.Some? ==>
            && 0 < |r.delivered|
            && r.failed.value == cs[|r.delivered| - 1]
            && r.failed.value.throws
            && forall i :: 0 <= i < |r.delivered| - 1 ==> !cs[i].throws)
  {
    if cs != [] && !cs[0].throws {
      BroadcastInOrder(cs[1..], e);
      var rest := Broadcast(cs[1..], e);
      assert Broadcast(cs, e).delivered == [Delivery(cs[0], e)] + rest.delivered;
      forall i | 1 <= i < |cs|
        ensures cs[i] == cs[1..][i - 1]
      {
      }
    }
  }

  /** One turn of the notification loop, from position `i` of the registry. */
  lemma BroadcastStep(cs: seq<Callback>, i: nat, e: Event)
    requires i < |cs|
    ensures Broadcast(cs[i..], e) ==
              if cs[i].throws then Broadcasted([Delivery(cs[i], e)], Some(cs[i]))
              else Broadcasted([Delivery(cs[i], e)] + Broadcast(cs[i + 1..], e).delivered, Broadcast(cs[i + 1..], e).failed)
  {
    assert cs[i..][0] == cs[i] && cs[i..][1..] == cs[i + 1..];
  }

  /** `ListCallbackRegistry`: callbacks in the order they were added. */
  class CallbackRegistry {
    var callbacks: seq<Callback>

    constructor ()
      ensures callbacks == []
    {
      callbacks := [];
    }

    method AddCallback(c: Callback)
      modifies this
      ensures callbacks == old(callbacks) + [c]
    {
      callbacks := callbacks + [c];
    }
  }

  /** Everything the listeners have received, in the order they received it. */
  class EventLog {
    var delivered: seq<Delivery>

    constructor ()
      ensures delivered == []
    {
      delivered := [];
    }

    /** `c.accept(e)`: the callback receives the event; `ok` is false when it throws. */
    method Accept(c: Callback, e: Event) returns (ok: bool)
      modifies this
      ensures delivered == old(delivered) + [Delivery(c, e)]
      ensures ok == !c.throws
    {
      delivered := delivered + [Delivery(c, e)];
      ok := !c.throws;
    }
  }

  /** The notification loop both mutating steps run after a write. */
  method Notify(registry: CallbackRegistry, e: Event, log: EventLog) returns (failed: Option<Callback>)
    modifies log
    ensures log.delivered == old(log.delivered) + Broadcast(registry.callbacks, e).delivered
    ensures failed == Broadcast(registry.callbacks, e).failed
  {
    var cs := registry.callbacks;
    ghost var all := Broadcast(cs, e);
    var i := 0;
    assert cs[i..] == cs;
    while i < |cs|
      invariant 0 <= i <= |cs|
      invariant old(log.delivered) + all.delivered == log.delivered + Broadcast(cs[i..], e).delivered
      invariant all.failed == Broadcast(cs[i..], e).failed
    {
      BroadcastStep(cs, i, e);
      ghost var before := log.delivered;
      var ok := log.Accept(cs[i], e);
      if !ok {
        assert Broadcast(cs[i..], e).delivered == [Delivery(cs[i], e)];
        return Some(cs[i]);
      }
      assert before + Broadcast(cs[i..], e).delivered == log.delivered + Broadcast(cs[i + 1..], e).delivered;
      i := i + 1;
    }
    assert cs[i..] == [];
    failed := None;
  }
}
